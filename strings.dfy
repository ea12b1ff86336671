/**
 * Character and string operations that the client relies on: ASCII case
 * mapping (`toUpperCase`, `toLowerCase`), `Array.prototype.join` over strings,
 * splitting at a separator character, and decimal rendering of integers.
 */
module Strings {

  /** `toUpperCase` restricted to ASCII letters. */
  function UpperAscii(c: char): char
  {
    if 'a' <= c <= 'z' then (c as int - 32) as char else c
  }

  /** `toLowerCase` restricted to ASCII letters. */
  function LowerAscii(c: char): char
  {
    if 'A' <= c <= 'Z' then (c as int + 32) as char else c
  }

  function Uppercase(s: string): (r: string)
    ensures |r| == |s|
    ensures forall i :: 0 <= i < |s| ==> r[i] == UpperAscii(s[i])
  {
    seq(|s|, i requires 0 <= i < |s| => UpperAscii(s[i]))
  }

  function Lowercase(s: string): (r: string)
    ensures |r| == |s|
    ensures forall i :: 0 <= i < |s| ==> r[i] == LowerAscii(s[i])
  {
    seq(|s|, i requires 0 <= i < |s| => LowerAscii(s[i]))
  }

  /** The elements of `xs` with `sep` between each neighbouring pair. */
  function JoinText(xs: seq<string>, sep: string): string
  {
    if |xs| == 0 then ""
    else if |xs| == 1 then xs[0]
    else xs[0] + sep + JoinText(xs[1..], sep)
  }

  /** `s.split(c)`: the maximal pieces of `s` between occurrences of `c`. */
  function Split(s: string, c: char): (r: seq<string>)
    ensures |r| >= 1
    decreases |s|
  {
    if s == [] then [[]]
    else
      var rest := Split(s[1..], c);
      if s[0] == c then [[]] + rest else [[s[0]] + rest[0]] + rest[1..]
  }

  lemma {:induction false} SplitWithout(x: string, c: char)
    requires c !in x
    ensures Split(x, c) == [x]
    decreases |x|
  {
    if x != [] {
      assert x[1..] + [] == x[1..];
      SplitWithout(x[1..], c);
      assert [x[0]] + x[1..] == x;
    }
  }

  lemma {:induction false} SplitAt(x: string, y: string, c: char)
    requires c !in x
    ensures Split(x + [c] + y, c) == [x] + Split(y, c)
    decreases |x|
  {
    var s := x + [c] + y;
    if x == [] {
      assert s[0] == c && s[1..] == y;
    } else {
      assert s[0] == x[0] && s[1..] == x[1..] + [c] + y;
      SplitAt(x[1..], y, c);
      assert [x[0]] + x[1..] == x;
    }
  }

  /** The pieces that splitting `JoinText(xs, [c] + tail)` at `c` yields:
      the first element as is, every later one preceded by `tail`. */
  function Continued(xs: seq<string>, tail: string): (r: seq<string>)
    requires |xs| >= 1
  {
    [xs[0]] + seq(|xs| - 1, i requires 0 <= i < |xs| - 1 => tail + xs[i + 1])
  }

  lemma {:induction false} SplitJoinFrom(p: string, xs: seq<string>, c: char, tail: string)
    requires |xs| >= 1 && c !in p && c !in tail
    requires forall i :: 0 <= i < |xs| ==> c !in xs[i]
    ensures Split(p + JoinText(xs, [c] + tail), c) == [p + xs[0]] + Continued(xs, tail)[1..]
    decreases |xs|
  {
    if |xs| == 1 {
      SplitWithout(p + xs[0], c);
    } else {
      var rest := JoinText(xs[1..], [c] + tail);
      assert JoinText(xs, [c] + tail) == xs[0] + ([c] + tail) + rest;
      assert p + JoinText(xs, [c] + tail) == (p + xs[0]) + [c] + (tail + rest);
      SplitAt(p + xs[0], tail + rest, c);
      SplitJoinFrom(tail, xs[1..], c, tail);
      assert Continued(xs[1..], tail)[1..] == Continued(xs, tail)[2..];
    }
  }

  /** Splitting a joined list at the separator's first character gives the
      elements back, every element after the first carrying the rest of the
      separator in front of it. */
  lemma {:induction false} SplitJoin(xs: seq<string>, c: char, tail: string)
    requires |xs| >= 1 && c !in tail
    requires forall i :: 0 <= i < |xs| ==> c !in xs[i]
    ensures Split(JoinText(xs, [c] + tail), c) == Continued(xs, tail)
  {
    var joined := JoinText(xs, [c] + tail);
    SplitJoinFrom([], xs, c, tail);
    assert [] + joined == joined;
    assert [] + xs[0] == xs[0];
    var k := Continued(xs, tail);
    assert k == [k[0]] + k[1..];
  }

  /** With a one-character separator the split is an exact inverse of the join. */
  lemma {:induction false} SplitJoinChar(xs: seq<string>, c: char)
    requires |xs| >= 1
    requires forall i :: 0 <= i < |xs| ==> c !in xs[i]
    ensures Split(JoinText(xs, [c]), c) == xs
  {
    SplitJoin(xs, c, []);
    assert [c] + [] == [c];
    var k := Continued(xs, []);
    assert forall i :: 0 <= i < |xs| ==> k[i] == xs[i];
  }

  function DigitChar(d: nat): char
    requires d < 10
  {
    ('0' as int + d) as char
  }

  function Digits(n: nat): (r: string)
    ensures |r| >= 1
    decreases n
  {
    if n < 10 then [DigitChar(n)] else Digits(n / 10) + [DigitChar(n % 10)]
  }

  /** `String(n)` for an integral number. */
  function DecimalText(n: int): string
  {
    if n < 0 then "-" + Digits(-n) else Digits(n)
  }

  predicate IsDigit(c: char)
  {
    '0' <= c <= '9'
  }

  /** The value of a string of decimal digits, read most significant first. */
  function DigitsValue(s: string): (v: nat)
    requires forall i :: 0 <= i < |s| ==> IsDigit(s[i])
    decreases |s|
  {
    if s == [] then 0
    else
      assert IsDigit(s[|s| - 1]);
      DigitsValue(s[..|s| - 1]) * 10 + (s[|s| - 1] as int - '0' as int)
  }

  /** Reading the digits of `n` back gives `n`. */
  lemma {:induction false} DigitsRoundTrip(n: nat)
    ensures forall i :: 0 <= i < |Digits(n)| ==> IsDigit(Digits(n)[i])
    ensures DigitsValue(Digits(n)) == n
    decreases n
  {
    if n >= 10 {
      DigitsRoundTrip(n / 10);
      var d := Digits(n);
      assert d[..|d| - 1] == Digits(n / 10);
    }
  }

  /** Upper-casing twice is upper-casing once. */
  lemma UppercaseIdempotent(s: string)
    ensures Uppercase(Uppercase(s)) == Uppercase(s)
  {
  }

  /** A string lower-cases to `target` exactly when each of its characters is
      the target's character in either case, for a lower-case ASCII target. */
  lemma LowercaseMatches(s: string, target: string)
    requires forall i :: 0 <= i < |target| ==> 'a' <= target[i] <= 'z'
    ensures Lowercase(s) == target <==>
      |s| == |target| && forall i :: 0 <= i < |s| ==> s[i] == target[i] || s[i] == UpperAscii(target[i])
  {
    if |s| == |target| && forall i :: 0 <= i < |s| ==> s[i] == target[i] || s[i] == UpperAscii(target[i]) {
      assert forall i :: 0 <= i < |s| ==> Lowercase(s)[i] == target[i];
    }
  }
}
