/**
 * Player and clan tags (`Util.verifyTag`): a tag is upper-cased, loses its
 * first `#`, has every `O` turned into `0`, and must then consist only of
 * characters from a fourteen-letter alphabet.
 */
module Tags {
  import opened Strings
  import opened Values

  /** The characters a normalised tag may contain. */
  const TagCharacters: string := ['0', '2', '8', '9', 'P', 'Y', 'L', 'Q', 'G', 'R', 'J', 'C', 'U', 'V']

  predicate IsTagChar(c: char)
  {
    c in TagCharacters
  }

  predicate AllTagChars(t: string)
  {
    forall i :: 0 <= i < |t| ==> IsTagChar(t[i])
  }

  /** The position of the first `c` in `s`. */
  function IndexOf(s: string, c: char): (i: nat)
    requires c in s
    ensures i < |s| && s[i] == c && c !in s[..i]
  {
    if s[0] == c then 0
    else
      var j := IndexOf(s[1..], c);
      assert s[..j + 1] == [s[0]] + s[1..][..j];
      1 + j
  }

  /** `s.replace(c, '')` with a string pattern: only the first occurrence goes. */
  function RemoveFirst(s: string, c: char): (r: string)
    ensures c in s ==> |r| == |s| - 1
    ensures c !in s ==> r == s
  {
    if c in s then s[..IndexOf(s, c)] + s[IndexOf(s, c) + 1..] else s
  }

  /** Removing the first `c` takes exactly one `c` out of the characters, when
      there is one. */
  lemma RemoveFirstMultiset(s: string, c: char)
    ensures multiset(RemoveFirst(s, c)) == multiset(s) - multiset{c}
  {
    if c in s {
      var j := IndexOf(s, c);
      var a, b := s[..j], s[j + 1..];
      assert s == a + [c] + b;
      assert multiset(s) == multiset(a) + multiset{c} + multiset(b);
      assert RemoveFirst(s, c) == a + b;
    } else {
      assert c !in multiset(s);
      assert multiset(s) - multiset{c} == multiset(s);
    }
  }

  /** `s.replace(/from/g, to)`. */
  function ReplaceAll(s: string, from: char, to: char): (r: string)
    ensures |r| == |s|
    ensures forall i :: 0 <= i < |s| ==> r[i] == if s[i] == from then to else s[i]
  {
    seq(|s|, i requires 0 <= i < |s| => if s[i] == from then to else s[i])
  }

  /** After `replace(/from/g, to)` no `from` is left, and a second pass changes
      nothing. */
  lemma ReplaceAllRemoves(s: string, from: char, to: char)
    requires from != to
    ensures from !in ReplaceAll(s, from, to)
    ensures ReplaceAll(ReplaceAll(s, from, to), from, to) == ReplaceAll(s, from, to)
  {
    var r := ReplaceAll(s, from, to);
    forall k | 0 <= k < |r| ensures r[k] != from { }
  }

  /** The rewriting step of `verifyTag`, in the order the source applies it. */
  function Normalise(s: string): string
  {
    ReplaceAll(RemoveFirst(Uppercase(s), '#'), 'O', '0')
  }

  /** `Util.verifyTag(tag)`: the normalised tag, or the error it throws. The
      character scan stops at the first character outside the alphabet, which
      makes the outcome that of `AllTagChars`. */
  function VerifyTag(tag: Js): (r: Result<string, Thrown>)
    ensures r.Success? ==> tag.Str? && r.value == Normalise(tag.s) && AllTagChars(r.value)
    ensures !Truthy(tag) ==> r == Failure(Raised(Error, MissingTag))
    ensures Truthy(tag) && !tag.Str? ==> r == Failure(Raised(TypeError, TagNotString))
    ensures tag.Str? && tag.s != "" && r.Failure? ==> r.error == Raised(Error, InvalidTagCharacter)
  {
    if !Truthy(tag) then Failure(Raised(Error, MissingTag))
    else if !tag.Str? then Failure(Raised(TypeError, TagNotString))
    else
      var t := Normalise(tag.s);
      if AllTagChars(t) then Success(t) else Failure(Raised(Error, InvalidTagCharacter))
  }

  /** The `for` loop of `verifyTag`: scans the rewritten tag and stops at the
      first character outside the alphabet. */
  method ScanTagChars(t: string) returns (ok: bool)
    ensures ok <==> AllTagChars(t)
  {
    var i := 0;
    while i < |t|
      invariant 0 <= i <= |t|
      invariant forall k :: 0 <= k < i ==> IsTagChar(t[k])
    {
      if t[i] !in TagCharacters {
        return false;
      }
      i := i + 1;
    }
    return true;
  }

  /** `verifyTag` step by step: the two argument checks, the rewriting, and
      the scan that throws at the first character outside the alphabet. */
  method CheckTag(tag: Js) returns (r: Result<string, Thrown>)
    ensures r == VerifyTag(tag)
  {
    if !Truthy(tag) {
      return Failure(Raised(Error, MissingTag));
    }
    if !tag.Str? {
      return Failure(Raised(TypeError, TagNotString));
    }
    var t := Normalise(tag.s);
    var ok := ScanTagChars(t);
    if !ok {
      return Failure(Raised(Error, InvalidTagCharacter));
    }
    return Success(t);
  }

  // ---------------------------------------------------------------------------
  // A character-level description of the accepted tags, independent of the
  // rewriting order, and its agreement with VerifyTag.

  /** What a single raw character becomes after upper-casing and `O` -> `0`. */
  function Canonical(c: char): char
  {
    var u := UpperAscii(c);
    if u == 'O' then '0' else u
  }

  /** A raw string `verifyTag` accepts: non-empty, at most one `#`, and every
      other character canonically in the alphabet (so `o`, `O`, and lower-case
      alphabet letters are fine). */
  predicate Acceptable(s: string)
  {
    && s != ""
    && multiset(s)['#'] <= 1
    && forall i :: 0 <= i < |s| && s[i] != '#' ==> IsTagChar(Canonical(s[i]))
  }

  lemma IndexOfUnique(s: string, c: char, j: nat)
    requires j < |s| && s[j] == c && c !in s[..j]
    ensures c in s && IndexOf(s, c) == j
  {
    assert s[j] in s;
    var i := IndexOf(s, c);
    assert forall k :: 0 <= k < j ==> s[..j][k] == s[k];
    assert forall k :: 0 <= k < i ==> s[..i][k] == s[k];
  }

  /** Upper-casing never creates or removes a `#`, so removing the first `#`
      commutes with upper-casing. */
  lemma UpperThenRemove(s: string)
    ensures |RemoveFirst(Uppercase(s), '#')| == |RemoveFirst(s, '#')|
    ensures forall k :: 0 <= k < |RemoveFirst(s, '#')| ==> RemoveFirst(Uppercase(s), '#')[k] == UpperAscii(RemoveFirst(s, '#')[k])
  {
    var u := Uppercase(s);
    assert forall k :: 0 <= k < |s| ==> (u[k] == '#' <==> s[k] == '#');
    if '#' in s {
      UpperThenRemoveHash(s);
    } else {
      assert '#' !in u by {
        forall k | 0 <= k < |u| ensures u[k] != '#' { assert s[k] in s; }
      }
    }
  }

  lemma UpperThenRemoveHash(s: string)
    requires '#' in s
    ensures |RemoveFirst(Uppercase(s), '#')| == |RemoveFirst(s, '#')|
    ensures forall k :: 0 <= k < |RemoveFirst(s, '#')| ==> RemoveFirst(Uppercase(s), '#')[k] == UpperAscii(RemoveFirst(s, '#')[k])
  {
    var u := Uppercase(s);
    var r := RemoveFirst(s, '#');
    var ru := RemoveFirst(u, '#');
    var j := IndexOf(s, '#');
    assert u[j] == '#';
    assert '#' !in u[..j] by {
      forall k | 0 <= k < j ensures u[..j][k] != '#' {
        assert s[..j][k] != '#';
      }
    }
    IndexOfUnique(u, '#', j);
    forall k | 0 <= k < |r| ensures ru[k] == UpperAscii(r[k]) {
      if k < j { assert ru[k] == u[k] && r[k] == s[k]; }
      else { assert ru[k] == u[k + 1] && r[k] == s[k + 1]; }
    }
  }

  lemma NormaliseCanonical(s: string)
    ensures Normalise(s) == seq(|RemoveFirst(s, '#')|, i requires 0 <= i < |RemoveFirst(s, '#')| => Canonical(RemoveFirst(s, '#')[i]))
  {
    UpperThenRemove(s);
  }

  /** The normalised text is one character shorter exactly when the input held
      a `#`, and holds no lower-case ASCII letter and no `O`. */
  lemma NormalisedForm(s: string)
    ensures |Normalise(s)| == if '#' in s then |s| - 1 else |s|
    ensures forall i :: 0 <= i < |Normalise(s)| ==> Normalise(s)[i] != 'O' && !('a' <= Normalise(s)[i] <= 'z')
  {
    NormaliseCanonical(s);
  }

  /** Strings over the tag alphabet are left alone by every rewriting step. */
  lemma TagAlphabetFixed(t: string)
    requires AllTagChars(t)
    ensures Uppercase(t) == t
    ensures RemoveFirst(t, '#') == t
    ensures ReplaceAll(t, 'O', '0') == t
    ensures Normalise(t) == t
  {
    var u := Uppercase(t);
    assert u == t by {
      forall k | 0 <= k < |t| ensures u[k] == t[k] { assert IsTagChar(t[k]); }
    }
    assert '#' !in t by {
      forall k | 0 <= k < |t| ensures t[k] != '#' { assert IsTagChar(t[k]); }
    }
    var z := ReplaceAll(t, 'O', '0');
    assert z == t by {
      forall k | 0 <= k < |t| ensures z[k] == t[k] { assert IsTagChar(t[k]); }
    }
  }

  /** Every character of `x` becomes an alphabet character. */
  predicate CanonicallyTagChars(x: string)
  {
    forall k :: 0 <= k < |x| ==> IsTagChar(Canonical(x[k]))
  }

  lemma NormalisedTagChars(s: string)
    ensures AllTagChars(Normalise(s)) <==> CanonicallyTagChars(RemoveFirst(s, '#'))
  {
    NormaliseCanonical(s);
  }

  /** Removing the first `#` lowers the count of `#` by one. */
  lemma RemoveFirstHashCount(s: string)
    ensures multiset(RemoveFirst(s, '#'))['#'] == if '#' in s then multiset(s)['#'] - 1 else 0
  {
    if '#' in s {
      var j := IndexOf(s, '#');
      assert s == s[..j] + [s[j]] + s[j + 1..];
    } else {
      assert '#' !in multiset(s);
    }
  }

  /** Where the characters of `s` land after its first `#` is removed. */
  lemma RemoveFirstShift(s: string)
    requires '#' in s
    ensures var j := IndexOf(s, '#');
      && s[j] == '#'
      && (forall k :: 0 <= k < j ==> RemoveFirst(s, '#')[k] == s[k])
      && (forall k :: j <= k < |RemoveFirst(s, '#')| ==> RemoveFirst(s, '#')[k] == s[k + 1])
  {
  }

  /** Removing the only `#` leaves no `#`. */
  lemma NoHashLeft(s: string)
    requires multiset(s)['#'] <= 1
    ensures forall k :: 0 <= k < |RemoveFirst(s, '#')| ==> RemoveFirst(s, '#')[k] != '#'
  {
    var r := RemoveFirst(s, '#');
    RemoveFirstHashCount(s);
    forall k | 0 <= k < |r| ensures r[k] != '#' {
      assert r[k] in multiset(r);
    }
  }

  lemma SingleHashForward(s: string)
    requires '#' in s && CanonicallyTagChars(RemoveFirst(s, '#'))
    ensures forall i :: 0 <= i < |s| && s[i] != '#' ==> IsTagChar(Canonical(s[i]))
  {
    var r := RemoveFirst(s, '#');
    var j := IndexOf(s, '#');
    RemoveFirstShift(s);
    forall i | 0 <= i < |s| && s[i] != '#' ensures IsTagChar(Canonical(s[i])) {
      if i > j { assert r[i - 1] == s[i]; } else if i < j { assert r[i] == s[i]; }
    }
  }

  lemma SingleHashBackward(s: string)
    requires '#' in s && multiset(s)['#'] <= 1
    requires forall i :: 0 <= i < |s| && s[i] != '#' ==> IsTagChar(Canonical(s[i]))
    ensures CanonicallyTagChars(RemoveFirst(s, '#'))
  {
    var r := RemoveFirst(s, '#');
    var j := IndexOf(s, '#');
    RemoveFirstShift(s);
    NoHashLeft(s);
    forall k | 0 <= k < |r| ensures IsTagChar(Canonical(r[k])) {
      if k >= j { assert r[k] == s[k + 1]; } else { assert r[k] == s[k]; }
    }
  }

  /** With at most one `#`, the characters left after removing it are exactly
      the characters of the input other than `#`. */
  lemma RemoveSingleHash(s: string)
    requires multiset(s)['#'] <= 1
    ensures CanonicallyTagChars(RemoveFirst(s, '#')) <==>
            forall i :: 0 <= i < |s| && s[i] != '#' ==> IsTagChar(Canonical(s[i]))
  {
    if '#' in s {
      if CanonicallyTagChars(RemoveFirst(s, '#')) {
        SingleHashForward(s);
      }
      if forall i :: 0 <= i < |s| && s[i] != '#' ==> IsTagChar(Canonical(s[i])) {
        SingleHashBackward(s);
      }
    }
  }

  /** With two or more `#`, one is left after the first is removed. */
  lemma HashSurvives(s: string)
    requires multiset(s)['#'] >= 2
    ensures !CanonicallyTagChars(RemoveFirst(s, '#'))
  {
    var r := RemoveFirst(s, '#');
    RemoveFirstHashCount(s);
    assert '#' in multiset(r);
    assert '#' in r;
    var k :| 0 <= k < |r| && r[k] == '#';
    assert Canonical(r[k]) == '#';
  }

  lemma VerifyTagOnText(s: string)
    requires s != ""
    ensures VerifyTag(Str(s)).Success? <==> AllTagChars(Normalise(s))
  {
  }

  /** Exactly the acceptable raw strings pass `verifyTag`. */
  lemma {:induction false} VerifyTagExactly(s: string)
    ensures VerifyTag(Str(s)).Success? <==> Acceptable(s)
  {
    if s == "" { return; }
    VerifyTagOnText(s);
    NormalisedTagChars(s);
    var r := RemoveFirst(s, '#');
    if multiset(s)['#'] >= 2 {
      HashSurvives(s);
    } else {
      RemoveSingleHash(s);
    }
  }

  /** A tag with two `#` is refused: only the first is removed. */
  lemma TwoHashesRejected(s: string)
    requires multiset(s)['#'] >= 2
    ensures VerifyTag(Str(s)) == Failure(Raised(Error, InvalidTagCharacter))
  {
    VerifyTagExactly(s);
  }

  /** The tag `"#"` normalises to the empty string without an error. */
  lemma HashAloneIsEmpty()
    ensures VerifyTag(Str("#")) == Success("")
  {
    assert IndexOf("#", '#') == 0;
  }

  /** Normalising a non-empty result again gives it back; the empty result
      fails the falsy check when fed back. */
  lemma {:induction false} VerifyTagIdempotent(tag: Js)
    requires VerifyTag(tag).Success?
    ensures var t := VerifyTag(tag).value;
      VerifyTag(Str(t)) == if t == "" then Failure(Raised(Error, MissingTag)) else Success(t)
  {
    var t := VerifyTag(tag).value;
    if t != "" {
      TagAlphabetFixed(t);
    }
  }
}
