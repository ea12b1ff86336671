/**
 * The sliding-window rate limiter of the `lib` client. It keeps the times of
 * the requests it let through; each new request first drops the times that
 * fell out of the window, is refused when more than `limit` remain, and is
 * otherwise recorded at the end.
 */
module RateLimiting {
  import opened Values

  predicate Sorted(ts: seq<int>)
  {
    forall i, j :: 0 <= i < j < |ts| ==> ts[i] <= ts[j]
  }

  /** `ts.filter(t => t > windowStart)`. */
  function Prune(ts: seq<int>, windowStart: int): (r: seq<int>)
    ensures |r| <= |ts|
    ensures forall i :: 0 <= i < |r| ==> r[i] > windowStart
    ensures forall t :: t > windowStart ==> multiset(r)[t] == multiset(ts)[t]
    ensures forall t :: t <= windowStart ==> multiset(r)[t] == 0
  {
    if ts == [] then []
    else
      assert ts == [ts[0]] + ts[1..];
      (if ts[0] > windowStart then [ts[0]] else []) + Prune(ts[1..], windowStart)
  }

  /** When the times are in increasing order, pruning trims a prefix: the
      survivors are the latest times, in their original order. */
  lemma {:induction false} PruneSortedIsSuffix(ts: seq<int>, windowStart: int)
    requires Sorted(ts)
    ensures Prune(ts, windowStart) == ts[|ts| - |Prune(ts, windowStart)|..]
  {
    if ts != [] {
      if ts[0] > windowStart {
        forall i | 0 <= i < |ts| ensures ts[i] > windowStart {
          assert i == 0 || ts[0] <= ts[i];
        }
        PruneKeepsAllNewer(ts, windowStart);
      } else {
        var tail := ts[1..];
        assert Sorted(tail) by {
          forall i, j | 0 <= i < j < |tail| ensures tail[i] <= tail[j] {
            assert tail[i] == ts[i + 1] && tail[j] == ts[j + 1];
          }
        }
        PruneSortedIsSuffix(tail, windowStart);
        assert Prune(ts, windowStart) == [] + Prune(tail, windowStart);
        assert [] + Prune(tail, windowStart) == Prune(tail, windowStart);
        var m := |tail| - |Prune(tail, windowStart)|;
        assert tail[m..] == ts[m + 1..];
      }
    }
  }

  /** Pruning is a filter: it works piece by piece, so the survivors keep
      their relative order. */
  lemma {:induction false} PruneAppend(a: seq<int>, b: seq<int>, windowStart: int)
    ensures Prune(a + b, windowStart) == Prune(a, windowStart) + Prune(b, windowStart)
  {
    if a != [] {
      assert (a + b)[1..] == a[1..] + b;
      assert (a + b)[0] == a[0];
      PruneAppend(a[1..], b, windowStart);
    } else {
      assert a + b == b;
    }
  }

  lemma {:induction false} PruneKeepsAllNewer(ts: seq<int>, windowStart: int)
    requires forall i :: 0 <= i < |ts| ==> ts[i] > windowStart
    ensures Prune(ts, windowStart) == ts
  {
    if ts != [] {
      PruneKeepsAllNewer(ts[1..], windowStart);
      assert [ts[0]] + ts[1..] == ts;
    }
  }

  /** The most timestamps a limiter can hold between calls: `limit + 1`,
      since a call is refused only when MORE than `limit` remain. */
  function Capacity(limit: int): nat
  {
    if limit < 0 then 0 else limit + 1
  }

  /** The effect of one `mkRequest` at time `now` on the recorded times. */
  datatype Admission = Admission(requests: seq<int>, admitted: bool)

  function Admit(ts: seq<int>, limit: int, window: int, now: int): (a: Admission)
    ensures var kept := Prune(ts, now - window);
      && (a.admitted <==> |kept| <= limit)
      && (a.admitted ==> |a.requests| == |kept| + 1 && a.requests[|kept|] == now)
      && (!a.admitted ==> a.requests == kept && |a.requests| > limit)
    ensures a.requests[..|Prune(ts, now - window)|] == Prune(ts, now - window)
    ensures |ts| <= Capacity(limit) ==> |a.requests| <= Capacity(limit)
  {
    var kept := Prune(ts, now - window);
    if |kept| > limit then Admission(kept, false) else Admission(kept + [now], true)
  }

  lemma SortedSuffix(ts: seq<int>, d: nat)
    requires Sorted(ts) && d <= |ts|
    ensures Sorted(ts[d..])
  {
    var s := ts[d..];
    forall i, j | 0 <= i < j < |s| ensures s[i] <= s[j] {
      assert s[i] == ts[d + i] && s[j] == ts[d + j];
    }
  }

  /** No recorded time is after `bound`. */
  predicate AtMost(ts: seq<int>, bound: int)
  {
    forall i :: 0 <= i < |ts| ==> ts[i] <= bound
  }

  lemma SortedAppend(ts: seq<int>, now: int)
    requires Sorted(ts) && AtMost(ts, now)
    ensures Sorted(ts + [now]) && AtMost(ts + [now], now)
  {
    var s := ts + [now];
    forall i, j | 0 <= i < j < |s| ensures s[i] <= s[j] {
      assert s[i] == ts[i];
      if j < |ts| { assert s[j] == ts[j]; }
    }
    forall i | 0 <= i < |s| ensures s[i] <= now {
      if i < |ts| { assert s[i] == ts[i]; }
    }
  }

  /** Pruning sorted times that are all at most `now` keeps them sorted and at most `now`. */
  lemma PruneSortedBounded(ts: seq<int>, windowStart: int, now: int)
    requires Sorted(ts) && AtMost(ts, now)
    ensures Sorted(Prune(ts, windowStart)) && AtMost(Prune(ts, windowStart), now)
  {
    var kept := Prune(ts, windowStart);
    PruneSortedIsSuffix(ts, windowStart);
    var d := |ts| - |kept|;
    assert kept == ts[d..];
    SortedSuffix(ts, d);
    forall i | 0 <= i < |kept| ensures kept[i] <= now {
      assert kept[i] == ts[d + i];
    }
  }

  /** One call keeps the recorded times sorted when none of them is after `now`. */
  lemma AdmitKeepsOrder(ts: seq<int>, limit: int, window: int, now: int)
    requires Sorted(ts) && AtMost(ts, now)
    ensures Sorted(Admit(ts, limit, window, now).requests) && AtMost(Admit(ts, limit, window, now).requests, now)
  {
    var kept := Prune(ts, now - window);
    PruneSortedBounded(ts, now - window, now);
    SortedAppend(kept, now);
  }

  /** The outcomes of consecutive requests at the given times, and the times
      recorded afterwards. */
  datatype Trace = Trace(outcomes: seq<bool>, requests: seq<int>)

  function Run(ts: seq<int>, limit: int, window: int, times: seq<int>): (t: Trace)
    ensures |t.outcomes| == |times|
    decreases |times|
  {
    if times == [] then Trace([], ts)
    else
      var a := Admit(ts, limit, window, times[0]);
      var rest := Run(a.requests, limit, window, times[1..]);
      Trace([a.admitted] + rest.outcomes, rest.requests)
  }

  /** Non-decreasing request times keep the recorded times sorted over any
      number of calls, refused ones included. */
  lemma {:induction false} RunKeepsOrder(ts: seq<int>, limit: int, window: int, times: seq<int>)
    requires Sorted(ts) && Sorted(times)
    requires |times| > 0 ==> AtMost(ts, times[0])
    ensures Sorted(Run(ts, limit, window, times).requests)
    decreases |times|
  {
    if times != [] {
      AdmitKeepsOrder(ts, limit, window, times[0]);
      var a := Admit(ts, limit, window, times[0]);
      var rest := times[1..];
      assert Sorted(rest) by {
        forall i, j | 0 <= i < j < |rest| ensures rest[i] <= rest[j] {
          assert rest[i] == times[i + 1] && rest[j] == times[j + 1];
        }
      }
      if |times| > 1 {
        assert times[0] <= times[1];
      }
      RunKeepsOrder(a.requests, limit, window, times[1..]);
    }
  }

  /** `n` copies of the time `t`. */
  function Repeat(t: int, n: nat): (r: seq<int>)
    ensures |r| == n && forall i :: 0 <= i < n ==> r[i] == t
  {
    seq(n, _ => t)
  }

  /** `k` requests at the frozen time `now` already recorded, `n` more at
      `now`: the i-th new one succeeds exactly when `k + i <= limit`. */
  lemma {:induction false} FrozenClockFrom(limit: nat, window: int, now: int, k: nat, n: nat)
    requires window > 0 && k <= limit + 1
    ensures Run(Repeat(now, k), limit, window, Repeat(now, n)).outcomes == seq(n, i => k + i <= limit)
    decreases n
  {
    var ts := Repeat(now, k);
    var times := Repeat(now, n);
    if n > 0 {
      PruneKeepsAllNewer(ts, now - window);
      var a := Admit(ts, limit, window, now);
      var k' := if k <= limit then k + 1 else k;
      assert a.requests == Repeat(now, k');
      assert times[1..] == Repeat(now, n - 1);
      FrozenClockFrom(limit, window, now, k', n - 1);
      var rest := Run(a.requests, limit, window, times[1..]);
      assert Run(ts, limit, window, times).outcomes == [a.admitted] + rest.outcomes;
      var want := seq(n, i => k + i <= limit);
      assert forall i :: 1 <= i < n ==> want[i] == rest.outcomes[i - 1];
    }
  }

  /** With a frozen clock, `limit + 1` requests get through and the next one
      is refused: the test is "more than `limit`", not "`limit` reached". */
  lemma FrozenClockBurst(limit: nat, window: int, now: int)
    requires window > 0
    ensures Run([], limit, window, Repeat(now, limit + 2)).outcomes == seq(limit + 1, _ => true) + [false]
  {
    FrozenClockFrom(limit, window, now, 0, limit + 2);
    assert Repeat(now, 0) == [];
  }

  class RateLimiter {
    var limit: int
    var window: int
    var requests: seq<int>

    /** The bound every call keeps on the recorded times. */
    predicate Valid()
      reads this
    {
      |requests| <= Capacity(limit)
    }

    /** `new RateLimiter(limit = 5, window = 1000)`. */
    constructor (limit: int := 5, window: int := 1000)
      ensures this.limit == limit && this.window == window && requests == []
      ensures Valid()
    {
      this.limit := limit;
      this.window := window;
      requests := [];
    }

    /** `mkRequest()` called at time `now`: prune, refuse when more than
        `limit` remain (keeping the pruned list), otherwise record `now`. */
    method MkRequest(now: int) returns (r: Outcome<Thrown>)
      modifies this`requests
      ensures var a := Admit(old(requests), limit, window, now);
        && requests == a.requests
        && r == if a.admitted then Pass else Fail(Raised(Error, RateLimitExceeded(limit, window)))
      ensures old(Valid()) ==> Valid()
    {
      var windowStart := now - window;
      requests := Prune(requests, windowStart);
      if |requests| > limit {
        return Fail(Raised(Error, RateLimitExceeded(limit, window)));
      }
      requests := requests + [now];
      r := Pass;
    }
  }
}
