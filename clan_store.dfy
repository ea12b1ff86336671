/**
 * `ClanStore`: the clan cache. The store itself maps tags to `Clan`
 * structures; battles, war data, war logs, history and weekly history are
 * kept as raw payloads in maps of their own. Each getter changes only its
 * own map.
 */
module ClanStores {
  import opened Values
  import opened Tags
  import opened Collections
  import opened Stores

  /** What `Api.getClanWeeklyHistory` does: it calls `this.get`, which the
      API object does not have, so every call throws before any request. */
  const WeeklyHistoryFetch: Fetch := FetchFailed(Raised(TypeError, NotAFunction))

  class ClanStore {
    /** The store's own entries: `Clan` structures by normalised tag. */
    var data: Cache
    var battles: Cache
    var war: Cache
    var warLog: Cache
    var history: Cache
    var weeklyHistory: Cache

    constructor ()
      ensures data == Empty() && battles == Empty() && war == Empty()
      ensures warLog == Empty() && history == Empty() && weeklyHistory == Empty()
    {
      data := Empty();
      battles := Empty();
      war := Empty();
      warLog := Empty();
      history := Empty();
      weeklyHistory := Empty();
    }

    /** `getData(tag, options)`; `fetch` is what `getClanData` yields. */
    method GetData(tag: Js, now: int, fetch: Fetch) returns (r: Result<Cached, Thrown>, request: Option<string>)
      modifies this`data
      ensures var s := Serve(old(data), tag, now, fetch, AsStructure(Clan));
        data == s.cache && r == s.result && request == s.request
    {
      data, r, request := CacheOrFetch(data, tag, now, fetch, AsStructure(Clan));
    }

    /** `getBattles(tag)`; `fetch` is what `getClanBattles` yields. */
    method GetBattles(tag: Js, now: int, fetch: Fetch) returns (r: Result<Cached, Thrown>, request: Option<string>)
      modifies this`battles
      ensures var s := Serve(old(battles), tag, now, fetch, AsPayload);
        battles == s.cache && r == s.result && request == s.request
    {
      battles, r, request := CacheOrFetch(battles, tag, now, fetch, AsPayload);
    }

    /** `getWarData(tag)`; `fetch` is what `getClanWar` yields. */
    method GetWarData(tag: Js, now: int, fetch: Fetch) returns (r: Result<Cached, Thrown>, request: Option<string>)
      modifies this`war
      ensures var s := Serve(old(war), tag, now, fetch, AsPayload);
        war == s.cache && r == s.result && request == s.request
    {
      war, r, request := CacheOrFetch(war, tag, now, fetch, AsPayload);
    }

    /** `getWarLogs(tag)`; `fetch` is what `getClanWarLog` yields. */
    method GetWarLogs(tag: Js, now: int, fetch: Fetch) returns (r: Result<Cached, Thrown>, request: Option<string>)
      modifies this`warLog
      ensures var s := Serve(old(warLog), tag, now, fetch, AsPayload);
        warLog == s.cache && r == s.result && request == s.request
    {
      warLog, r, request := CacheOrFetch(warLog, tag, now, fetch, AsPayload);
    }

    /** `getWarHistory(tag)`; `fetch` is what `getClanHistory` yields. */
    method GetWarHistory(tag: Js, now: int, fetch: Fetch) returns (r: Result<Cached, Thrown>, request: Option<string>)
      modifies this`history
      ensures var s := Serve(old(history), tag, now, fetch, AsPayload);
        history == s.cache && r == s.result && request == s.request
    {
      history, r, request := CacheOrFetch(history, tag, now, fetch, AsPayload);
    }

    /** `getWeeklyHistory(tag)`: the API call always throws, so the map
        never gains an entry and a valid tag always ends in a `TypeError`. */
    method GetWeeklyHistory(tag: Js, now: int) returns (r: Result<Cached, Thrown>, request: Option<string>)
      modifies this`weeklyHistory
      ensures var s := Serve(old(weeklyHistory), tag, now, WeeklyHistoryFetch, AsPayload);
        weeklyHistory == s.cache && r == s.result && request == s.request
      ensures weeklyHistory == old(weeklyHistory)
      ensures VerifyTag(tag).Success? && old(weeklyHistory) == Empty() ==> r == Failure(Raised(TypeError, NotAFunction))
    {
      weeklyHistory, r, request := CacheOrFetch(weeklyHistory, tag, now, WeeklyHistoryFetch, AsPayload);
    }

    /** `getTracking(tag)`: no cache; `fetch` is what `getClanTracking` yields. */
    method GetTracking(tag: Js, fetch: Fetch) returns (r: Result<Js, Thrown>, request: Option<string>)
      ensures request == if VerifyTag(tag).Success? then Some(VerifyTag(tag).value) else None
      ensures VerifyTag(tag).Failure? ==> r == Failure(VerifyTag(tag).error)
      ensures VerifyTag(tag).Success? ==> r == if fetch.Fetched? then Success(fetch.body) else Failure(fetch.error)
    {
      var verified := CheckTag(tag);
      if verified.Failure? {
        return Failure(verified.error), None;
      }
      request := Some(verified.value);
      r := if fetch.Fetched? then Success(fetch.body) else Failure(fetch.error);
    }

    /** `getTopClans(tag)`: it calls `Util.verifiedTag`, which does not
        exist, so it always throws before any request. */
    method GetTopClans(tag: Js) returns (r: Result<seq<Cached>, Thrown>)
      ensures r == Failure(Raised(TypeError, NotAFunction))
    {
      r := Failure(Raised(TypeError, NotAFunction));
    }

    /** `getPopularClans()`: reading the undeclared `tag` throws first. */
    method GetPopularClans() returns (r: Result<seq<Cached>, Thrown>)
      ensures r == Failure(Raised(ReferenceError, UndeclaredName))
    {
      r := Failure(Raised(ReferenceError, UndeclaredName));
    }
  }

  /** The weekly-history map after consecutive calls with the given tags
      and clock readings. */
  function WeeklyCalls(c: Cache, tags: seq<Js>, times: seq<int>): Cache
    requires |tags| == |times|
    decreases |tags|
  {
    if tags == [] then c
    else WeeklyCalls(Serve(c, tags[0], times[0], WeeklyHistoryFetch, AsPayload).cache, tags[1..], times[1..])
  }

  /** A call of the weekly-history getter never changes its map. */
  lemma WeeklyCallKeepsMap(c: Cache, tag: Js, now: int)
    ensures Serve(c, tag, now, WeeklyHistoryFetch, AsPayload).cache == c
  {
  }

  /** Starting from the empty map, the weekly-history map stays empty over
      any sequence of calls, so every call with a valid tag throws. */
  lemma {:induction false} WeeklyHistoryStaysEmpty(tags: seq<Js>, times: seq<int>)
    requires |tags| == |times|
    ensures WeeklyCalls(Empty(), tags, times) == Empty()
    ensures forall i :: 0 <= i < |tags| && VerifyTag(tags[i]).Success? ==>
      Serve(WeeklyCalls(Empty(), tags[..i], times[..i]), tags[i], times[i], WeeklyHistoryFetch, AsPayload).result
        == Failure(Raised(TypeError, NotAFunction))
    decreases |tags|
  {
    if tags != [] {
      WeeklyCallKeepsMap(Empty(), tags[0], times[0]);
      WeeklyHistoryStaysEmpty(tags[1..], times[1..]);
      forall i | 0 <= i < |tags| && VerifyTag(tags[i]).Success?
        ensures Serve(WeeklyCalls(Empty(), tags[..i], times[..i]), tags[i], times[i], WeeklyHistoryFetch, AsPayload).result
          == Failure(Raised(TypeError, NotAFunction))
      {
        WeeklyPrefix(tags, times, i);
      }
    }
  }

  lemma {:induction false} WeeklyPrefix(tags: seq<Js>, times: seq<int>, i: nat)
    requires |tags| == |times| && i <= |tags|
    ensures WeeklyCalls(Empty(), tags[..i], times[..i]) == Empty()
    decreases i
  {
    if i > 0 {
      WeeklyCallKeepsMap(Empty(), tags[0], times[0]);
      WeeklyPrefix(tags[1..], times[1..], i - 1);
      assert tags[..i][1..] == tags[1..][..i - 1];
      assert times[..i][1..] == times[1..][..i - 1];
    }
  }
}
