/**
 * The read-through caches of the `lib` client's stores. Every cached getter
 * verifies the tag, returns the entry under the normalised tag when it is
 * truthy and the clock is still below its `_cacheTime`, and otherwise asks
 * the API, stores what comes back under the normalised tag (wrapped in a
 * structure or as the raw payload) and returns the stored value.
 */
module Stores {
  import opened Strings
  import opened Values
  import opened Tags
  import opened Collections

  /** How long a freshly built structure stays valid, in milliseconds. */
  const Lifetime: int := 300000

  /** The structure classes the stores build from API payloads. */
  datatype Kind = Player | PlayerBattles | PlayerChests | Clan

  /** A cache entry: a structure built at some time (its `_cacheTime` is set
      by the structure's base constructor), or an API payload stored as is. */
  datatype Cached =
    | Structure(kind: Kind, raw: Js, cacheTime: int)
    | Payload(raw: Js)

  type Cache = Collection<string, Cached>

  /** `existing._cacheTime`. A payload has one only if the API sent it. */
  function Expiry(e: Cached): Js
  {
    match e
    case Structure(_, _, t) => Num(t)
    case Payload(raw) => Field(raw, "_cacheTime")
  }

  /** `existing && Date.now() < existing._cacheTime`. A structure is an
      object, hence truthy; a payload is as truthy as the payload itself. */
  predicate IsFresh(e: Cached, now: int)
    ensures e.Structure? ==> (IsFresh(e, now) <==> now < e.cacheTime)
    ensures e.Payload? && !Truthy(e.raw) ==> !IsFresh(e, now)
    ensures e.Payload? && ToNumber(Field(e.raw, "_cacheTime")).None? ==> !IsFresh(e, now)
  {
    (e.Structure? || Truthy(e.raw)) && Below(now, Expiry(e))
  }

  /** Whether a fresh entry is held for `key` at time `now`. */
  predicate HasFresh(c: Cache, key: string, now: int)
  {
    key in c.entries && IsFresh(c.entries[key], now)
  }

  /** What the awaited API call produced: the response body together with
      the clock reading when the code after the `await` runs, or the error
      the call rejected with. */
  datatype Fetch = Fetched(body: Js, at: int) | FetchFailed(error: Thrown)

  /** How a getter stores a payload: inside a new structure, or as it came. */
  datatype Wrapping = AsStructure(kind: Kind) | AsPayload

  /** Whether the constructor of a structure reads properties of its body.
      `PlayerBattles` only keeps the body as its `battles`. */
  predicate ReadsBody(k: Kind)
  {
    k != PlayerBattles
  }

  /** `new Structure(body)` at time `at`, or the payload itself. A constructor
      that reads properties of `body` throws a `TypeError` when the body is
      `undefined` or `null`. */
  function Wrap(w: Wrapping, body: Js, at: int): (r: Result<Cached, Thrown>)
    ensures w.AsPayload? ==> r == Success(Payload(body))
    ensures w.AsStructure? && (!Nullish(body) || !ReadsBody(w.kind)) ==>
      r == Success(Structure(w.kind, body, at + Lifetime))
    ensures w.AsStructure? && Nullish(body) && ReadsBody(w.kind) ==> r == Failure(Raised(TypeError, PropertyOfNullish))
  {
    match w
    case AsPayload => Success(Payload(body))
    case AsStructure(k) =>
      if Nullish(body) && ReadsBody(k) then Failure(Raised(TypeError, PropertyOfNullish))
      else Success(Structure(k, body, at + Lifetime))
  }

  /** A battle log is built from any body, `undefined` and `null` included. */
  lemma BattlesAlwaysBuilt(body: Js, at: int)
    ensures Wrap(AsStructure(PlayerBattles), body, at) == Success(Structure(PlayerBattles, body, at + Lifetime))
    ensures Nullish(body) ==> Wrap(AsStructure(Player), body, at).Failure?
  {
  }

  /** The cache afterwards, what the getter resolves or rejects with, and
      the tag the API was asked about, if it was asked. */
  datatype Served = Served(cache: Cache, result: Result<Cached, Thrown>, request: Option<string>)

  /** One call of a cached getter on cache `c` at time `now`. */
  function Serve(c: Cache, tag: Js, now: int, fetch: Fetch, w: Wrapping): (s: Served)
    // the API is asked exactly when the tag is valid and no fresh entry is held
    ensures s.request.Some? <==> VerifyTag(tag).Success? && !HasFresh(c, VerifyTag(tag).value, now)
    ensures s.request.Some? ==> s.request.value == VerifyTag(tag).value
    // an invalid tag is reported as verifyTag reports it, with nothing changed
    ensures VerifyTag(tag).Failure? ==> s.cache == c && s.result == Failure(VerifyTag(tag).error)
    // a fresh entry is returned as is
    ensures VerifyTag(tag).Success? && HasFresh(c, VerifyTag(tag).value, now) ==>
      s.cache == c && s.result == Success(c.entries[VerifyTag(tag).value])
    // the result is stored under the normalised tag exactly when the API was
    // asked and the getter succeeds; otherwise nothing changes
    ensures s.request.Some? && s.result.Success? ==> s.cache == Set(c, s.request.value, s.result.value)
    ensures s.request.None? || s.result.Failure? ==> s.cache == c
    ensures s.request.Some? && fetch.FetchFailed? ==> s.result == Failure(fetch.error) && s.cache == c
    ensures s.request.Some? && fetch.Fetched? ==> s.result == Wrap(w, fetch.body, fetch.at)
  {
    match VerifyTag(tag)
    case Failure(e) => Served(c, Failure(e), None)
    case Success(key) =>
      if HasFresh(c, key, now) then Served(c, Success(c.entries[key]), None)
      else
        match fetch
        case FetchFailed(e) => Served(c, Failure(e), Some(key))
        case Fetched(body, at) =>
          match Wrap(w, body, at)
          case Failure(e) => Served(c, Failure(e), Some(key))
          case Success(entry) => Served(Set(c, key, entry), Success(entry), Some(key))
  }

  /** The steps of a cached getter: verify, look up, test freshness, fetch,
      wrap, store, and read back what was stored. */
  method CacheOrFetch(c: Cache, tag: Js, now: int, fetch: Fetch, w: Wrapping)
    returns (c': Cache, r: Result<Cached, Thrown>, request: Option<string>)
    ensures Served(c', r, request) == Serve(c, tag, now, fetch, w)
  {
    c' := c;
    request := None;
    var verified := CheckTag(tag);
    if verified.Failure? {
      return c', Failure(verified.error), None;
    }
    var key := verified.value;
    var existing := Get(c, key);
    if existing.Some? && IsFresh(existing.value, now) {
      return c', Success(existing.value), None;
    }
    request := Some(key);
    if fetch.FetchFailed? {
      return c', Failure(fetch.error), request;
    }
    var built := Wrap(w, fetch.body, fetch.at);
    if built.Failure? {
      return c', Failure(built.error), request;
    }
    c' := Set(c, key, built.value);
    var stored := Get(c', key);
    r := Success(stored.value);
  }

  /** After a miss that stored a new structure at time `at`, a second call
      with the same tag before `at + 300000` is served from the cache without
      asking the API, whatever the API would have answered. */
  lemma RepeatWithinLifetimeHits(c: Cache, tag: Js, now: int, body: Js, at: int, k: Kind, now2: int, fetch2: Fetch)
    requires var s := Serve(c, tag, now, Fetched(body, at), AsStructure(k)); s.request.Some? && s.result.Success?
    requires now2 < at + Lifetime
    ensures var s := Serve(c, tag, now, Fetched(body, at), AsStructure(k));
      Serve(s.cache, tag, now2, fetch2, AsStructure(k)) == Served(s.cache, s.result, None)
  {
  }

  /** Once `300000` ms have passed since a structure was built, the next call
      asks the API again. */
  lemma ExpiredStructureRefetched(c: Cache, tag: Js, now: int, body: Js, at: int, k: Kind, now2: int, fetch2: Fetch)
    requires var s := Serve(c, tag, now, Fetched(body, at), AsStructure(k)); s.request.Some? && s.result.Success?
    requires now2 >= at + Lifetime
    ensures var s := Serve(c, tag, now, Fetched(body, at), AsStructure(k));
      Serve(s.cache, tag, now2, fetch2, AsStructure(k)).request == s.request
  {
  }

  /** A stored payload without a numeric `_cacheTime` (an array of members or
      battles, a war object the API sent without one) is never fresh, so the
      payload getters ask the API on every call: they cache without ever
      hitting. */
  lemma PayloadWithoutExpiryNeverHits(c: Cache, tag: Js, now: int, body: Js, at: int, now2: int, fetch2: Fetch)
    requires Serve(c, tag, now, Fetched(body, at), AsPayload).request.Some?
    requires ToNumber(Field(body, "_cacheTime")).None?
    ensures var s := Serve(c, tag, now, Fetched(body, at), AsPayload);
      Serve(s.cache, tag, now2, fetch2, AsPayload).request == s.request
  {
  }

  /** A payload whose `_cacheTime` is the decimal text of `n` is fresh until
      `n`: the comparison converts the text to a number. */
  lemma TextExpiryHits(n: int, now: int)
    ensures IsFresh(Payload(Obj(map["_cacheTime" := Str(DecimalText(n))])), now) <==> now < n
  {
    BelowNumericText(now, n);
  }

  /** A failed refetch of a stale entry leaves the stale entry in place:
      entries are never removed. */
  lemma FailedRefetchKeepsStale(c: Cache, tag: Js, now: int, e: Thrown, w: Wrapping)
    requires VerifyTag(tag).Success? && VerifyTag(tag).value in c.entries
    requires !IsFresh(c.entries[VerifyTag(tag).value], now)
    ensures var s := Serve(c, tag, now, FetchFailed(e), w);
      s.result == Failure(e) && s.cache == c && s.request == Some(VerifyTag(tag).value)
  {
  }

  /** Serving one tag never changes the entry of another normalised tag. */
  lemma OtherKeysUntouched(c: Cache, tag: Js, now: int, fetch: Fetch, w: Wrapping, other: string)
    requires VerifyTag(tag).Failure? || VerifyTag(tag).value != other
    ensures Get(Serve(c, tag, now, fetch, w).cache, other) == Get(c, other)
  {
  }

  /** A getter never forgets a key: the keys afterwards are the keys before,
      plus the normalised tag when the API was asked. */
  lemma KeysOnlyGrow(c: Cache, tag: Js, now: int, fetch: Fetch, w: Wrapping)
    ensures var s := Serve(c, tag, now, fetch, w);
      c.entries.Keys <= s.cache.entries.Keys
      && s.cache.entries.Keys <= c.entries.Keys + (if s.request.Some? then {s.request.value} else {})
  {
  }

  /** A lower-case spelling with a leading `#` shares the entry of the
      normalised tag: `#2ppp` is served from the entry stored for `2PPP`. */
  lemma SpellingsShareEntry(c: Cache, now: int, fetch: Fetch, w: Wrapping)
    ensures Serve(c, Str("#2ppp"), now, fetch, w) == Serve(c, Str("2PPP"), now, fetch, w)
  {
    SpellingsNormalise();
    assert VerifyTag(Str("#2ppp")) == VerifyTag(Str("2PPP"));
  }

  lemma SpellingsNormalise()
    ensures Normalise("#2ppp") == "2PPP" && Normalise("2PPP") == "2PPP"
  {
    assert IndexOf(Uppercase("#2ppp"), '#') == 0;
    assert Uppercase("#2ppp") == "#2PPP";
    assert AllTagChars("2PPP");
    TagAlphabetFixed("2PPP");
  }
}
