/**
 * `UserStore`: the player cache. The store itself is the profile map (it
 * extends `Collection`); battles and chests have maps of their own. Each
 * getter changes only its own map.
 */
module UserStores {
  import opened Values
  import opened Collections
  import opened Stores

  class UserStore {
    /** The store's own entries: `Player` structures by normalised tag. */
    var profiles: Cache
    /** `PlayerBattles` structures by normalised tag. */
    var battles: Cache
    /** `PlayerChests` structures by normalised tag. */
    var chests: Cache

    constructor ()
      ensures profiles == Empty() && battles == Empty() && chests == Empty()
    {
      profiles := Empty();
      battles := Empty();
      chests := Empty();
    }

    /** `getProfile(tag, options)`; `fetch` is what `getUserProfile` yields. */
    method GetProfile(tag: Js, now: int, fetch: Fetch) returns (r: Result<Cached, Thrown>, request: Option<string>)
      modifies this`profiles
      ensures var s := Serve(old(profiles), tag, now, fetch, AsStructure(Player));
        profiles == s.cache && r == s.result && request == s.request
    {
      profiles, r, request := CacheOrFetch(profiles, tag, now, fetch, AsStructure(Player));
    }

    /** `getBattles(tag)`; `fetch` is what `getUserBattles` yields. */
    method GetBattles(tag: Js, now: int, fetch: Fetch) returns (r: Result<Cached, Thrown>, request: Option<string>)
      modifies this`battles
      ensures var s := Serve(old(battles), tag, now, fetch, AsStructure(PlayerBattles));
        battles == s.cache && r == s.result && request == s.request
    {
      battles, r, request := CacheOrFetch(battles, tag, now, fetch, AsStructure(PlayerBattles));
    }

    /** `getChests(tag)`; `fetch` is what `getUserChests` yields. */
    method GetChests(tag: Js, now: int, fetch: Fetch) returns (r: Result<Cached, Thrown>, request: Option<string>)
      modifies this`chests
      ensures var s := Serve(old(chests), tag, now, fetch, AsStructure(PlayerChests));
        chests == s.cache && r == s.result && request == s.request
    {
      chests, r, request := CacheOrFetch(chests, tag, now, fetch, AsStructure(PlayerChests));
    }

    /** `getTopUsers(tag)`: it calls `Util.verifiedTag`, which does not
        exist, so it always throws before any request. */
    method GetTopUsers(tag: Js) returns (r: Result<seq<Cached>, Thrown>)
      ensures r == Failure(Raised(TypeError, NotAFunction))
    {
      r := Failure(Raised(TypeError, NotAFunction));
    }

    /** `getPopularUsers()`: the argument `tag` it passes is not declared,
        and reading it throws before the missing `Util.verifiedTag` is
        even called. */
    method GetPopularUsers() returns (r: Result<seq<Cached>, Thrown>)
      ensures r == Failure(Raised(ReferenceError, UndeclaredName))
    {
      r := Failure(Raised(ReferenceError, UndeclaredName));
    }
  }
}
