/**
 * What both API clients share: the endpoint paths their builder methods
 * produce, the base URL, the request options (`keys` and `exclude`) and the
 * way `_get` checks and rewrites them, and the shape of a response.
 */
module Requests {
  import opened Strings
  import opened Values
  import opened Tags

  const BaseUrl: string := "http://api.royaleapi.com/"

  /** The builder methods of the API clients, with their arguments. The last
      two exist only in the `src` client. */
  datatype Endpoint =
    | UserProfile(tag: string)
    | UserBattles(tag: string)
    | UserChests(tag: string)
    | TopUsers(loc: string)
    | PopularUsers
    | ClanData(tag: string)
    | ClanBattles(tag: string)
    | ClanWar(tag: string)
    | ClanWarLog(tag: string)
    | ClanHistory(tag: string)
    | ClanWeeklyHistory(tag: string)
    | ClanTracking(tag: string)
    | TopClans(loc: string)
    | PopularClans
    | OpenTournaments
    | KnownTournaments
    | TournamentInfo(tag: string)
    | PopularTournament
    | PopularDecks
    | KeyStats
    | EndpointList

  /** The path each builder passes to `_get`, built as its template literal builds it. */
  function Path(e: Endpoint): string
  {
    match e
    case UserProfile(t) => "player/" + t
    case UserBattles(t) => "player/" + t + "/battles"
    case UserChests(t) => "player/" + t + "/chests"
    case TopUsers(loc) => "top/players/" + loc
    case PopularUsers => "popular/players"
    case ClanData(t) => "clan/" + t
    case ClanBattles(t) => "clan/" + t + "/battles"
    case ClanWar(t) => "clan/" + t + "/war"
    case ClanWarLog(t) => "clan/" + t + "/warlog"
    case ClanHistory(t) => "clan/" + t + "/history"
    case ClanWeeklyHistory(t) => "clan/" + t + "/history/weekly"
    case ClanTracking(t) => "clan/" + t + "/tracking"
    case TopClans(loc) => "top/clans/" + loc
    case PopularClans => "popular/clans"
    case OpenTournaments => "tournaments/open"
    case KnownTournaments => "tournaments/known"
    case TournamentInfo(t) => "tournaments/" + t
    case PopularTournament => "popular/tournaments"
    case PopularDecks => "popular/decks"
    case KeyStats => "auth/stats"
    case EndpointList => "endpoints"
  }

  /** The `/`-separated segments of a path. */
  function Segments(e: Endpoint): (r: seq<string>)
    ensures |r| >= 1
  {
    match e
    case UserProfile(t) => ["player", t]
    case UserBattles(t) => ["player", t, "battles"]
    case UserChests(t) => ["player", t, "chests"]
    case TopUsers(loc) => ["top", "players", loc]
    case PopularUsers => ["popular", "players"]
    case ClanData(t) => ["clan", t]
    case ClanBattles(t) => ["clan", t, "battles"]
    case ClanWar(t) => ["clan", t, "war"]
    case ClanWarLog(t) => ["clan", t, "warlog"]
    case ClanHistory(t) => ["clan", t, "history"]
    case ClanWeeklyHistory(t) => ["clan", t, "history", "weekly"]
    case ClanTracking(t) => ["clan", t, "tracking"]
    case TopClans(loc) => ["top", "clans", loc]
    case PopularClans => ["popular", "clans"]
    case OpenTournaments => ["tournaments", "open"]
    case KnownTournaments => ["tournaments", "known"]
    case TournamentInfo(t) => ["tournaments", t]
    case PopularTournament => ["popular", "tournaments"]
    case PopularDecks => ["popular", "decks"]
    case KeyStats => ["auth", "stats"]
    case EndpointList => ["endpoints"]
  }

  /** The endpoint a list of segments names, if any. */
  function FromSegments(s: seq<string>): Option<Endpoint>
  {
    if |s| == 1 then
      if s[0] == "endpoints" then Some(EndpointList) else None
    else if |s| == 2 then
      if s[0] == "player" then Some(UserProfile(s[1]))
      else if s[0] == "clan" then Some(ClanData(s[1]))
      else if s[0] == "tournaments" then
        if s[1] == "open" then Some(OpenTournaments)
        else if s[1] == "known" then Some(KnownTournaments)
        else Some(TournamentInfo(s[1]))
      else if s[0] == "popular" then
        if s[1] == "players" then Some(PopularUsers)
        else if s[1] == "clans" then Some(PopularClans)
        else if s[1] == "tournaments" then Some(PopularTournament)
        else if s[1] == "decks" then Some(PopularDecks)
        else None
      else if s[0] == "auth" && s[1] == "stats" then Some(KeyStats)
      else None
    else if |s| == 3 then
      if s[0] == "player" then
        if s[2] == "battles" then Some(UserBattles(s[1]))
        else if s[2] == "chests" then Some(UserChests(s[1]))
        else None
      else if s[0] == "top" then
        if s[1] == "players" then Some(TopUsers(s[2]))
        else if s[1] == "clans" then Some(TopClans(s[2]))
        else None
      else if s[0] == "clan" then
        if s[2] == "battles" then Some(ClanBattles(s[1]))
        else if s[2] == "war" then Some(ClanWar(s[1]))
        else if s[2] == "warlog" then Some(ClanWarLog(s[1]))
        else if s[2] == "history" then Some(ClanHistory(s[1]))
        else if s[2] == "tracking" then Some(ClanTracking(s[1]))
        else None
      else None
    else if |s| == 4 && s[0] == "clan" && s[2] == "history" && s[3] == "weekly" then
      Some(ClanWeeklyHistory(s[1]))
    else None
  }

  /** The endpoint a path names, reading it back segment by segment. */
  function Parse(p: string): Option<Endpoint>
  {
    FromSegments(Split(p, '/'))
  }

  /** The argument of an endpoint, if it has one. */
  function Argument(e: Endpoint): Option<string>
  {
    match e
    case UserProfile(t) => Some(t)
    case UserBattles(t) => Some(t)
    case UserChests(t) => Some(t)
    case TopUsers(loc) => Some(loc)
    case ClanData(t) => Some(t)
    case ClanBattles(t) => Some(t)
    case ClanWar(t) => Some(t)
    case ClanWarLog(t) => Some(t)
    case ClanHistory(t) => Some(t)
    case ClanWeeklyHistory(t) => Some(t)
    case ClanTracking(t) => Some(t)
    case TopClans(loc) => Some(loc)
    case TournamentInfo(t) => Some(t)
    case _ => None
  }

  /** The argument cannot be mistaken for path structure: it has no `/`, and
      a tournament tag is neither `open` nor `known`. */
  predicate Unambiguous(e: Endpoint)
  {
    && (Argument(e).Some? ==> '/' !in Argument(e).value)
    && (e.TournamentInfo? ==> e.tag != "open" && e.tag != "known")
  }

  lemma JoinTwo(a: string, b: string, sep: string)
    ensures JoinText([a, b], sep) == a + sep + b
  {
    assert [a, b][1..] == [b];
  }

  lemma JoinThree(a: string, b: string, c: string, sep: string)
    ensures JoinText([a, b, c], sep) == a + sep + b + sep + c
  {
    assert [a, b, c][1..] == [b, c];
    JoinTwo(b, c, sep);
  }

  lemma JoinFour(a: string, b: string, c: string, d: string, sep: string)
    ensures JoinText([a, b, c, d], sep) == a + sep + b + sep + c + sep + d
  {
    assert [a, b, c, d][1..] == [b, c, d];
    JoinThree(b, c, d, sep);
  }

  lemma PlayerPaths(t: string)
    ensures Path(UserProfile(t)) == JoinText(Segments(UserProfile(t)), "/")
    ensures Path(UserBattles(t)) == JoinText(Segments(UserBattles(t)), "/")
    ensures Path(UserChests(t)) == JoinText(Segments(UserChests(t)), "/")
  {
    JoinTwo("player", t, "/");
    JoinThree("player", t, "battles", "/");
    JoinThree("player", t, "chests", "/");
  }

  lemma ClanPaths(t: string)
    ensures Path(ClanData(t)) == JoinText(Segments(ClanData(t)), "/")
    ensures Path(ClanBattles(t)) == JoinText(Segments(ClanBattles(t)), "/")
    ensures Path(ClanWar(t)) == JoinText(Segments(ClanWar(t)), "/")
    ensures Path(ClanWarLog(t)) == JoinText(Segments(ClanWarLog(t)), "/")
  {
    JoinTwo("clan", t, "/");
    JoinThree("clan", t, "battles", "/");
    JoinThree("clan", t, "war", "/");
    JoinThree("clan", t, "warlog", "/");
  }

  lemma ClanHistoryPath(t: string)
    ensures Path(ClanHistory(t)) == JoinText(Segments(ClanHistory(t)), "/")
  {
    JoinThree("clan", t, "history", "/");
  }

  lemma ClanWeeklyHistoryPath(t: string)
    ensures Path(ClanWeeklyHistory(t)) == JoinText(Segments(ClanWeeklyHistory(t)), "/")
  {
    JoinFour("clan", t, "history", "weekly", "/");
  }

  lemma ClanTrackingPath(t: string)
    ensures Path(ClanTracking(t)) == JoinText(Segments(ClanTracking(t)), "/")
  {
    JoinThree("clan", t, "tracking", "/");
  }

  lemma ListingPaths(loc: string)
    ensures Path(TopUsers(loc)) == JoinText(Segments(TopUsers(loc)), "/")
    ensures Path(TopClans(loc)) == JoinText(Segments(TopClans(loc)), "/")
    ensures Path(TournamentInfo(loc)) == JoinText(Segments(TournamentInfo(loc)), "/")
  {
    JoinThree("top", "players", loc, "/");
    JoinThree("top", "clans", loc, "/");
    JoinTwo("tournaments", loc, "/");
  }

  lemma FixedPaths()
    ensures Path(PopularUsers) == JoinText(Segments(PopularUsers), "/")
    ensures Path(PopularClans) == JoinText(Segments(PopularClans), "/")
    ensures Path(OpenTournaments) == JoinText(Segments(OpenTournaments), "/")
    ensures Path(KnownTournaments) == JoinText(Segments(KnownTournaments), "/")
    ensures Path(PopularTournament) == JoinText(Segments(PopularTournament), "/")
    ensures Path(PopularDecks) == JoinText(Segments(PopularDecks), "/")
    ensures Path(KeyStats) == JoinText(Segments(KeyStats), "/")
    ensures Path(EndpointList) == JoinText(Segments(EndpointList), "/")
  {
    JoinTwo("popular", "players", "/");
    JoinTwo("popular", "clans", "/");
    JoinTwo("tournaments", "open", "/");
    JoinTwo("tournaments", "known", "/");
    JoinTwo("popular", "tournaments", "/");
    JoinTwo("popular", "decks", "/");
    JoinTwo("auth", "stats", "/");
  }

  /** Each template literal is the segments joined with `/`. */
  lemma PathIsJoinedSegments(e: Endpoint)
    ensures Path(e) == JoinText(Segments(e), "/")
  {
    match e
    case UserProfile(t) => PlayerPaths(t);
    case UserBattles(t) => PlayerPaths(t);
    case UserChests(t) => PlayerPaths(t);
    case ClanData(t) => ClanPaths(t);
    case ClanBattles(t) => ClanPaths(t);
    case ClanWar(t) => ClanPaths(t);
    case ClanWarLog(t) => ClanPaths(t);
    case ClanHistory(t) => ClanHistoryPath(t);
    case ClanWeeklyHistory(t) => ClanWeeklyHistoryPath(t);
    case ClanTracking(t) => ClanTrackingPath(t);
    case TopUsers(loc) => ListingPaths(loc);
    case TopClans(loc) => ListingPaths(loc);
    case TournamentInfo(t) => ListingPaths(t);
    case _ => FixedPaths();
  }

  lemma SegmentsWithoutSlash(e: Endpoint)
    requires Unambiguous(e)
    ensures forall i :: 0 <= i < |Segments(e)| ==> '/' !in Segments(e)[i]
  {
  }

  /** The segment list of an unambiguous endpoint reads back as that endpoint. */
  lemma SegmentsRoundTrip(e: Endpoint)
    requires Unambiguous(e)
    ensures FromSegments(Segments(e)) == Some(e)
  {
  }

  /** Reading a built path back gives the endpoint it was built for. */
  lemma ParsePath(e: Endpoint)
    requires Unambiguous(e)
    ensures Parse(Path(e)) == Some(e)
  {
    PathIsJoinedSegments(e);
    SegmentsWithoutSlash(e);
    SplitJoinChar(Segments(e), '/');
    assert "/" == ['/'];
    SegmentsRoundTrip(e);
  }

  /** Hence distinct endpoints whose arguments contain no `/`, and whose
      tournament tag is neither `open` nor `known`, never request the same
      URL. Every verified tag meets this condition (`VerifiedTagUnambiguous`). */
  lemma PathInjective(e1: Endpoint, e2: Endpoint)
    requires Unambiguous(e1) && Unambiguous(e2)
    requires BaseUrl + Path(e1) == BaseUrl + Path(e2)
    ensures e1 == e2
  {
    assert Path(e1) == (BaseUrl + Path(e1))[|BaseUrl|..];
    assert Path(e2) == (BaseUrl + Path(e2))[|BaseUrl|..];
    ParsePath(e1);
    ParsePath(e2);
  }

  /** Without the condition, builders collide: the tournament tag `open`
      requests the open-tournament list, and a clan tag ending in `/war`
      requests another clan's war. */
  lemma PathCollisions()
    ensures Path(TournamentInfo("open")) == Path(OpenTournaments)
    ensures Path(TournamentInfo("known")) == Path(KnownTournaments)
    ensures Path(ClanData("X/war")) == Path(ClanWar("X"))
    ensures !Unambiguous(TournamentInfo("open")) && !Unambiguous(ClanData("X/war"))
  {
    assert '/' in "X/war" by { assert "X/war"[1] == '/'; }
  }

  /** No string of tag characters contains `/` or spells `open` or `known`. */
  lemma TagCharsNotPathWords(t: string)
    requires AllTagChars(t)
    ensures '/' !in t && t != "open" && t != "known"
  {
    assert forall i :: 0 <= i < |t| ==> t[i] != '/' && t[i] != 'o' && t[i] != 'k';
    assert "open"[0] == 'o' && "known"[0] == 'k';
  }

  /** A tag that passed `verifyTag` is always unambiguous in a path. */
  lemma VerifiedTagUnambiguous(e: Endpoint, tag: Js)
    requires VerifyTag(tag).Success? && Argument(e) == Some(VerifyTag(tag).value)
    ensures Unambiguous(e)
  {
    TagCharsNotPathWords(VerifyTag(tag).value);
  }

  // ---------------------------------------------------------------------------
  // Request options.

  /** The options object of a call, which `_get` rewrites in place. */
  class Options {
    var keys: Js
    var exclude: Js

    constructor (keys: Js, exclude: Js)
      ensures this.keys == keys && this.exclude == exclude
    {
      this.keys := keys;
      this.exclude := exclude;
    }
  }

  /** The checks `_get` makes on `options.keys` and `options.exclude`, and the
      values it writes back: both given is an error; a given list must be an
      array, and is replaced by its elements joined with `", "` (keys) or
      `","` (exclude). */
  function ShapeOptions(keys: Js, exclude: Js): (r: Result<(Js, Js), Reason>)
    ensures Truthy(keys) && Truthy(exclude) ==> r == Failure(KeysWithExclude)
    ensures Truthy(keys) && !Truthy(exclude) ==>
      r == if keys.Arr? then Success((Str(Join(keys.items, ", ")), exclude)) else Failure(KeysNotArray)
    ensures !Truthy(keys) && Truthy(exclude) ==>
      r == if exclude.Arr? then Success((keys, Str(Join(exclude.items, ",")))) else Failure(ExcludeNotArray)
    ensures !Truthy(keys) && !Truthy(exclude) ==> r == Success((keys, exclude))
  {
    if Truthy(keys) && Truthy(exclude) then Failure(KeysWithExclude)
    else
      var k := if Truthy(keys) then (if keys.Arr? then Success(Str(Join(keys.items, ", "))) else Failure(KeysNotArray)) else Success(keys);
      if k.Failure? then Failure(k.error)
      else
        var x := if Truthy(exclude) then (if exclude.Arr? then Success(Str(Join(exclude.items, ","))) else Failure(ExcludeNotArray)) else Success(exclude);
        if x.Failure? then Failure(x.error)
        else Success((k.value, x.value))
  }

  /** Reusing an options object whose list was rewritten to a non-empty
      string fails on the second call: the list is no longer an array. */
  lemma ReusedOptionsRejected(keys: Js, exclude: Js)
    requires ShapeOptions(keys, exclude).Success?
    requires var (k, x) := ShapeOptions(keys, exclude).value; Truthy(k) || Truthy(x)
    ensures var (k, x) := ShapeOptions(keys, exclude).value;
      ShapeOptions(k, x).Failure? && ShapeOptions(k, x).error in {KeysNotArray, ExcludeNotArray}
  {
  }

  /** Excluded keys can be recovered from the query value by splitting at
      `,`, provided no key holds a comma. */
  lemma {:induction false} ExcludeRoundTrip(names: seq<string>)
    requires |names| >= 1 && forall i :: 0 <= i < |names| ==> ',' !in names[i]
    ensures var x := seq(|names|, i requires 0 <= i < |names| => Str(names[i]));
      ShapeOptions(Undefined, Arr(x)) == Success((Undefined, Str(JoinText(names, ","))))
      && Split(JoinText(names, ","), ',') == names
  {
    var x := seq(|names|, i requires 0 <= i < |names| => Str(names[i]));
    assert ElementTexts(x) == names;
    SplitJoinChar(names, ',');
    assert "," == [','];
  }

  /** Requested keys come back from the query value by splitting at `,`:
      every key after the first then carries the space of the `", "`
      separator in front of it. */
  lemma {:induction false} KeysRoundTrip(names: seq<string>)
    requires |names| >= 1 && forall i :: 0 <= i < |names| ==> ',' !in names[i]
    ensures var k := seq(|names|, i requires 0 <= i < |names| => Str(names[i]));
      ShapeOptions(Arr(k), Undefined) == Success((Str(JoinText(names, ", ")), Undefined))
      && Split(JoinText(names, ", "), ',') == Continued(names, " ")
  {
    var k := seq(|names|, i requires 0 <= i < |names| => Str(names[i]));
    assert ElementTexts(k) == names;
    SplitJoin(names, ',', " ");
    assert ", " == [','] + " ";
  }

  /** What `_get` sends: the full URL and the query options. */
  datatype Request = Request(url: string, keys: Js, exclude: Js)

  /** How the HTTP layer answers a request: a response with its body and
      the parsed `x-ratelimit-remaining` and `x-ratelimit-reset` headers, or
      a rejection with an error value. */
  datatype Response = Delivered(body: Js, remaining: Js, reset: Js) | Rejected(error: Js)
}
