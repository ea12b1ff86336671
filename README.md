# croyale client core, modelled in Dafny

This project models the logic of the `croyale` JavaScript client for the
RoyaleAPI Clash Royale service, and proves properties of that model:

- the sliding-window **rate limiter** of the `lib` client (`RateLimiting`);
- the **tag normaliser and validator** `Util.verifyTag` (`Tags`);
- the insertion-ordered **`Collection`** map with `first`, `firstKey`,
  `last` and `lastKey` (`Collections`);
- the **expiring read-through caches** of `UserStore` and `ClanStore`
  (`Stores`, `UserStores`, `ClanStores`);
- the two **API clients**, `lib` and `src`: the `lib` client's limiter call
  and the `src` client's header-driven gate, the `keys`/`exclude` option checks
  that rewrite the caller's object in place, and the endpoint paths
  (`Requests`, `LibApi`, `SrcApi`);
- the `src` **clan structure**, with its truthy-guarded field copies and its
  leader selection (`SrcClans`).

JavaScript values are modelled by the `Js` datatype (`Values`). It covers
truthiness, property reads, the numeric `<` comparison used by the expiry
tests, and `Array.prototype.join`. Thrown errors are `Thrown` values,
carrying their class (`Error`, `TypeError`, `ReferenceError`) and a reason.
Some inputs are parameters:

- The clock (`Date.now()`) is the parameter `now`.
- The awaited API call a store getter makes is a `Fetch`. It holds either the
  response body together with the clock reading when the structure is built,
  or the error the call rejected with.
- The HTTP layer's answer to `_get` is a `Response`: the body and the parsed
  rate-limit headers, or a rejection.

Stateful parts are classes:

- `RateLimiter` keeps the recorded request times.
- `UserStore` and `ClanStore` keep one `Collection` per map.
- The two `Api` classes keep the rate-limit fields.
- `Options` is the caller's options object, which `_get` rewrites.

Each method is specified by a pure function: `Admit`, `Serve` and the two
`Exchanged` functions. The lemmas are stated about those functions.

## Model

| member | source | states |
|---|---|---|
| RateLimiting.Prune | lib/util/RateLimiter.js:11-12 | every survivor is newer than the window start; each newer time keeps its multiplicity, each older one is dropped |
| RateLimiting.PruneAppend | lib/util/RateLimiter.js:12 | pruning distributes over concatenation, so survivors keep their relative order |
| RateLimiting.PruneSortedIsSuffix | lib/util/RateLimiter.js:12 | on sorted times, the survivors are a suffix of the recorded list |
| RateLimiting.PruneKeepsAllNewer | lib/util/RateLimiter.js:12 | times all inside the window survive pruning unchanged |
| RateLimiting.Admit | lib/util/RateLimiter.js:9-19 | admitted exactly when at most `limit` times survive; then `now` is appended after the pruned list, otherwise the pruned list is kept without `now`; length stays within `limit + 1` |
| RateLimiting.AdmitKeepsOrder | lib/util/RateLimiter.js:12-18 | with times not after `now`, one call keeps the recorded times sorted |
| RateLimiting.RunKeepsOrder | lib/util/RateLimiter.js:12-18 | non-decreasing call times keep the recorded times sorted across any number of calls |
| RateLimiting.FrozenClockFrom | lib/util/RateLimiter.js:14-18 | with a frozen clock and `k` times recorded, the i-th further call succeeds exactly when `k + i <= limit` |
| RateLimiting.FrozenClockBurst | lib/util/RateLimiter.js:14 | with a frozen clock, `limit + 1` calls succeed and the next fails |
| RateLimiting.RateLimiter.constructor | lib/util/RateLimiter.js:3-7 | defaults `limit` 5 and `window` 1000, empty `requests` |
| RateLimiting.RateLimiter.MkRequest | lib/util/RateLimiter.js:9-19 | new `requests` and outcome are those of `Admit`; the error names `limit` and `window`; the bound `limit + 1` is preserved |
| Strings.UppercaseIdempotent | lib/util/Util.js:12 | upper-casing an upper-cased string changes nothing |
| Strings.LowercaseMatches | src/structures/clan.js:118 | a string lower-cases to a lower-case target exactly when it has the target's length and each character is the target's in either case |
| Strings.DigitsRoundTrip | lib/stores/UserStore.js:21 | the decimal text of a natural number consists of digits and reads back as that number |
| Strings.SplitJoin | lib/util/Api.js:44 | splitting a `", "`-joined list at `,` gives the elements back, each after the first with the separator's space in front |
| Strings.SplitJoinChar | lib/util/Api.js:48 | splitting a `,`-joined list at `,` gives the elements back exactly |
| Values.Truthy | lib/stores/UserStore.js:21 | false exactly for `undefined`, `null`, `NaN`, `false`, `0` and `""`; every array and object is truthy |
| Values.Field | lib/stores/UserStore.js:21 | for the property names the core reads, a property read gives the object's own value for a present key, and `undefined` for a missing key or a non-object |
| Values.ElementTexts | lib/util/Api.js:44 | one text per array element, as `join` renders it: `undefined` and `null` give `""`, a string itself, a number its decimal text, a boolean `true` or `false` |
| Values.TextNumberRoundTrip | lib/stores/UserStore.js:21 | the decimal text of any integer converts back to that integer |
| Values.BelowNumericText | lib/stores/UserStore.js:21 | the clock is below a decimal string, or a one-element array of a number, exactly when it is below the number |
| Values.BelowOtherValues | lib/stores/UserStore.js:21 | the clock is never below `undefined`, `NaN` or a plain object; `null` and `false` compare as 0 and `true` as 1 |
| Tags.IndexOf | lib/util/Util.js:12 | the position of the first occurrence of the character |
| Tags.RemoveFirst | lib/util/Util.js:12 | `replace('#', '')` shortens the text by one when the character occurs, and leaves it unchanged otherwise |
| Tags.RemoveFirstMultiset | lib/util/Util.js:12 | removing the first occurrence takes exactly one copy of the character out, when there is one |
| Tags.ReplaceAllRemoves | lib/util/Util.js:12 | after `replace(/O/g, '0')` no `O` is left, and a second pass changes nothing |
| Tags.NormalisedForm | lib/util/Util.js:12 | the rewritten tag is one character shorter exactly when the input held a `#`, and holds no `O` and no lower-case ASCII letter |
| Tags.TagAlphabetFixed | lib/util/Util.js:1-12 | a string over the tag alphabet is left unchanged by upper-casing, by removing `#` and by `O`→`0` |
| Tags.NormaliseCanonical | lib/util/Util.js:12 | normalising is removing the first `#` and then mapping each character to its upper-cased, `O`→`0` form |
| Tags.HashSurvives | lib/util/Util.js:12-15 | with two or more `#`, one survives normalisation and fails the alphabet test |
| Tags.VerifyTag | lib/util/Util.js:9-17 | falsy tag: `Error`; truthy non-string: `TypeError`; success: the normalised text, all in the alphabet; a non-empty string can fail only with the invalid-character `Error` |
| Tags.ScanTagChars | lib/util/Util.js:13-15 | the `for` loop passes exactly the strings whose characters are all in the alphabet |
| Tags.CheckTag | lib/util/Util.js:9-17 | the step-by-step checks, rewriting and scan give exactly `VerifyTag` |
| Tags.VerifyTagExactly | lib/util/Util.js:1-17 | a string passes exactly when it is non-empty, has at most one `#`, and all other characters are in the alphabet after upper-casing and `O`→`0` |
| Tags.TwoHashesRejected | lib/util/Util.js:12-15 | two `#` are rejected, since only the first is removed |
| Tags.HashAloneIsEmpty | lib/util/Util.js:10-16 | `"#"` yields the empty string without error |
| Tags.VerifyTagIdempotent | lib/util/Util.js:10-16 | feeding a result back returns it unchanged when non-empty; an empty result fails the falsy check |
| Collections.Set | lib/util/Collection.js:6 | `Map.set`: entries updated; a new key goes last, an existing key keeps its place |
| Collections.Delete | lib/util/Collection.js:6 | `Map.delete`: the key's entry is removed |
| Collections.DeleteKeepsOrder | lib/util/Collection.js:6 | `Map.delete` cuts the key out of its place in the iteration order and keeps the others in order; an absent key changes nothing |
| Collections.GetAfterSet | lib/util/Collection.js:6 | after `set(k, v)`, `get(k)` is `v` and every other key reads as before |
| Collections.FirstKey | lib/util/Collection.js:22-24 | undefined exactly when empty, otherwise a present key |
| Collections.First | lib/util/Collection.js:13-15 | the value under `firstKey`, undefined when empty |
| Collections.LastKey | lib/util/Collection.js:41-44 | undefined exactly when empty, otherwise a present key |
| Collections.Last | lib/util/Collection.js:31-34 | the value under `lastKey`, undefined when empty |
| Collections.EmptyQueries | lib/util/Collection.js:13-44 | on an empty collection all four queries give undefined |
| Collections.Size | lib/util/Collection.js:6 | the number of entries equals the length of the key order |
| Collections.SingleEntry | lib/util/Collection.js:13-44 | with one entry, `firstKey == lastKey` and `first == last` |
| Collections.SetNewKey | lib/util/Collection.js:22-44 | inserting a new key makes it `lastKey` with its value `last`, and leaves `firstKey` alone unless the collection was empty |
| Collections.SetExistingKey | lib/util/Collection.js:22-44 | overwriting a key moves neither `firstKey` nor `lastKey` |
| Collections.DeleteFirstKey | lib/util/Collection.js:22-24 | deleting the first key makes the second-inserted key first |
| Collections.SetAllOrder | lib/util/Collection.js:22-44 | inserting distinct new keys appends them in insertion order |
| Collections.SetAllValue | lib/util/Collection.js:13-34 | each of distinct inserted keys holds the value inserted with it |
| Collections.SetAllKeepsOthers | lib/util/Collection.js:6 | inserting other keys leaves an existing entry unchanged |
| Collections.InsertionOrderQueries | lib/util/Collection.js:13-44 | for distinct keys inserted into an empty collection, `firstKey`/`first` are the first pair and `lastKey`/`last` the last |
| Stores.IsFresh | lib/stores/UserStore.js:21 | a structure is fresh exactly while the clock is below its `_cacheTime`; a falsy payload, or one without a numeric `_cacheTime`, is never fresh |
| Stores.Wrap | lib/structures/Base.js:14 | a structure built at time `at` expires at `at + 300000`; a nullish body throws a `TypeError` in the constructors that read its properties, while `PlayerBattles` is built from any body; a payload is stored as is |
| Stores.BattlesAlwaysBuilt | lib/structures/PlayerBattles.js:37-46 | a battle log is built even from `undefined` or `null`, while a `Player` is not |
| Stores.Serve | lib/stores/UserStore.js:17-25 | the API is asked exactly when the tag is valid and no fresh entry exists, with the normalised tag; an invalid tag fails first, unchanged; a fresh entry is returned unchanged; the result is set under the normalised tag exactly when the API was asked and the getter succeeds, and the cache is unchanged otherwise |
| Stores.CacheOrFetch | lib/stores/UserStore.js:17-25 | the getter's steps (verify, get, freshness test, fetch, wrap, set, get) produce exactly `Serve` |
| Stores.RepeatWithinLifetimeHits | lib/stores/UserStore.js:21-24 | after a miss stores a structure built at `at`, a call before `at + 300000` is a hit with no API call |
| Stores.ExpiredStructureRefetched | lib/stores/UserStore.js:21-24 | a call at or after `at + 300000` asks the API again |
| Stores.PayloadWithoutExpiryNeverHits | lib/stores/ClanStore.js:31-69 | a stored payload without a numeric `_cacheTime` (a battle or member array, a war object sent without one) is never fresh, so the next call asks the API again |
| Stores.TextExpiryHits | lib/stores/UserStore.js:21 | a payload whose `_cacheTime` is the decimal text of `n` is fresh exactly while the clock is below `n` |
| Stores.FailedRefetchKeepsStale | lib/stores/UserStore.js:21-24 | a stale entry whose refetch fails stays in the cache; the error is returned |
| Stores.OtherKeysUntouched | lib/stores/UserStore.js:24 | a call never changes the entry of another normalised tag |
| Stores.KeysOnlyGrow | lib/stores/UserStore.js:24 | no key is removed; at most the requested tag is added |
| Stores.SpellingsShareEntry | lib/util/Util.js:12 | `#2ppp` and `2PPP` are served from the same entry |
| UserStores.UserStore.constructor | lib/stores/UserStore.js:9-15 | the profile, battles and chests maps start empty |
| UserStores.UserStore.GetProfile | lib/stores/UserStore.js:17-25 | `Serve` with `Player` structures, changing only the store's own map |
| UserStores.UserStore.GetBattles | lib/stores/UserStore.js:27-35 | `Serve` with `PlayerBattles` structures, changing only `battles` |
| UserStores.UserStore.GetChests | lib/stores/UserStore.js:37-45 | `Serve` with `PlayerChests` structures, changing only `chests` |
| UserStores.UserStore.GetTopUsers | lib/stores/UserStore.js:47-52 | always a `TypeError`, since `Util.verifiedTag` does not exist |
| UserStores.UserStore.GetPopularUsers | lib/stores/UserStore.js:54-59 | always a `ReferenceError` for the undeclared `tag` |
| ClanStores.ClanStore.constructor | lib/stores/ClanStore.js:7-19 | the data map and the five side maps start empty |
| ClanStores.ClanStore.GetData | lib/stores/ClanStore.js:21-29 | `Serve` with `Clan` structures, changing only the store's own map |
| ClanStores.ClanStore.GetBattles | lib/stores/ClanStore.js:31-39 | `Serve` with raw payloads, changing only `battles` |
| ClanStores.ClanStore.GetWarData | lib/stores/ClanStore.js:41-49 | `Serve` with raw payloads, changing only `war` |
| ClanStores.ClanStore.GetWarLogs | lib/stores/ClanStore.js:51-59 | `Serve` with raw payloads, changing only `warLog` |
| ClanStores.ClanStore.GetWarHistory | lib/stores/ClanStore.js:61-69 | `Serve` with raw payloads, changing only `history` |
| ClanStores.ClanStore.GetWeeklyHistory | lib/stores/ClanStore.js:71-79 | `Serve` with a fetch that always throws a `TypeError`, so `weeklyHistory` never changes |
| ClanStores.ClanStore.GetTracking | lib/stores/ClanStore.js:81-85 | no cache access; the API is asked exactly when the tag is valid, and its answer is returned |
| ClanStores.ClanStore.GetTopClans | lib/stores/ClanStore.js:87-92 | always a `TypeError`, since `Util.verifiedTag` does not exist |
| ClanStores.ClanStore.GetPopularClans | lib/stores/ClanStore.js:94-99 | always a `ReferenceError` for the undeclared `tag` |
| ClanStores.WeeklyCallKeepsMap | lib/util/Api.js:102-104 | a weekly-history call never changes its map |
| ClanStores.WeeklyHistoryStaysEmpty | lib/stores/ClanStore.js:71-79 | from an empty map, any sequence of weekly-history calls leaves it empty, and each call with a valid tag throws the `TypeError` |
| Requests.PathIsJoinedSegments | lib/util/Api.js:62-136 | every endpoint path is its segments joined with `/` |
| Requests.SegmentsRoundTrip | lib/util/Api.js:62-136 | the segment list of an unambiguous endpoint reads back as that endpoint |
| Requests.ParsePath | lib/util/Api.js:62-136 | reading a path back segment by segment gives its endpoint, when the argument has no `/` and a tournament tag is not `open`/`known` |
| Requests.PathInjective | lib/util/Api.js:51-136 | distinct endpoints whose arguments contain no `/`, and whose tournament tag is not `open` or `known`, never request the same URL; every verified tag meets this (`VerifiedTagUnambiguous`) |
| Requests.PathCollisions | lib/util/Api.js:83-127 | without that condition builders collide: `getTournamentInfo('open')` and `getOpenTournaments()` request the same path, and so do `getClanData('X/war')` and `getClanWar('X')` |
| Requests.TagCharsNotPathWords | lib/util/Util.js:1 | no string of tag-alphabet characters contains `/` or spells `open` or `known` |
| Requests.VerifiedTagUnambiguous | lib/util/Util.js:1-17 | a verified tag never breaks the path structure |
| Requests.Options.constructor | lib/util/Api.js:35 | the options object holds the `keys` and `exclude` it was built with |
| Requests.ShapeOptions | lib/util/Api.js:41-49 | both lists given fails; a non-array list fails; `keys` becomes its elements joined by `", "`, `exclude` joined by `","`; no list leaves both as they were |
| Requests.ReusedOptionsRejected | lib/util/Api.js:44-48 | an options object rewritten to a non-empty string fails its next check |
| Requests.ExcludeRoundTrip | lib/util/Api.js:48 | comma-free excluded keys are recovered by splitting the query value at `,` |
| Requests.KeysRoundTrip | lib/util/Api.js:44 | comma-free requested keys come back from splitting at `,`, each after the first with a leading space |
| LibApi.OptionError | lib/util/Api.js:41-47 | both lists given is an `Error`; a non-array list is a `TypeError` |
| LibApi.Rejection | lib/util/Api.js:59 | a rejection throws the error's `body` |
| LibApi.Exchanged | lib/util/Api.js:35-60 | the limiter runs first and its refusal sends nothing; option errors then send nothing; a request goes to base URL + path exactly when both pass; only a delivered response sets the header fields |
| LibApi.BadOptionsStillCount | lib/util/Api.js:38-41 | a call refused for its options still records its time in the limiter |
| LibApi.Api.constructor | lib/util/Api.js:16-27 | a fresh limiter with limit 5 and window 1000 |
| LibApi.Api.Get | lib/util/Api.js:35-60 | limiter, result, request, rewritten options and header fields are those of `Exchanged` |
| LibApi.Api.Call | lib/util/Api.js:62-136 | each builder calls `_get` with its path and the caller's options; `getClanWeeklyHistory` throws a `TypeError` without touching the limiter |
| SrcApi.Exchanged | src/util/Api.js:14-37 | the gate refuses while remaining is 0 or the clock is below reset, changing nothing; every options error is a `TypeError`; a delivered response replaces both gate fields; a rejection passes through |
| SrcApi.ZeroRemainingLocksOut | src/util/Api.js:16 | once remaining is 0, every later call is refused and no request is ever sent |
| SrcApi.GateOpensAtReset | src/util/Api.js:16 | with a non-zero count, a call at or after reset with valid options is sent |
| SrcApi.Api.constructor | src/util/Api.js:5-12 | remaining 5 and reset at construction time, so the gate is open from then on |
| SrcApi.Api.Get | src/util/Api.js:14-37 | gate fields, result, request and rewritten options are those of `Exchanged` |
| SrcApi.Api.Call | src/util/Api.js:39-121 | only `getUserProfile` passes options on; `auth/stats` and `endpoints` are requested; `getClanWeeklyHistory` throws a `TypeError` |
| SrcClans.MemberOf | src/structures/clanMember.js:6-54 | a nullish member throws a `TypeError`; otherwise each of the eight fields is the member's own property of that name, `expLevel` as `level` |
| SrcClans.IsLeader | src/structures/clan.js:118 | succeeds exactly on a non-nullish member with a string role, answering whether the lower-cased role is `leader` |
| SrcClans.LeaderRoleAnyCase | src/structures/clan.js:118 | the callback accepts exactly the roles spelling `leader` in any mix of cases |
| SrcClans.Leaders | src/structures/clan.js:118 | the filter succeeds exactly when the callback succeeds on every member; it keeps only leader-role members |
| SrcClans.Patch | src/structures/clan.js:12-126 | nullish data throws; badge is `badge.image`; members and leader are set exactly when members are truthy; members map one-to-one in order; the leader has the leader role |
| SrcClans.FirstLeader | src/structures/clan.js:118 | the first filtered member is the first member, in list order, with the leader role |
| SrcClans.NoLeaderFound | src/structures/clan.js:118 | the filter finds nobody exactly when no member has the leader role |
| SrcClans.LeaderIsFirstWithRole | src/structures/clan.js:118 | a constructed clan's leader wraps the first leader-role member |
| SrcClans.NoLeaderFails | src/structures/clanMember.js:11 | members present but no leader, the empty list included, makes construction throw a `TypeError` |
| SrcClans.ZeroCountsUnset | src/structures/clan.js:45-75 | a zero `score`, `memberCount` or `donations` leaves the field unset |
| SrcClans.GuardedCopies | src/structures/clan.js:13-111 | every scalar field is the payload's value when truthy and unset otherwise |

## Left out

- HTTP transport is not modelled: the `snekfetch` request, the query-string encoding, the `auth` header and `console.log`. A request is recorded as its URL and query options, and the answer is a parameter.
- Header parsing with `parseInt` is not modelled; a `Response` carries the parsed values.
- Asynchronous interleaving is not modelled. Each store or API call is one sequential step. Two concurrent misses on the same tag, which would both fetch, are outside the model.
- `Stores.Wrap`: only the `_cacheTime` that the base structure sets is modelled, plus the `TypeError` that `Player`, `PlayerChests` and the `lib` `Clan` constructors throw for a nullish body. Their field copying is not modelled, and neither are errors from deeper property reads in those constructors.
- The store's `cacheSize` is not modelled, because no code reads it; the caches never evict.
- `TournamentStore`, the two `Client` classes, the `src` tournament scraper and the test script are not part of this model.
- `toUpperCase` and `toLowerCase` are modelled for ASCII letters only.
- Numbers are integers. `NaN` is kept as a separate value; fractional numbers are not modelled, and neither is the exponent form (`1e+21`) in which JavaScript prints integers of magnitude `1e21` or more, so `Strings.DecimalText` and `Values.ElementTexts` render every integer in plain decimal.
- Endpoint arguments are not checked by the builders: a tournament tag `open` or `known`, or an argument containing `/`, requests another endpoint's path (`Requests.PathCollisions`). The stores pass verified tags only, which never do.
- `Values.NumericText` and `Values.Below`: the string-to-number conversion covers an optionally signed run of decimal digits and the empty string. Surrounding whitespace, fractions, exponents, hexadecimal, octal and binary literals, and `Infinity` are not modelled; such strings count as `NaN`.
- `Collections.Delete` models `Map.prototype.delete`, which `Collection` inherits as part of its public API; no store calls it, since the caches never evict.
- The options object is either an `Options` object or absent (the default `{}`). An explicit `null` argument, which would throw, is not modelled.
- `Map` keys are compared by value. Keys are always normalised tag strings here, so this matches JavaScript's rule.
- The error messages are not modelled. An error is modelled by its class and a reason; the rate-limit error keeps `limit` and `window`.
