/**
 * The `src` clan structure, built once from a raw clan payload: each scalar
 * field is copied only when truthy, the badge is the payload badge's
 * `image`, and when members are present the leader is the first member whose
 * lower-cased role is `leader` and the members are wrapped one by one.
 */
module SrcClans {
  import opened Strings
  import opened Values

  /** `ClanMember`: the fields it copies from a raw member (`expLevel` is
      kept as `level`). */
  datatype Member = Member(
    name: Js, tag: Js, rank: Js, role: Js, level: Js,
    trophies: Js, clanChestCrowns: Js, donations: Js)

  /** The field reads of `new ClanMember(m)` on a member that is not nullish. */
  function Wrapped(m: Js): Member
  {
    Member(Field(m, "name"), Field(m, "tag"), Field(m, "rank"), Field(m, "role"),
           Field(m, "expLevel"), Field(m, "trophies"), Field(m, "clanChestCrowns"), Field(m, "donations"))
  }

  /** `new ClanMember(m)`: reading `m.name` throws when `m` is nullish. */
  function MemberOf(m: Js): (r: Result<Member, Thrown>)
    ensures r.Failure? <==> Nullish(m)
    ensures r.Failure? ==> r.error == Raised(TypeError, PropertyOfNullish)
    ensures r.Success? ==>
      && r.value.name == Field(m, "name") && r.value.tag == Field(m, "tag")
      && r.value.rank == Field(m, "rank") && r.value.role == Field(m, "role")
      && r.value.level == Field(m, "expLevel") && r.value.trophies == Field(m, "trophies")
      && r.value.clanChestCrowns == Field(m, "clanChestCrowns") && r.value.donations == Field(m, "donations")
  {
    if Nullish(m) then Failure(Raised(TypeError, PropertyOfNullish)) else Success(Wrapped(m))
  }

  /** The filter callback `mem.role.toLowerCase() === 'leader'` on one
      member: its answer, or the error it throws (reading `role` of a
      nullish member or calling `toLowerCase` on a nullish role, or a role
      that is not a string and so has no `toLowerCase`). */
  function IsLeader(m: Js): (r: Result<bool, Thrown>)
    ensures r.Success? <==> !Nullish(m) && Field(m, "role").Str?
    ensures r.Success? ==> r.value == (Lowercase(Field(m, "role").s) == "leader")
  {
    if Nullish(m) then Failure(Raised(TypeError, PropertyOfNullish))
    else
      var role := Field(m, "role");
      if Nullish(role) then Failure(Raised(TypeError, PropertyOfNullish))
      else if !role.Str? then Failure(Raised(TypeError, NotAFunction))
      else Success(Lowercase(role.s) == "leader")
  }

  /** The callback accepts exactly the members whose role is the text
      `leader` in any mix of upper and lower case: `Leader` and `LEADER` pass,
      `coLeader` does not. */
  lemma LeaderRoleAnyCase(m: Js)
    ensures IsLeader(m) == Success(true) <==>
      && !Nullish(m) && Field(m, "role").Str? && |Field(m, "role").s| == 6
      && forall i :: 0 <= i < 6 ==> Field(m, "role").s[i] == "leader"[i] || Field(m, "role").s[i] == UpperAscii("leader"[i])
  {
    if !Nullish(m) && Field(m, "role").Str? {
      LowercaseMatches(Field(m, "role").s, "leader");
    }
  }

  /** `members.filter(...)`: the members the callback accepts, in order, or
      the first error the callback throws. The callback runs on every member. */
  function Leaders(ms: seq<Js>): (r: Result<seq<Js>, Thrown>)
    ensures r.Success? <==> forall i :: 0 <= i < |ms| ==> IsLeader(ms[i]).Success?
    ensures r.Success? ==> |r.value| <= |ms|
    ensures r.Success? ==> forall k :: 0 <= k < |r.value| ==> IsLeader(r.value[k]) == Success(true)
    decreases |ms|
  {
    if ms == [] then Success([])
    else
      var here := IsLeader(ms[0]);
      var rest := Leaders(ms[1..]);
      assert forall i :: 1 <= i < |ms| ==> ms[i] == ms[1..][i - 1];
      if here.Failure? then Failure(here.error)
      else if rest.Failure? then Failure(rest.error)
      else Success((if here.value then [ms[0]] else []) + rest.value)
  }

  /** The clan after `_patch`; `None` marks a field `_patch` leaves unset. */
  datatype Clan = Clan(
    tag: Option<Js>, name: Option<Js>, description: Option<Js>, clanType: Option<Js>,
    score: Option<Js>, memberCount: Option<Js>, requiredScore: Option<Js>,
    donations: Option<Js>, clanChest: Option<Js>, badge: Option<Js>, location: Option<Js>,
    leader: Option<Member>, members: Option<seq<Member>>)

  /** `if (data[key]) this[key] = data[key]`. */
  function Guarded(data: Js, key: string): Option<Js>
  {
    if Truthy(Field(data, key)) then Some(Field(data, key)) else None
  }

  /** `new Clan(data)`: the clan, or the error construction throws. */
  function Patch(data: Js): (r: Result<Clan, Thrown>)
    ensures Nullish(data) ==> r == Failure(Raised(TypeError, PropertyOfNullish))
    // the badge is the image of a truthy badge
    ensures r.Success? ==> r.value.badge == if Truthy(Field(data, "badge")) then Some(Field(Field(data, "badge"), "image")) else None
    // members are set exactly when the payload has truthy members
    ensures r.Success? ==> (r.value.members.Some? <==> Truthy(Field(data, "members")))
    ensures r.Success? ==> (r.value.leader.Some? <==> Truthy(Field(data, "members")))
    // one member per raw member, in order
    ensures r.Success? && r.value.members.Some? ==>
      && Field(data, "members").Arr?
      && |r.value.members.value| == |Field(data, "members").items|
      && forall i :: 0 <= i < |Field(data, "members").items| ==>
           MemberOf(Field(data, "members").items[i]) == Success(r.value.members.value[i])
    // the leader is a member whose lower-cased role is "leader"
    ensures r.Success? && r.value.leader.Some? ==>
      r.value.leader.value.role.Str? && Lowercase(r.value.leader.value.role.s) == "leader"
  {
    if Nullish(data) then Failure(Raised(TypeError, PropertyOfNullish))
    else
      var badge := if Truthy(Field(data, "badge")) then Some(Field(Field(data, "badge"), "image")) else None;
      var base := Clan(
        Guarded(data, "tag"), Guarded(data, "name"), Guarded(data, "description"), Guarded(data, "type"),
        Guarded(data, "score"), Guarded(data, "memberCount"), Guarded(data, "requiredScore"),
        Guarded(data, "donations"), Guarded(data, "clanChest"), badge, Guarded(data, "location"),
        None, None);
      var raw := Field(data, "members");
      if !Truthy(raw) then Success(base)
      else if !raw.Arr? then Failure(Raised(TypeError, NotAFunction))
      else
        match Leaders(raw.items)
        case Failure(e) => Failure(e)
        case Success(found) =>
          if found == [] then Failure(Raised(TypeError, PropertyOfNullish))
          else
            assert IsLeader(found[0]) == Success(true);
            var members := seq(|raw.items|, i requires 0 <= i < |raw.items| => Wrapped(raw.items[i]));
            assert forall i :: 0 <= i < |raw.items| ==> IsLeader(raw.items[i]).Success?;
            Success(base.(leader := Some(Wrapped(found[0])), members := Some(members)))
  }

  /** The first member the filter accepts is the first member, in list
      order, whose role is the leader role. */
  lemma {:induction false} FirstLeader(ms: seq<Js>) returns (i: nat)
    requires Leaders(ms).Success? && Leaders(ms).value != []
    ensures i < |ms| && Leaders(ms).value[0] == ms[i]
    ensures IsLeader(ms[i]) == Success(true)
    ensures forall j :: 0 <= j < i ==> IsLeader(ms[j]) == Success(false)
    decreases |ms|
  {
    if IsLeader(ms[0]) == Success(true) {
      i := 0;
    } else {
      assert Leaders(ms).value == Leaders(ms[1..]).value;
      var k := FirstLeader(ms[1..]);
      i := k + 1;
      forall j | 0 <= j < i ensures IsLeader(ms[j]) == Success(false) {
        if j > 0 { assert ms[j] == ms[1..][j - 1]; }
      }
    }
  }

  /** The filter finds nobody exactly when no member has the leader role. */
  lemma {:induction false} NoLeaderFound(ms: seq<Js>)
    requires Leaders(ms).Success?
    ensures Leaders(ms).value == [] <==> forall j :: 0 <= j < |ms| ==> IsLeader(ms[j]) == Success(false)
    decreases |ms|
  {
    if ms != [] {
      NoLeaderFound(ms[1..]);
      assert forall j :: 1 <= j < |ms| ==> ms[j] == ms[1..][j - 1];
    }
  }

  /** The leader of a constructed clan is the member built from the first
      raw member, in list order, whose lower-cased role is `leader`. */
  lemma LeaderIsFirstWithRole(data: Js) returns (i: nat)
    requires Patch(data).Success? && Patch(data).value.leader.Some?
    ensures var ms := Field(data, "members").items;
      && i < |ms|
      && Patch(data).value.leader == Some(Wrapped(ms[i]))
      && IsLeader(ms[i]) == Success(true)
      && forall j :: 0 <= j < i ==> IsLeader(ms[j]) == Success(false)
  {
    i := FirstLeader(Field(data, "members").items);
  }

  /** A member list in which nobody has the leader role, the empty list
      included, makes construction throw: the leader wrapper reads `name`
      of `undefined`. */
  lemma NoLeaderFails(data: Js)
    requires !Nullish(data) && Field(data, "members").Arr?
    requires var ms := Field(data, "members").items; forall j :: 0 <= j < |ms| ==> IsLeader(ms[j]) == Success(false)
    ensures Patch(data) == Failure(Raised(TypeError, PropertyOfNullish))
  {
    NoLeaderFound(Field(data, "members").items);
  }

  /** A score of 0 is falsy, so the field stays unset; likewise member count
      and donations. */
  lemma ZeroCountsUnset(data: Js)
    requires Patch(data).Success?
    ensures Field(data, "score") == Num(0) ==> Patch(data).value.score.None?
    ensures Field(data, "memberCount") == Num(0) ==> Patch(data).value.memberCount.None?
    ensures Field(data, "donations") == Num(0) ==> Patch(data).value.donations.None?
  {
  }

  /** Every scalar field is the payload's value when that is truthy, and
      unset otherwise. */
  lemma GuardedCopies(data: Js)
    requires Patch(data).Success?
    ensures var c := Patch(data).value;
      && c.tag == Guarded(data, "tag") && c.name == Guarded(data, "name")
      && c.description == Guarded(data, "description") && c.clanType == Guarded(data, "type")
      && c.score == Guarded(data, "score") && c.memberCount == Guarded(data, "memberCount")
      && c.requiredScore == Guarded(data, "requiredScore") && c.donations == Guarded(data, "donations")
      && c.clanChest == Guarded(data, "clanChest") && c.location == Guarded(data, "location")
    ensures forall key :: Guarded(data, key).Some? <==> Truthy(Field(data, key))
  {
  }
}
