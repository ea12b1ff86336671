/**
 * `Collection`, the JavaScript `Map` subclass the stores are built on: a map
 * whose keys iterate in insertion order, with `first`, `firstKey`, `last` and
 * `lastKey`. The order of the keys is kept explicitly next to the entries.
 */
module Collections {
  import opened Values

  /** No element occurs twice. */
  predicate Distinct<K(==)>(s: seq<K>)
  {
    forall i, j :: 0 <= i < j < |s| ==> s[i] != s[j]
  }

  datatype Ordered<K(!new), V> = Ordered(order: seq<K>, entries: map<K, V>)
  {
    /** Each key appears once in the order, and the order lists exactly the keys of the entries. */
    predicate Valid()
    {
      && Distinct(order)
      && (forall i :: 0 <= i < |order| ==> order[i] in entries)
      && (forall k | k in entries :: k in order)
    }
  }

  type Collection<K(!new), V> = c: Ordered<K, V> | c.Valid() witness Ordered([], map[])

  function Empty<K(!new), V>(): Collection<K, V>
  {
    Ordered([], map[])
  }

  /** `map.get(k)`. */
  function Get<K(!new), V>(c: Collection<K, V>, k: K): Option<V>
  {
    if k in c.entries then Some(c.entries[k]) else None
  }

  /** `map.set(k, v)`: a new key goes to the end of the iteration order; an
      existing key keeps its place and only its value changes. */
  function Set<K(!new), V>(c: Collection<K, V>, k: K, v: V): (r: Collection<K, V>)
    ensures r.entries == c.entries[k := v]
    ensures k in c.entries ==> r.order == c.order
    ensures k !in c.entries ==> r.order == c.order + [k]
  {
    if k in c.entries then Ordered(c.order, c.entries[k := v])
    else Ordered(c.order + [k], c.entries[k := v])
  }

  lemma DistinctCons<K>(x: K, s: seq<K>)
    ensures Distinct(s) && x !in s ==> Distinct([x] + s)
  {
    if Distinct(s) && x !in s {
      var r := [x] + s;
      forall i, j | 0 <= i < j < |r| ensures r[i] != r[j] {
        assert r[j] == s[j - 1];
        if i > 0 { assert r[i] == s[i - 1]; }
      }
    }
  }

  /** `s` with every occurrence of `k` removed. */
  function Without<K(==,!new)>(s: seq<K>, k: K): seq<K>
  {
    if s == [] then []
    else if s[0] == k then Without(s[1..], k)
    else [s[0]] + Without(s[1..], k)
  }

  /** Removing `k` keeps exactly the other elements, and no repetition is
      introduced. */
  lemma {:induction false} WithoutKeeps<K(!new)>(s: seq<K>, k: K)
    ensures forall x :: x in Without(s, k) <==> x in s && x != k
    ensures Distinct(s) ==> Distinct(Without(s, k))
    ensures k !in s ==> Without(s, k) == s
    decreases |s|
  {
    if s != [] {
      WithoutKeeps(s[1..], k);
      assert s == [s[0]] + s[1..];
      if Distinct(s) {
        DistinctTail(s);
        HeadNotInTail(s);
      }
      DistinctCons(s[0], Without(s[1..], k));
    }
  }

  /** `map.delete(k)`: the other keys keep their relative order. */
  function Delete<K(!new), V>(c: Collection<K, V>, k: K): (r: Collection<K, V>)
    ensures r.entries == c.entries - {k}
  {
    var order := Without(c.order, k);
    WithoutKeeps(c.order, k);
    assert forall i | 0 <= i < |order| :: order[i] in order;
    assert forall x | x in c.entries - {k} :: x in c.order;
    Ordered(order, c.entries - {k})
  }

  /** Removing a `k` that occurs only at position `i` cuts it out there. */
  lemma {:induction false} WithoutAt<K(!new)>(s: seq<K>, k: K, i: nat)
    requires i < |s| && s[i] == k && k !in s[..i] && k !in s[i + 1..]
    ensures Without(s, k) == s[..i] + s[i + 1..]
    decreases i
  {
    if i == 0 {
      assert s[1..] == s[i + 1..];
      WithoutKeeps(s[1..], k);
    } else {
      var t := s[1..];
      assert s[0] != k by { assert s[0] == s[..i][0]; }
      var front := t[..i - 1];
      assert k !in front by {
        forall j | 0 <= j < |front| ensures front[j] != k { assert front[j] == s[..i][j + 1]; }
      }
      assert t[i..] == s[i + 1..];
      WithoutAt(t, k, i - 1);
      assert s[..i] == [s[0]] + t[..i - 1];
    }
  }

  lemma HeadNotInTail<K>(s: seq<K>)
    requires |s| > 0 && Distinct(s)
    ensures s[0] !in s[1..]
  {
    var t := s[1..];
    forall j | 0 <= j < |t| ensures t[j] != s[0] { assert t[j] == s[j + 1]; }
  }

  /** In a list without repetitions, an element occurs nowhere but at its
      own position. */
  lemma OnlyAt<K>(s: seq<K>, i: nat)
    requires Distinct(s) && i < |s|
    ensures s[i] !in s[..i] && s[i] !in s[i + 1..]
  {
    var front, back := s[..i], s[i + 1..];
    forall j | 0 <= j < |front| ensures front[j] != s[i] { assert front[j] == s[j]; }
    forall j | 0 <= j < |back| ensures back[j] != s[i] { assert back[j] == s[i + 1 + j]; }
  }

  /** `delete` removes a present key from its place in the iteration order,
      keeping the others in their order, and leaves the collection as it is
      when the key is absent. */
  lemma DeleteKeepsOrder<K(!new), V>(c: Collection<K, V>, k: K)
    ensures forall i :: 0 <= i < |c.order| && c.order[i] == k ==> Delete(c, k).order == c.order[..i] + c.order[i + 1..]
    ensures k !in c.entries ==> Delete(c, k) == c
  {
    forall i | 0 <= i < |c.order| && c.order[i] == k ensures Delete(c, k).order == c.order[..i] + c.order[i + 1..] {
      OnlyAt(c.order, i);
      WithoutAt(c.order, k, i);
    }
    if k !in c.entries {
      WithoutKeeps(c.order, k);
      assert k !in c.order;
      assert c.entries - {k} == c.entries;
    }
  }

  /** Reading back after `set`: the key gives the new value, every other key
      what it gave before. */
  lemma GetAfterSet<K(!new), V>(c: Collection<K, V>, k: K, v: V, other: K)
    ensures Get(Set(c, k, v), k) == Some(v)
    ensures other != k ==> Get(Set(c, k, v), other) == Get(c, other)
  {
  }

  /** The values in iteration order, as `[...map.values()]` lists them. */
  function ValueList<K(!new), V>(c: Collection<K, V>): (r: seq<V>)
    ensures |r| == |c.order|
  {
    seq(|c.order|, i requires 0 <= i < |c.order| => c.entries[c.order[i]])
  }

  /** `firstKey()`: the earliest-inserted key still present, if any. */
  function FirstKey<K(!new), V>(c: Collection<K, V>): (r: Option<K>)
    ensures r.None? <==> c.entries == map[]
    ensures r.Some? ==> r.value in c.entries
  {
    if c.order == [] then None else Some(c.order[0])
  }

  /** `first()`: the first value the values iterator yields, which is the
      value under the first key. */
  function First<K(!new), V>(c: Collection<K, V>): (r: Option<V>)
    ensures r == if FirstKey(c).Some? then Some(c.entries[FirstKey(c).value]) else None
  {
    var vs := ValueList(c);
    if vs == [] then None else Some(vs[0])
  }

  /** `lastKey()`: the last element of the spread keys, undefined when empty. */
  function LastKey<K(!new), V>(c: Collection<K, V>): (r: Option<K>)
    ensures r.None? <==> c.entries == map[]
    ensures r.Some? ==> r.value in c.entries
  {
    var ks := c.order;
    if |ks| == 0 then None else Some(ks[|ks| - 1])
  }

  /** `last()`: the last element of the spread values, which is the value
      under the last key. */
  function Last<K(!new), V>(c: Collection<K, V>): (r: Option<V>)
    ensures r == if LastKey(c).Some? then Some(c.entries[LastKey(c).value]) else None
  {
    var vs := ValueList(c);
    if |vs| == 0 then None else Some(vs[|vs| - 1])
  }

  /** On an empty collection all four queries give undefined. */
  lemma EmptyQueries<K(!new), V>()
    ensures var e := Empty<K, V>();
      FirstKey(e) == None && First(e) == None && LastKey(e) == None && Last(e) == None
  {
  }

  lemma {:induction false} DistinctCard<K(!new)>(s: seq<K>)
    requires Distinct(s)
    ensures |set x | x in s| == |s|
  {
    if s != [] {
      var t := s[1..];
      assert Distinct(t);
      DistinctCard(t);
      assert (set x | x in s) == {s[0]} + (set x | x in t);
      assert s[0] !in t;
    }
  }

  /** The number of entries is the length of the iteration order. */
  lemma Size<K(!new), V>(c: Collection<K, V>)
    ensures |c.entries| == |c.order|
  {
    DistinctCard(c.order);
    assert c.entries.Keys == set x | x in c.order;
  }

  /** With a single entry the first and the last coincide. */
  lemma SingleEntry<K(!new), V>(c: Collection<K, V>)
    requires |c.entries| == 1
    ensures FirstKey(c) == LastKey(c) && First(c) == Last(c)
  {
    Size(c);
  }

  /** Inserting a new key makes it the last key without moving the first. */
  lemma SetNewKey<K(!new), V>(c: Collection<K, V>, k: K, v: V)
    requires k !in c.entries
    ensures LastKey(Set(c, k, v)) == Some(k) && Last(Set(c, k, v)) == Some(v)
    ensures FirstKey(Set(c, k, v)) == if c.entries == map[] then Some(k) else FirstKey(c)
  {
  }

  /** Overwriting an existing key changes neither the first nor the last key. */
  lemma SetExistingKey<K(!new), V>(c: Collection<K, V>, k: K, v: V)
    requires k in c.entries
    ensures FirstKey(Set(c, k, v)) == FirstKey(c) && LastKey(Set(c, k, v)) == LastKey(c)
  {
  }

  /** Deleting the first key makes the second-inserted key the first. */
  lemma DeleteFirstKey<K(!new), V>(c: Collection<K, V>)
    requires |c.order| >= 2
    ensures FirstKey(Delete(c, c.order[0])) == Some(c.order[1])
  {
    var k := c.order[0];
    assert c.order == [k] + c.order[1..];
    HeadNotInTail(c.order);
    WithoutKeeps(c.order[1..], k);
  }

  /** The collection built by setting the pairs one after another. */
  function SetAll<K(!new), V>(c: Collection<K, V>, keys: seq<K>, vals: seq<V>): Collection<K, V>
    requires |keys| == |vals|
    decreases |keys|
  {
    if keys == [] then c
    else SetAll(Set(c, keys[0], vals[0]), keys[1..], vals[1..])
  }

  /** Each key is new to the collection at the moment it is set. */
  predicate AllNew<K(!new), V>(c: Collection<K, V>, keys: seq<K>, vals: seq<V>)
    requires |keys| == |vals|
    decreases |keys|
  {
    keys == [] || (keys[0] !in c.entries && AllNew(Set(c, keys[0], vals[0]), keys[1..], vals[1..]))
  }

  lemma {:induction false} SetAllAppends<K(!new), V>(c: Collection<K, V>, keys: seq<K>, vals: seq<V>)
    requires |keys| == |vals| && AllNew(c, keys, vals)
    ensures SetAll(c, keys, vals).order == c.order + keys
    decreases |keys|
  {
    if keys != [] {
      SetAllAppends(Set(c, keys[0], vals[0]), keys[1..], vals[1..]);
      assert keys == [keys[0]] + keys[1..];
    }
  }

  lemma DistinctTail<K>(s: seq<K>)
    requires |s| > 0 && Distinct(s)
    ensures Distinct(s[1..])
  {
    assert forall i :: 0 <= i < |s| - 1 ==> s[1..][i] == s[i + 1];
  }

  lemma AbsentAfterSet<K(!new), V>(c: Collection<K, V>, keys: seq<K>, v: V)
    requires |keys| > 0 && Distinct(keys)
    requires forall i :: 0 <= i < |keys| ==> keys[i] !in c.entries
    ensures forall i :: 0 <= i < |keys[1..]| ==> keys[1..][i] !in Set(c, keys[0], v).entries
  {
    forall i | 0 <= i < |keys[1..]| ensures keys[1..][i] !in Set(c, keys[0], v).entries {
      assert keys[1..][i] == keys[i + 1];
    }
  }

  lemma {:induction false} DistinctKeysAllNew<K(!new), V>(c: Collection<K, V>, keys: seq<K>, vals: seq<V>)
    requires |keys| == |vals| && Distinct(keys)
    requires forall i :: 0 <= i < |keys| ==> keys[i] !in c.entries
    ensures AllNew(c, keys, vals)
    decreases |keys|
  {
    if keys != [] {
      DistinctTail(keys);
      AbsentAfterSet(c, keys, vals[0]);
      DistinctKeysAllNew(Set(c, keys[0], vals[0]), keys[1..], vals[1..]);
    }
  }

  /** Inserting distinct new keys appends them to the iteration order in
      insertion order. */
  lemma SetAllOrder<K(!new), V>(c: Collection<K, V>, keys: seq<K>, vals: seq<V>)
    requires |keys| == |vals| && Distinct(keys)
    requires forall i :: 0 <= i < |keys| ==> keys[i] !in c.entries
    ensures SetAll(c, keys, vals).order == c.order + keys
  {
    DistinctKeysAllNew(c, keys, vals);
    SetAllAppends(c, keys, vals);
  }

  /** Each of a run of distinct keys ends up holding the value set with it. */
  lemma {:induction false} SetAllValue<K(!new), V>(c: Collection<K, V>, keys: seq<K>, vals: seq<V>, i: nat)
    requires |keys| == |vals| && Distinct(keys) && i < |keys|
    ensures keys[i] in SetAll(c, keys, vals).entries
    ensures SetAll(c, keys, vals).entries[keys[i]] == vals[i]
    decreases |keys|
  {
    var c' := Set(c, keys[0], vals[0]);
    assert Distinct(keys[1..]);
    if i == 0 {
      assert keys[0] !in keys[1..];
      SetAllKeepsOthers(c', keys[1..], vals[1..], keys[0]);
    } else {
      SetAllValue(c', keys[1..], vals[1..], i - 1);
    }
  }

  /** Setting other keys leaves an entry alone. */
  lemma {:induction false} SetAllKeepsOthers<K(!new), V>(c: Collection<K, V>, keys: seq<K>, vals: seq<V>, k: K)
    requires |keys| == |vals| && k !in keys && k in c.entries
    ensures k in SetAll(c, keys, vals).entries && SetAll(c, keys, vals).entries[k] == c.entries[k]
    decreases |keys|
  {
    if keys != [] {
      assert k != keys[0];
      assert k !in keys[1..];
      SetAllKeepsOthers(Set(c, keys[0], vals[0]), keys[1..], vals[1..], k);
    }
  }

  /** Hence, for distinct keys inserted into an empty collection, `firstKey`
      and `first` are the first pair and `lastKey` and `last` the last. */
  lemma InsertionOrderQueries<K(!new), V>(keys: seq<K>, vals: seq<V>)
    requires |keys| == |vals| && |keys| > 0 && Distinct(keys)
    ensures var c := SetAll(Empty<K, V>(), keys, vals);
      && FirstKey(c) == Some(keys[0]) && First(c) == Some(vals[0])
      && LastKey(c) == Some(keys[|keys| - 1]) && Last(c) == Some(vals[|vals| - 1])
  {
    SetAllOrder(Empty<K, V>(), keys, vals);
    SetAllValue(Empty<K, V>(), keys, vals, 0);
    SetAllValue(Empty<K, V>(), keys, vals, |keys| - 1);
  }
}
