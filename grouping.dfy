// Grouping trajectories by person, as src/App.tsx and
// src/components/Trajectories.tsx both do it: a `reduce` into an object
// literal keyed by `personId`, read back with `Object.keys`. Two properties of
// JavaScript objects show through. A key that names a member of
// `Object.prototype` finds that member instead of `undefined`, so its group is
// never created and `push` throws. And `Object.keys` lists the keys that are
// array indices first, by numeric value, and the others in the order they were
// created (section 10.1.11.1 of ECMA-262, OrdinaryOwnPropertyKeys).

module Grouping {
  import opened Common
  import opened Records
  import opened Sequences
  import opened Sorting
  import PlaceColors

  /** `trajectories.map(d => d.personId)`. */
  function PersonIds(trajectories: seq<Trajectory>): (r: seq<string>)
    ensures |r| == |trajectories|
    ensures forall i :: 0 <= i < |trajectories| ==> r[i] == trajectories[i].personId
  {
    if trajectories == [] then []
    else PersonIds(trajectories[..|trajectories| - 1]) + [trajectories[|trajectories| - 1].personId]
  }

  /** The trajectories of one person, in input order. */
  function ByPerson(trajectories: seq<Trajectory>, personId: string): (r: seq<Trajectory>)
    ensures forall i :: 0 <= i < |r| ==> r[i].personId == personId
  {
    if trajectories == [] then []
    else
      var n := |trajectories|;
      var last := trajectories[n - 1];
      ByPerson(trajectories[..n - 1], personId) + (if last.personId == personId then [last] else [])
  }

  /** A person has a non-empty group exactly when some trajectory names them. */
  lemma {:induction false} ByPersonNonEmpty(trajectories: seq<Trajectory>, personId: string)
    ensures ByPerson(trajectories, personId) != [] <==> personId in PersonIds(trajectories)
  {
    if trajectories != [] {
      var n := |trajectories|;
      var init := trajectories[..n - 1];
      ByPersonNonEmpty(init, personId);
    }
  }

  /** The `reduce` throws at trajectory `index`, whose `personId` names an inherited member. */
  datatype GroupError = PrototypeMember(index: nat, personId: string)

  /**
   * The object the `reduce` builds: `keys` in the order their properties
   * were created, and each key's array.
   */
  datatype Grouped = Grouped(keys: seq<string>, members: map<string, seq<Trajectory>>)

  /** The first trajectory whose `personId` the object literal already inherits. */
  function FirstInherited(trajectories: seq<Trajectory>): (r: Option<nat>)
    ensures r.None? <==> forall i :: 0 <= i < |trajectories| ==> trajectories[i].personId !in PlaceColors.ObjectPrototypeMembers
    ensures r.Some? ==> && r.value < |trajectories|
                        && trajectories[r.value].personId in PlaceColors.ObjectPrototypeMembers
                        && forall j :: 0 <= j < r.value ==> trajectories[j].personId !in PlaceColors.ObjectPrototypeMembers
  {
    if trajectories == [] then None
    else if trajectories[0].personId in PlaceColors.ObjectPrototypeMembers then Some(0)
    else
      match FirstInherited(trajectories[1..])
      case None => None
      case Some(i) => Some(i + 1)
  }

  /**
   * The object after the `reduce` has added each of `trajectories` in turn:
   * a person seen before gets the trajectory pushed onto their array, a new
   * person gets a new property holding just that trajectory.
   */
  function Collected(trajectories: seq<Trajectory>): Grouped {
    if trajectories == [] then Grouped([], map[])
    else
      var n := |trajectories|;
      var g := Collected(trajectories[..n - 1]);
      var x := trajectories[n - 1];
      if x.personId in g.members then Grouped(g.keys, g.members[x.personId := g.members[x.personId] + [x]])
      else Grouped(g.keys + [x.personId], g.members[x.personId := [x]])
  }

  /** The grouping: the error the `reduce` throws, or the object it builds. */
  function Group(trajectories: seq<Trajectory>): Result<Grouped, GroupError> {
    match FirstInherited(trajectories)
    case Some(i) => Err(PrototypeMember(i, trajectories[i].personId))
    case None => Ok(Collected(trajectories))
  }

  /**
   * The object's keys: one property per distinct person, created in order of
   * first appearance, and no group without a key.
   */
  lemma {:induction false} CollectedKeys(trajectories: seq<Trajectory>)
    ensures var g := Collected(trajectories);
            && g.keys == Distinct(PersonIds(trajectories))
            && (forall k :: k in g.members <==> k in g.keys)
  {
    if trajectories != [] {
      var n := |trajectories|;
      var init, x := trajectories[..n - 1], trajectories[n - 1];
      CollectedKeys(init);
      DistinctSnoc(PersonIds(init), x.personId);
    }
  }

  lemma {:induction false} CollectedMembers(trajectories: seq<Trajectory>, k: string)
    ensures var g := Collected(trajectories);
            (k in g.members ==> g.members[k] == ByPerson(trajectories, k))
            && (k !in g.members ==> ByPerson(trajectories, k) == [])
  {
    if trajectories != [] {
      var n := |trajectories|;
      CollectedMembers(trajectories[..n - 1], k);
    }
  }

  /**
   * What the object holds: one property per distinct person, created in
   * order of first appearance, each holding exactly that person's
   * trajectories in input order.
   */
  lemma CollectedByPerson(trajectories: seq<Trajectory>)
    ensures var g := Collected(trajectories);
            && g.keys == Distinct(PersonIds(trajectories))
            && (forall k :: k in g.members <==> k in g.keys)
            && (forall k :: k in g.members ==> g.members[k] == ByPerson(trajectories, k))
  {
    CollectedKeys(trajectories);
    forall k | k in Collected(trajectories).members ensures Collected(trajectories).members[k] == ByPerson(trajectories, k) {
      CollectedMembers(trajectories, k);
    }
  }

  /** The `reduce` as it runs: create the person's array when the lookup finds nothing, then push. */
  method GroupByPerson(trajectories: seq<Trajectory>) returns (r: Result<Grouped, GroupError>)
    ensures r == Group(trajectories)
  {
    var keys: seq<string> := [];
    var members: map<string, seq<Trajectory>> := map[];
    for i := 0 to |trajectories|
      invariant forall j :: 0 <= j < i ==> trajectories[j].personId !in PlaceColors.ObjectPrototypeMembers
      invariant Grouped(keys, members) == Collected(trajectories[..i])
    {
      var id := trajectories[i].personId;
      if id in PlaceColors.ObjectPrototypeMembers {
        assert FirstInherited(trajectories) == Some(i);
        return Err(PrototypeMember(i, id));
      }
      assert trajectories[..i + 1][..i] == trajectories[..i];
      ghost var before := members;
      if id !in members {
        members := members[id := []];
        keys := keys + [id];
      }
      var pushed := members[id] + [trajectories[i]];
      assert id !in before ==> pushed == [trajectories[i]] && members[id := pushed] == before[id := pushed];
      members := members[id := pushed];
    }
    assert trajectories[..|trajectories|] == trajectories;
    r := Ok(Grouped(keys, members));
  }

  /**
   * The grouping succeeds exactly when no `personId` names an inherited
   * member; otherwise it fails at the first trajectory that does.
   */
  lemma GroupFailsIff(trajectories: seq<Trajectory>)
    ensures Group(trajectories).Ok? <==>
            forall i :: 0 <= i < |trajectories| ==> trajectories[i].personId !in PlaceColors.ObjectPrototypeMembers
    ensures Group(trajectories).Err? ==>
            var e := Group(trajectories).error;
            && e.index < |trajectories|
            && e.personId == trajectories[e.index].personId
            && e.personId in PlaceColors.ObjectPrototypeMembers
            && forall j :: 0 <= j < e.index ==> trajectories[j].personId !in PlaceColors.ObjectPrototypeMembers
  {
  }

  /**
   * A person whose id is `constructor` crashes the grouping: `acc[personId]`
   * finds the inherited `Object` function, so no array is created and the
   * `push` that follows is not a function. Read as a dictionary, the same
   * input gives that person a group of their one trajectory.
   */
  lemma ConstructorIdCrashes(t: Trajectory)
    requires t.personId == "constructor"
    ensures Group([t]) == Err(PrototypeMember(0, "constructor"))
    ensures Collected([t]) == Grouped(["constructor"], map["constructor" := [t]])
  {
    assert "constructor" in PlaceColors.ObjectPrototypeMembers;
    assert [t][..0] == [];
  }

  /** The sizes of the groups of `keys`, added up. */
  function GroupSizes(trajectories: seq<Trajectory>, keys: seq<string>): nat {
    if keys == [] then 0
    else GroupSizes(trajectories, keys[..|keys| - 1]) + |ByPerson(trajectories, keys[|keys| - 1])|
  }

  lemma {:induction false} GroupSizesSnoc(trajectories: seq<Trajectory>, x: Trajectory, keys: seq<string>)
    ensures GroupSizes(trajectories + [x], keys) == GroupSizes(trajectories, keys) + multiset(keys)[x.personId]
  {
    if keys != [] {
      var n := |keys|;
      GroupSizesSnoc(trajectories, x, keys[..n - 1]);
      assert (trajectories + [x])[..|trajectories|] == trajectories;
      assert keys == keys[..n - 1] + [keys[n - 1]];
    }
  }

  lemma {:induction false} GroupSizesOfNobody(trajectories: seq<Trajectory>, keys: seq<string>, x: Trajectory)
    requires x.personId !in keys
    ensures GroupSizes(trajectories + [x], keys) == GroupSizes(trajectories, keys)
  {
    GroupSizesSnoc(trajectories, x, keys);
  }

  lemma {:induction false} PersonIdsSnoc(init: seq<Trajectory>, x: Trajectory)
    ensures PersonIds(init + [x]) == PersonIds(init) + [x.personId]
  {
    assert (init + [x])[..|init|] == init;
  }

  /** A trajectory of a person already listed once grows that person's group by 1. */
  lemma {:induction false} GroupSizesOfKnownPerson(init: seq<Trajectory>, x: Trajectory, d: seq<string>)
    requires NoDuplicates(d) && x.personId in d
    ensures GroupSizes(init + [x], d) == GroupSizes(init, d) + 1
  {
    GroupSizesSnoc(init, x, d);
    NoDuplicatesCount(d, x.personId);
    assert x.personId in multiset(d);
  }

  /** A trajectory of a person not seen before opens a group of size 1. */
  lemma {:induction false} GroupSizesOfNewPerson(init: seq<Trajectory>, x: Trajectory, d: seq<string>)
    requires d == Distinct(PersonIds(init)) && x.personId !in d
    ensures GroupSizes(init + [x], d + [x.personId]) == GroupSizes(init, d) + 1
  {
    GroupSizesOfNobody(init, d, x);
    assert x.personId !in PersonIds(init);
    ByPersonNonEmpty(init, x.personId);
    assert (init + [x])[..|init|] == init;
    assert ByPerson(init + [x], x.personId) == [x];
    var d2 := d + [x.personId];
    assert d2[..|d2| - 1] == d;
  }

  /** Appending one trajectory adds one to the sizes of the groups of the distinct persons. */
  lemma {:induction false} GroupSizesSumStep(init: seq<Trajectory>, x: Trajectory)
    requires GroupSizes(init, Distinct(PersonIds(init))) == |init|
    ensures GroupSizes(init + [x], Distinct(PersonIds(init + [x]))) == |init| + 1
  {
    var d := Distinct(PersonIds(init));
    PersonIdsSnoc(init, x);
    DistinctSnoc(PersonIds(init), x.personId);
    if x.personId in d {
      GroupSizesOfKnownPerson(init, x, d);
    } else {
      GroupSizesOfNewPerson(init, x, d);
    }
  }

  /** Every trajectory lands in exactly one group: the group sizes add up to the number of trajectories. */
  lemma {:induction false} GroupSizesSum(trajectories: seq<Trajectory>)
    ensures GroupSizes(trajectories, Distinct(PersonIds(trajectories))) == |trajectories|
  {
    if trajectories != [] {
      var n := |trajectories|;
      var init, x := trajectories[..n - 1], trajectories[n - 1];
      assert trajectories == init + [x];
      GroupSizesSum(init);
      GroupSizesSumStep(init, x);
    }
  }

  /**
   * A successful grouping is a partition: one group per distinct person, in
   * order of first appearance; each group non-empty and holding exactly that
   * person's trajectories in input order; and the group sizes add up to the
   * number of trajectories.
   */
  lemma {:induction false} GroupsPartition(trajectories: seq<Trajectory>, g: Grouped)
    requires Group(trajectories) == Ok(g)
    ensures && g.keys == Distinct(PersonIds(trajectories))
            && NoDuplicates(g.keys)
            && (forall k :: k in g.keys <==> k in PersonIds(trajectories))
            && (forall k :: k in g.members <==> k in g.keys)
            && (forall k :: k in g.members ==> g.members[k] == ByPerson(trajectories, k) && g.members[k] != [])
            && GroupSizes(trajectories, g.keys) == |trajectories|
  {
    assert g == Collected(trajectories);
    CollectedByPerson(trajectories);
    forall k | k in g.members ensures g.members[k] != [] {
      ByPersonNonEmpty(trajectories, k);
    }
    GroupSizesSum(trajectories);
  }

  // ----- Object.keys -----

  function DecimalValue(s: string): nat {
    if s == [] then 0
    else DecimalValue(s[..|s| - 1]) * 10 + (if '0' <= s[|s| - 1] <= '9' then (s[|s| - 1] - '0') as nat else 0)
  }

  /**
   * An array index: the canonical decimal form of an integer from 0 to
   * 2^32 - 2 (no sign, no leading zero).
   */
  predicate IsArrayIndex(s: string) {
    && s != []
    && (forall i :: 0 <= i < |s| ==> '0' <= s[i] <= '9')
    && (s[0] != '0' || |s| == 1)
    && |s| <= 10
    && DecimalValue(s) < 0xFFFF_FFFF
  }

  function Filter<T>(p: T -> bool, s: seq<T>): (r: seq<T>)
    ensures forall i :: 0 <= i < |r| ==> p(r[i])
  {
    if s == [] then []
    else (if p(s[0]) then [s[0]] else []) + Filter(p, s[1..])
  }

  lemma {:induction false} FilterSplits<T>(p: T -> bool, q: T -> bool, s: seq<T>)
    requires forall x :: q(x) == !p(x)
    ensures multiset(Filter(p, s)) + multiset(Filter(q, s)) == multiset(s)
  {
    if s != [] {
      FilterSplits(p, q, s[1..]);
      assert s == [s[0]] + s[1..];
    }
  }

  function IndexOrder(a: string, b: string): real {
    DecimalValue(a) as real - DecimalValue(b) as real
  }

  function IndexKey(s: string): real {
    DecimalValue(s) as real
  }

  predicate NotArrayIndex(s: string) {
    !IsArrayIndex(s)
  }

  /** `Object.keys` of an object whose properties were created in the order `created`. */
  function ObjectKeys(created: seq<string>): (r: seq<string>)
    ensures multiset(r) == multiset(created)
  {
    FilterSplits(IsArrayIndex, NotArrayIndex, created);
    SortWith(Filter(IsArrayIndex, created), IndexOrder) + Filter(NotArrayIndex, created)
  }

  /**
   * `Object.keys` lists every property once (the function's own contract
   * says it lists exactly the properties), array indices first in
   * ascending numeric order, then the other keys in creation order.
   */
  lemma ObjectKeysOrder(created: seq<string>)
    requires NoDuplicates(created)
    ensures var r := ObjectKeys(created);
            var m := |Filter(IsArrayIndex, created)|;
            && NoDuplicates(r)
            && (forall i :: 0 <= i < |r| ==> (IsArrayIndex(r[i]) <==> i < m))
            && (forall i, j :: 0 <= i < j < m ==> DecimalValue(r[i]) <= DecimalValue(r[j]))
            && r[m..] == Filter(NotArrayIndex, created)
  {
    var indices := Filter(IsArrayIndex, created);
    var others := Filter(NotArrayIndex, created);
    var sorted := SortWith(indices, IndexOrder);
    var r := ObjectKeys(created);
    assert r == sorted + others;
    NoDuplicatesReordered(r, created);
    assert ComparesByKey(indices, IndexOrder, IndexKey);
    SortWithSorted(indices, IndexOrder, IndexKey);
    forall i | 0 <= i < |sorted| ensures IsArrayIndex(r[i]) {
      assert sorted[i] in multiset(indices);
    }
    assert r[|sorted|..] == others;
  }
}
