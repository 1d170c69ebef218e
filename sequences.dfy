// Sequence helpers shared by the views: first occurrence, the element order of a
// JavaScript `Set`, and `d3.max`.

module Sequences {
  import opened Common

  predicate NoDuplicates<T(==)>(s: seq<T>) {
    forall i, j :: 0 <= i < j < |s| ==> s[i] != s[j]
  }

  /** The index of the first occurrence of `x` in `s`. */
  function IndexOf<T(==)>(s: seq<T>, x: T): (i: nat)
    requires x in s
    ensures i < |s| && s[i] == x
    ensures forall j :: 0 <= j < i ==> s[j] != x
  {
    if s[0] == x then 0 else 1 + IndexOf(s[1..], x)
  }

  /**
   * The elements a `Set` built by adding the elements of `s` in order iterates:
   * each distinct element once, in order of first appearance.
   */
  function Distinct<T(==)>(s: seq<T>): (r: seq<T>)
    ensures forall i :: 0 <= i < |r| ==> r[i] in s
    ensures forall i :: 0 <= i < |s| ==> s[i] in r
    ensures NoDuplicates(r)
  {
    if s == [] then []
    else
      var d := Distinct(s[..|s| - 1]);
      var x := s[|s| - 1];
      if x in d then d else d + [x]
  }

  lemma {:induction false} IndexOfExtended<T>(p: seq<T>, x: T, y: T)
    requires y in p
    ensures IndexOf(p + [x], y) == IndexOf(p, y)
  {
    if p[0] != y {
      assert (p + [x])[1..] == p[1..] + [x];
      IndexOfExtended(p[1..], x, y);
    }
  }

  /** `Distinct` lists the elements in the order of their first occurrence in `s`. */
  lemma {:induction false} DistinctInFirstAppearanceOrder<T>(s: seq<T>)
    ensures forall i, j :: 0 <= i < j < |Distinct(s)| ==>
              IndexOf(s, Distinct(s)[i]) < IndexOf(s, Distinct(s)[j])
  {
    if s != [] {
      var p, x := s[..|s| - 1], s[|s| - 1];
      assert s == p + [x];
      var d := Distinct(p);
      DistinctInFirstAppearanceOrder(p);
      forall y | y in p ensures IndexOf(s, y) == IndexOf(p, y) {
        IndexOfExtended(p, x, y);
      }
      if x !in d {
        assert x !in p;
        assert IndexOf(s, x) == |p|;
      }
    }
  }

  /** Adding one more element to the set appends it unless it is already there. */
  lemma DistinctSnoc<T>(s: seq<T>, x: T)
    ensures Distinct(s + [x]) == (if x in Distinct(s) then Distinct(s) else Distinct(s) + [x])
  {
    assert (s + [x])[..|s|] == s;
  }

  lemma {:induction false} NoDuplicatesCount<T>(s: seq<T>, x: T)
    requires NoDuplicates(s)
    ensures multiset(s)[x] <= 1
  {
    if s != [] {
      assert s == [s[0]] + s[1..];
      NoDuplicatesCount(s[1..], x);
      if s[0] == x {
        assert x !in s[1..];
      }
    }
  }

  /** A reordering of a sequence without duplicates has none either. */
  lemma NoDuplicatesReordered<T>(a: seq<T>, b: seq<T>)
    requires multiset(a) == multiset(b) && NoDuplicates(b)
    ensures NoDuplicates(a)
  {
    forall i, j | 0 <= i < j < |a| ensures a[i] != a[j] {
      if a[i] == a[j] {
        var x := a[i];
        assert a == a[..j] + a[j..];
        assert a[..j][i] == x && a[j..][0] == x;
        assert multiset(a)[x] == multiset(a[..j])[x] + multiset(a[j..])[x];
        NoDuplicatesCount(b, x);
      }
    }
  }

  /** Adds the elements of `s` one by one to an insertion-ordered set and lists it. */
  method CollectDistinct<T(==)>(s: seq<T>) returns (r: seq<T>)
    ensures r == Distinct(s)
  {
    var seen: set<T> := {};
    r := [];
    for i := 0 to |s|
      invariant r == Distinct(s[..i])
      invariant forall x :: x in seen <==> x in r
    {
      assert s[..i + 1][..i] == s[..i];
      if s[i] !in seen {
        seen := seen + {s[i]};
        r := r + [s[i]];
      }
    }
    assert s[..|s|] == s;
  }

  /** `d3.max`: the largest element, or nothing for an empty sequence. */
  function MaxOf(s: seq<real>): (m: Option<real>)
    ensures m.None? <==> s == []
    ensures m.Some? ==> m.value in s && forall i :: 0 <= i < |s| ==> s[i] <= m.value
  {
    if s == [] then None
    else
      match MaxOf(s[1..])
      case None => Some(s[0])
      case Some(rest) => Some(if s[0] >= rest then s[0] else rest)
  }
}
