// `Array.prototype.sort` with a comparator, as the views call it. The
// runtime's sort is stable (ECMAScript 2019); the model is a stable insertion
// sort that reads the comparator the way the runtime does: a negative or zero
// answer keeps the earlier element first.

module Sorting {

  /** Inserts `x`, which comes before every element of `s` in the input, into `s`. */
  function Insert<T>(x: T, s: seq<T>, cmp: (T, T) -> real): (r: seq<T>)
    ensures |r| == |s| + 1 && multiset(r) == multiset(s) + multiset{x}
  {
    if s == [] || cmp(x, s[0]) <= 0.0 then [x] + s
    else
      assert s == [s[0]] + s[1..];
      [s[0]] + Insert(x, s[1..], cmp)
  }

  /** `s` sorted with comparator `cmp`. */
  function SortWith<T>(s: seq<T>, cmp: (T, T) -> real): (r: seq<T>)
    ensures |r| == |s| && multiset(r) == multiset(s)
  {
    if s == [] then []
    else
      assert s == [s[0]] + s[1..];
      Insert(s[0], SortWith(s[1..], cmp), cmp)
  }

  /** On the elements of `s`, `cmp(a, b)` is `key(a) - key(b)`: a consistent comparator. */
  ghost predicate ComparesByKey<T>(s: seq<T>, cmp: (T, T) -> real, key: T -> real) {
    forall a, b :: a in s && b in s ==> cmp(a, b) == key(a) - key(b)
  }

  predicate SortedByKey<T>(s: seq<T>, key: T -> real) {
    forall i, j :: 0 <= i < j < |s| ==> key(s[i]) <= key(s[j])
  }

  /** The elements of `s` whose key is `k`, in their order in `s`. */
  function WithKey<T>(s: seq<T>, key: T -> real, k: real): seq<T> {
    if s == [] then []
    else (if key(s[0]) == k then [s[0]] else []) + WithKey(s[1..], key, k)
  }

  lemma ConsSorted<T>(a: T, r: seq<T>, key: T -> real)
    requires SortedByKey(r, key)
    requires forall y :: y in r ==> key(a) <= key(y)
    ensures SortedByKey([a] + r, key)
  {
    forall i, j | 0 <= i < j < |[a] + r| ensures key(([a] + r)[i]) <= key(([a] + r)[j]) {
      assert ([a] + r)[j] == r[j - 1];
      if i > 0 {
        assert ([a] + r)[i] == r[i - 1];
      }
    }
  }

  lemma {:induction false} InsertSorted<T>(x: T, s: seq<T>, cmp: (T, T) -> real, key: T -> real)
    requires SortedByKey(s, key)
    requires forall i :: 0 <= i < |s| ==> cmp(x, s[i]) == key(x) - key(s[i])
    ensures SortedByKey(Insert(x, s, cmp), key)
  {
    if s == [] || cmp(x, s[0]) <= 0.0 {
      forall y | y in s ensures key(x) <= key(y) {
        var j :| 0 <= j < |s| && s[j] == y;
        assert key(s[0]) <= key(s[j]);
      }
      ConsSorted(x, s, key);
    } else {
      var tail := s[1..];
      assert SortedByKey(tail, key);
      assert forall i :: 0 <= i < |tail| ==> tail[i] == s[i + 1];
      InsertSorted(x, tail, cmp, key);
      var r := Insert(x, tail, cmp);
      forall y | y in r ensures key(s[0]) <= key(y) {
        assert y in multiset(r);
        if y != x {
          assert y in multiset(tail);
          var j :| 0 <= j < |tail| && tail[j] == y;
          assert s[j + 1] == y;
        }
      }
      ConsSorted(s[0], r, key);
    }
  }

  /** With a consistent comparator the sort orders by key. */
  lemma {:induction false} SortWithSorted<T>(s: seq<T>, cmp: (T, T) -> real, key: T -> real)
    requires ComparesByKey(s, cmp, key)
    ensures SortedByKey(SortWith(s, cmp), key)
  {
    if s != [] {
      var t := SortWith(s[1..], cmp);
      SortWithSorted(s[1..], cmp, key);
      forall i | 0 <= i < |t| ensures cmp(s[0], t[i]) == key(s[0]) - key(t[i]) {
        assert t[i] in multiset(t);
      }
      InsertSorted(s[0], t, cmp, key);
    }
  }

  lemma WithKeyCons<T>(a: T, r: seq<T>, key: T -> real, k: real)
    ensures WithKey([a] + r, key, k) == (if key(a) == k then [a] else []) + WithKey(r, key, k)
  {
    assert ([a] + r)[1..] == r;
  }

  lemma {:induction false} InsertStable<T>(x: T, s: seq<T>, cmp: (T, T) -> real, key: T -> real, k: real)
    requires forall i :: 0 <= i < |s| ==> cmp(x, s[i]) == key(x) - key(s[i])
    ensures WithKey(Insert(x, s, cmp), key, k)
         == (if key(x) == k then [x] else []) + WithKey(s, key, k)
  {
    if s == [] || cmp(x, s[0]) <= 0.0 {
      WithKeyCons(x, s, key, k);
    } else {
      var tail := s[1..];
      var r := Insert(x, tail, cmp);
      assert Insert(x, s, cmp) == [s[0]] + r;
      assert forall i :: 0 <= i < |tail| ==> tail[i] == s[i + 1];
      InsertStable(x, tail, cmp, key, k);
      WithKeyCons(s[0], r, key, k);
      assert s == [s[0]] + tail;
      WithKeyCons(s[0], tail, key, k);
      var w := WithKey(tail, key, k);
      // `x` went past `s[0]`, so at most one of the two has key `k`.
      assert key(s[0]) < key(x);
      if key(x) == k {
        assert WithKey(Insert(x, s, cmp), key, k) == [] + ([x] + w) == [x] + w;
        assert WithKey(s, key, k) == [] + w == w;
      } else {
        var s0 := if key(s[0]) == k then [s[0]] else [];
        assert WithKey(Insert(x, s, cmp), key, k) == s0 + ([] + w) == s0 + w;
      }
    }
  }

  /** With a consistent comparator the sort is stable: elements with equal keys keep their input order. */
  lemma {:induction false} SortWithStable<T>(s: seq<T>, cmp: (T, T) -> real, key: T -> real, k: real)
    requires ComparesByKey(s, cmp, key)
    ensures WithKey(SortWith(s, cmp), key, k) == WithKey(s, key, k)
  {
    if s != [] {
      var t := SortWith(s[1..], cmp);
      SortWithStable(s[1..], cmp, key, k);
      forall i | 0 <= i < |t| ensures cmp(s[0], t[i]) == key(s[0]) - key(t[i]) {
        assert t[i] in multiset(t);
      }
      InsertStable(s[0], t, cmp, key, k);
    }
  }

  /** `s.map(f)`. */
  function MapSeq<A, B>(f: A -> B, s: seq<A>): (r: seq<B>)
    ensures |r| == |s| && forall i :: 0 <= i < |s| ==> r[i] == f(s[i])
  {
    if s == [] then [] else [f(s[0])] + MapSeq(f, s[1..])
  }

  lemma {:induction false} InsertMap<A, B>(f: A -> B, x: A, s: seq<A>, cmpA: (A, A) -> real, cmpB: (B, B) -> real)
    requires forall i :: 0 <= i < |s| ==> cmpB(f(x), f(s[i])) == cmpA(x, s[i])
    ensures Insert(f(x), MapSeq(f, s), cmpB) == MapSeq(f, Insert(x, s, cmpA))
  {
    if s != [] && cmpA(x, s[0]) > 0.0 {
      var fs := MapSeq(f, s);
      assert fs[1..] == MapSeq(f, s[1..]);
      InsertMap(f, x, s[1..], cmpA, cmpB);
      var r := Insert(x, s[1..], cmpA);
      assert MapSeq(f, [s[0]] + r) == [f(s[0])] + MapSeq(f, r);
    }
  }

  /**
   * Sorting the images of `s` under `f` with a comparator that agrees with
   * `cmpA` on them lists them in the order of `s` sorted with `cmpA`.
   */
  lemma {:induction false} SortWithMap<A, B>(f: A -> B, s: seq<A>, cmpA: (A, A) -> real, cmpB: (B, B) -> real)
    requires forall a, b :: a in s && b in s ==> cmpB(f(a), f(b)) == cmpA(a, b)
    ensures SortWith(MapSeq(f, s), cmpB) == MapSeq(f, SortWith(s, cmpA))
  {
    if s != [] {
      var fs := MapSeq(f, s);
      assert fs[1..] == MapSeq(f, s[1..]);
      SortWithMap(f, s[1..], cmpA, cmpB);
      var t := SortWith(s[1..], cmpA);
      forall i | 0 <= i < |t| ensures cmpB(f(s[0]), f(t[i])) == cmpA(s[0], t[i]) {
        assert t[i] in multiset(t);
      }
      InsertMap(f, s[0], t, cmpA, cmpB);
    }
  }

  /** `a.sort(cmp)`: reorders the array in place. */
  method SortInPlace<T>(a: array<T>, cmp: (T, T) -> real)
    modifies a
    ensures a[..] == SortWith(old(a[..]), cmp)
  {
    var sorted := SortWith(a[..], cmp);
    forall i | 0 <= i < a.Length {
      a[i] := sorted[i];
    }
  }
}
