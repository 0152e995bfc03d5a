/**
 * The stable sort of `Array.prototype.sort` with a consistent comparator.
 * A comparator `cmp` is given here as `le(a, b)`, "a may stay before b",
 * that is `cmp(a, b) <= 0`. With a total preorder there is exactly one
 * sorted permutation that keeps equivalent elements in input order;
 * SortBy computes it by insertion.
 */
module Sorting {

  ghost predicate TotalPreorder<T(!new)>(le: (T, T) -> bool) {
    && (forall a, b :: le(a, b) || le(b, a))
    && (forall a, b, c :: le(a, b) && le(b, c) ==> le(a, c))
  }

  predicate Sorted<T>(s: seq<T>, le: (T, T) -> bool) {
    forall i, j :: 0 <= i < j < |s| ==> le(s[i], s[j])
  }

  /** `a` and `b` compare as equal. */
  predicate Equiv<T>(le: (T, T) -> bool, a: T, b: T) {
    le(a, b) && le(b, a)
  }

  /** The elements of `s` that compare equal to `z`, in the order of `s`. */
  function EquivFilter<T>(s: seq<T>, z: T, le: (T, T) -> bool): (r: seq<T>)
    ensures |r| <= |s|
    ensures forall y :: y in r ==> y in s && Equiv(le, y, z)
  {
    if s == [] then []
    else EquivFilter(s[..|s| - 1], z, le) + (if Equiv(le, s[|s| - 1], z) then [s[|s| - 1]] else [])
  }

  /** Inserts `x` after every element that may stay before it, scanning from the back. */
  function Insert<T>(x: T, s: seq<T>, le: (T, T) -> bool): (r: seq<T>)
    ensures |r| == |s| + 1
    ensures multiset(r) == multiset(s) + multiset{x}
  {
    if s == [] then [x]
    else if le(s[|s| - 1], x) then s + [x]
    else
      assert s == s[..|s| - 1] + [s[|s| - 1]];
      Insert(x, s[..|s| - 1], le) + [s[|s| - 1]]
  }

  /** Stable insertion sort: each element, in input order, is inserted into the sorted prefix. */
  function SortBy<T>(s: seq<T>, le: (T, T) -> bool): (r: seq<T>)
    ensures |r| == |s|
    ensures multiset(r) == multiset(s)
  {
    if s == [] then []
    else
      assert s == s[..|s| - 1] + [s[|s| - 1]];
      Insert(s[|s| - 1], SortBy(s[..|s| - 1], le), le)
  }

  lemma {:induction false} InsertSorted<T(!new)>(x: T, s: seq<T>, le: (T, T) -> bool)
    requires TotalPreorder(le)
    requires Sorted(s, le)
    ensures Sorted(Insert(x, s, le), le)
  {
    if s == [] {
    } else if le(s[|s| - 1], x) {
      var r := s + [x];
      forall i, j | 0 <= i < j < |r| ensures le(r[i], r[j]) {
        if j == |s| && i < |s| - 1 {
          assert le(s[i], s[|s| - 1]);
        }
      }
    } else {
      var s', y := s[..|s| - 1], s[|s| - 1];
      assert le(x, y);
      InsertSorted(x, s', le);
      var m := Insert(x, s', le);
      var r := m + [y];
      forall i, j | 0 <= i < j < |r| ensures le(r[i], r[j]) {
        if j == |m| {
          assert r[i] in multiset(s') + multiset{x} by {
            assert r[i] in multiset(m);
          }
          if r[i] != x {
            var k :| 0 <= k < |s'| && s'[k] == r[i];
            assert s[k] == r[i];
          }
        }
      }
    }
  }

  lemma {:induction false} SortBySorted<T(!new)>(s: seq<T>, le: (T, T) -> bool)
    requires TotalPreorder(le)
    ensures Sorted(SortBy(s, le), le)
  {
    if s != [] {
      SortBySorted(s[..|s| - 1], le);
      InsertSorted(s[|s| - 1], SortBy(s[..|s| - 1], le), le);
    }
  }

  lemma {:induction false} EquivFilterSnoc<T>(s: seq<T>, y: T, z: T, le: (T, T) -> bool)
    ensures EquivFilter(s + [y], z, le) == EquivFilter(s, z, le) + (if Equiv(le, y, z) then [y] else [])
  {
    assert (s + [y])[..|s|] == s;
  }

  lemma NotBothEquiv<T(!new)>(x: T, y: T, z: T, le: (T, T) -> bool)
    requires TotalPreorder(le)
    requires !le(y, x)
    ensures !(Equiv(le, x, z) && Equiv(le, y, z))
  {
  }

  lemma {:induction false} InsertEquivFilter<T(!new)>(x: T, s: seq<T>, z: T, le: (T, T) -> bool)
    requires TotalPreorder(le)
    ensures EquivFilter(Insert(x, s, le), z, le) == EquivFilter(s, z, le) + (if Equiv(le, x, z) then [x] else [])
  {
    if s == [] {
      EquivFilterSnoc([], x, z, le);
      assert [x] == [] + [x];
    } else if le(s[|s| - 1], x) {
      EquivFilterSnoc(s, x, z, le);
    } else {
      var s', y := s[..|s| - 1], s[|s| - 1];
      assert s == s' + [y];
      var cx := if Equiv(le, x, z) then [x] else [];
      var cy := if Equiv(le, y, z) then [y] else [];
      InsertEquivFilter(x, s', z, le);
      EquivFilterSnoc(Insert(x, s', le), y, z, le);
      EquivFilterSnoc(s', y, z, le);
      NotBothEquiv(x, y, z, le);
      var a := EquivFilter(s', z, le);
      if cx == [] {
        assert a + cx == a && (a + cy) + cx == a + cy;
      } else {
        assert (a + cx) + cy == a + cx && a + cy == a;
      }
    }
  }

  /** Stability: the elements comparing equal to any `z` keep their input order. */
  lemma {:induction false} SortByStable<T(!new)>(s: seq<T>, z: T, le: (T, T) -> bool)
    requires TotalPreorder(le)
    ensures EquivFilter(SortBy(s, le), z, le) == EquivFilter(s, z, le)
  {
    if s != [] {
      var s', y := s[..|s| - 1], s[|s| - 1];
      var sorted' := SortBy(s', le);
      SortByStable(s', z, le);
      InsertEquivFilter(y, sorted', z, le);
      assert SortBy(s, le) == Insert(y, sorted', le);
      assert EquivFilter(s, z, le) == EquivFilter(s', z, le) + (if Equiv(le, y, z) then [y] else []);
    }
  }

  lemma {:induction false} EquivFilterNone<T>(s: seq<T>, z: T, le: (T, T) -> bool)
    requires forall j :: 0 <= j < |s| ==> !Equiv(le, s[j], z)
    ensures EquivFilter(s, z, le) == []
  {
    if s != [] {
      EquivFilterNone(s[..|s| - 1], z, le);
    }
  }

  /** The first element comparing equal to `z` heads the filtered sequence. */
  lemma {:induction false} EquivFilterHead<T>(s: seq<T>, z: T, le: (T, T) -> bool, k: int)
    requires 0 <= k < |s| && Equiv(le, s[k], z)
    requires forall j :: 0 <= j < k ==> !Equiv(le, s[j], z)
    ensures |EquivFilter(s, z, le)| > 0 && EquivFilter(s, z, le)[0] == s[k]
  {
    var s', y := s[..|s| - 1], s[|s| - 1];
    if k == |s| - 1 {
      EquivFilterNone(s', z, le);
    } else {
      EquivFilterHead(s', z, le, k);
    }
  }

  /**
   * The sorted sequence starts with the first element, in input order, that
   * may stay before every element.
   */
  lemma {:induction false} SortByHead<T(!new)>(s: seq<T>, le: (T, T) -> bool, k: int)
    requires TotalPreorder(le)
    requires 0 <= k < |s|
    requires forall j :: 0 <= j < |s| ==> le(s[k], s[j])
    requires forall j :: 0 <= j < k ==> !le(s[j], s[k])
    ensures SortBy(s, le)[0] == s[k]
  {
    var r := SortBy(s, le);
    var z := s[k];
    SortBySorted(s, le);
    assert z in multiset(r);
    var i :| 0 <= i < |r| && r[i] == z;
    assert le(r[0], z) by {
      if i > 0 { assert le(r[0], r[i]); }
    }
    assert r[0] in multiset(s);
    var m :| 0 <= m < |s| && s[m] == r[0];
    assert le(z, r[0]);
    EquivFilterHead(s, z, le, k);
    EquivFilterHead(r, z, le, 0);
    SortByStable(s, z, le);
  }

  ghost predicate Distinct<T>(s: seq<T>) {
    forall i, j :: 0 <= i < j < |s| ==> s[i] != s[j]
  }

  lemma {:induction false} InsertDistinct<T>(x: T, s: seq<T>, le: (T, T) -> bool)
    requires Distinct(s) && x !in s
    ensures Distinct(Insert(x, s, le))
  {
    if s != [] && !le(s[|s| - 1], x) {
      var s', y := s[..|s| - 1], s[|s| - 1];
      InsertDistinct(x, s', le);
      var m := Insert(x, s', le);
      assert y !in multiset(m) by {
        assert y !in s';
        assert y != x;
      }
    }
  }

  /** Sorting never makes two positions hold the same element. */
  lemma {:induction false} SortByDistinct<T>(s: seq<T>, le: (T, T) -> bool)
    requires Distinct(s)
    ensures Distinct(SortBy(s, le))
  {
    if s != [] {
      var s', y := s[..|s| - 1], s[|s| - 1];
      SortByDistinct(s', le);
      assert y !in multiset(SortBy(s', le)) by {
        assert y !in s';
      }
      InsertDistinct(y, SortBy(s', le), le);
    }
  }
}
