/** `Array.prototype.map` over sequences, and how it treats permutations. */
module SeqUtil {

  /** `arr.map(f)`. */
  function Map<A, B>(arr: seq<A>, f: A -> B): (r: seq<B>)
    ensures |r| == |arr| && forall i :: 0 <= i < |arr| ==> r[i] == f(arr[i])
  {
    if arr == [] then [] else Map(arr[..|arr| - 1], f) + [f(arr[|arr| - 1])]
  }

  lemma MapAppend<A, B>(a: seq<A>, b: seq<A>, f: A -> B)
    ensures Map(a + b, f) == Map(a, f) + Map(b, f)
  {
  }

  /** Taking out the element at `k`. */
  function RemoveAt<A>(s: seq<A>, k: nat): seq<A>
    requires k < |s|
  {
    s[..k] + s[k + 1..]
  }

  lemma {:induction false} MultisetRemoveAt<A>(s: seq<A>, k: nat)
    requires k < |s|
    ensures multiset(RemoveAt(s, k)) == multiset(s) - multiset{s[k]}
  {
    assert s == s[..k] + [s[k]] + s[k + 1..];
  }

  lemma MapSlice<A, B>(s: seq<A>, lo: nat, hi: nat, f: A -> B)
    requires lo <= hi <= |s|
    ensures Map(s[lo..hi], f) == Map(s, f)[lo..hi]
  {
  }

  lemma {:induction false} MapRemoveAtSeq<A, B>(s: seq<A>, k: nat, f: A -> B)
    requires k < |s|
    ensures Map(RemoveAt(s, k), f) == RemoveAt(Map(s, f), k)
  {
    MapAppend(s[..k], s[k + 1..], f);
    MapSlice(s, 0, k, f);
    MapSlice(s, k + 1, |s|, f);
    assert s[..k] == s[0..k];
  }

  lemma {:induction false} MapRemoveAt<A, B>(s: seq<A>, k: nat, f: A -> B)
    requires k < |s|
    ensures multiset(Map(s, f)) == multiset(Map(RemoveAt(s, k), f)) + multiset{f(s[k])}
  {
    var m := Map(s, f);
    MapRemoveAtSeq(s, k, f);
    MultisetRemoveAt(m, k);
    var y := m[k];
    assert y == f(s[k]);
    assert y in multiset(m);
    var rest := multiset(m) - multiset{y};
    assert multiset(m) == rest + multiset{y};
  }

  /** Mapping a permutation gives a permutation of the mapped sequence. */
  lemma {:induction false} MapPermuted<A, B>(arr: seq<A>, other: seq<A>, f: A -> B)
    requires multiset(arr) == multiset(other)
    ensures multiset(Map(arr, f)) == multiset(Map(other, f))
  {
    if arr == [] {
      assert |other| == |multiset(other)| == 0;
    } else {
      var n := |arr| - 1;
      var x := arr[n];
      assert x in multiset(other);
      var k :| 0 <= k < |other| && other[k] == x;
      MultisetRemoveAt(arr, n);
      MultisetRemoveAt(other, k);
      assert RemoveAt(arr, n) == arr[..n];
      MapPermuted(arr[..n], RemoveAt(other, k), f);
      MapRemoveAt(arr, n, f);
      MapRemoveAt(other, k, f);
    }
  }
}
