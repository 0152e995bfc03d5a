/**
 * The array validators of the linked-account document
 * (src/models/linked-account.model.ts): saved clans and saved players are
 * accepted when no tag occurs twice, checked by comparing the size of the
 * set of tags with the number of entries.
 */
module LinkedAccount {
  import opened SeqUtil

  datatype SavedClan = SavedClan(name: string, tag: string, badge: string)
  datatype SavedPlayer = SavedPlayer(name: string, tag: string)

  /** The elements of `s` as a set, built element by element like `new Set(s)`. */
  function SetOf(s: seq<string>): (r: set<string>)
    ensures forall t :: t in r <==> t in s
  {
    if s == [] then {} else SetOf(s[..|s| - 1]) + {s[|s| - 1]}
  }

  /** `new Set(tags).size === tags.length`. */
  predicate NoDuplicateTags(tags: seq<string>) {
    |SetOf(tags)| == |tags|
  }

  /** No two positions hold the same tag. */
  predicate PairwiseDistinct(tags: seq<string>) {
    forall i, j :: 0 <= i < j < |tags| ==> tags[i] != tags[j]
  }

  lemma {:induction false} SetOfSize(s: seq<string>)
    ensures |SetOf(s)| <= |s|
    ensures |SetOf(s)| == |s| <==> PairwiseDistinct(s)
  {
    if s != [] {
      var s', t := s[..|s| - 1], s[|s| - 1];
      SetOfSize(s');
      DistinctSnoc(s', t);
      assert s == s' + [t];
      if t in s' {
        assert SetOf(s) == SetOf(s');
      } else {
        assert |SetOf(s)| == |SetOf(s')| + 1;
      }
    }
  }

  lemma {:induction false} DistinctSnoc(s: seq<string>, t: string)
    ensures PairwiseDistinct(s + [t]) <==> PairwiseDistinct(s) && t !in s
  {
    var r := s + [t];
    if PairwiseDistinct(r) {
      assert forall i, j :: 0 <= i < j < |s| ==> s[i] == r[i] && s[j] == r[j];
      assert forall i :: 0 <= i < |s| ==> s[i] == r[i] && r[i] != r[|s|];
    }
  }

  /** The size comparison accepts exactly the tag lists without a repeated tag. */
  lemma {:induction false} NoDuplicateTagsIsDistinct(tags: seq<string>)
    ensures NoDuplicateTags(tags) <==> PairwiseDistinct(tags)
  {
    SetOfSize(tags);
  }

  function ClanTag(c: SavedClan): string { c.tag }
  function PlayerTag(p: SavedPlayer): string { p.tag }

  /** The `savedClans` validator. */
  predicate SavedClansValid(arr: seq<SavedClan>) {
    NoDuplicateTags(Map(arr, ClanTag))
  }

  /** The `savedPlayers` validator. */
  predicate SavedPlayersValid(arr: seq<SavedPlayer>) {
    NoDuplicateTags(Map(arr, PlayerTag))
  }

  /** Saved clans are rejected exactly when two of them share a tag, whatever their names and badges. */
  lemma {:induction false} SavedClansValidIff(arr: seq<SavedClan>)
    ensures SavedClansValid(arr) <==> forall i, j :: 0 <= i < j < |arr| ==> arr[i].tag != arr[j].tag
  {
    NoDuplicateTagsIsDistinct(Map(arr, ClanTag));
  }

  /** Saved players are rejected exactly when two of them share a tag, whatever their names. */
  lemma {:induction false} SavedPlayersValidIff(arr: seq<SavedPlayer>)
    ensures SavedPlayersValid(arr) <==> forall i, j :: 0 <= i < j < |arr| ==> arr[i].tag != arr[j].tag
  {
    NoDuplicateTagsIsDistinct(Map(arr, PlayerTag));
  }

  /** Empty lists are valid. */
  lemma EmptyListsValid()
    ensures SavedClansValid([]) && SavedPlayersValid([])
  {
  }

  /** Two entries with one tag are rejected even when everything else differs. */
  lemma {:induction false} SameTagRejected(a: SavedClan, b: SavedClan, p: SavedPlayer, q: SavedPlayer)
    requires a.tag == b.tag && p.tag == q.tag
    ensures !SavedClansValid([a, b]) && !SavedPlayersValid([p, q])
  {
    SavedClansValidIff([a, b]);
    SavedPlayersValidIff([p, q]);
  }

  /** Validity depends on which tags occur and how often, not on their order. */
  lemma {:induction false} NoDuplicateTagsOrderFree(s: seq<string>, t: seq<string>)
    requires multiset(s) == multiset(t)
    ensures NoDuplicateTags(s) <==> NoDuplicateTags(t)
  {
    assert |s| == |multiset(s)| == |multiset(t)| == |t|;
    assert forall x :: x in s <==> x in t by {
      forall x ensures x in s <==> x in t {
        assert x in s <==> x in multiset(s);
        assert x in t <==> x in multiset(t);
      }
    }
    assert SetOf(s) == SetOf(t);
  }

  /** Reordering the saved clans does not change whether they are valid. */
  lemma {:induction false} SavedClansOrderFree(arr: seq<SavedClan>, other: seq<SavedClan>)
    requires multiset(arr) == multiset(other)
    ensures SavedClansValid(arr) <==> SavedClansValid(other)
  {
    MapPermuted(arr, other, ClanTag);
    NoDuplicateTagsOrderFree(Map(arr, ClanTag), Map(other, ClanTag));
  }

  /** Reordering the saved players does not change whether they are valid. */
  lemma {:induction false} SavedPlayersOrderFree(arr: seq<SavedPlayer>, other: seq<SavedPlayer>)
    requires multiset(arr) == multiset(other)
    ensures SavedPlayersValid(arr) <==> SavedPlayersValid(other)
  {
    MapPermuted(arr, other, PlayerTag);
    NoDuplicateTagsOrderFree(Map(arr, PlayerTag), Map(other, PlayerTag));
  }
}
