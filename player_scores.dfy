/**
 * A player's daily scores (src/controllers/player/get-player-scores.ts):
 * three nested loops collect the player's daily-tracking entries from the
 * fetched clans into a dictionary keyed `season-week`; then every group is
 * sorted by day and the groups by key, descending.
 *
 * The dictionary is a JavaScript object: its entries come out in the order
 * the keys were first inserted, so it is modelled as that key order plus a
 * map. `localeCompare` is modelled as plain lexicographic order by character
 * code (Text.LexLe).
 */
module PlayerScores {
  import opened Wrappers
  import opened Text
  import opened Sorting
  import opened SeqUtil
  import Format

  datatype Score = Score(attacks: int, fame: int, missed: bool, name: string, tag: string)
  datatype DailyTracking = DailyTracking(day: int, scores: seq<Score>, season: int, week: int)
  /** A clan document with the projected `dailyTracking` field, which may be missing. */
  datatype PlusClan = PlusClan(tag: string, dailyTracking: Option<seq<DailyTracking>>)
  /** A score copied with the day, season and week of its tracking entry. */
  datatype Entry = Entry(score: Score, day: int, season: int, week: int)

  type Group = (string, seq<Entry>)

  /** The template `${season}-${week}`. */
  function WeekKey(season: int, week: int): string {
    IntToString(season) + "-" + IntToString(week)
  }

  function KeyOf(e: Entry): string {
    WeekKey(e.season, e.week)
  }

  /** `c?.dailyTracking || []`. */
  function TrackingOf(c: PlusClan): seq<DailyTracking> {
    c.dailyTracking.GetOr([])
  }

  ghost predicate CopiedFrom(e: Entry, d: DailyTracking) {
    e.score in d.scores && e.day == d.day && e.season == d.season && e.week == d.week
  }

  /** The innermost loop: the entries made from the scores `ss` of tracking entry `d`. */
  function MatchScores(d: DailyTracking, ss: seq<Score>, tag: string): seq<Entry> {
    if ss == [] then []
    else
      var s := ss[|ss| - 1];
      MatchScores(d, ss[..|ss| - 1], tag) + (if s.tag == tag then [Entry(s, d.day, d.season, d.week)] else [])
  }

  /** The middle loop, over one clan's tracking entries. */
  function MatchDays(ds: seq<DailyTracking>, tag: string): seq<Entry> {
    if ds == [] then []
    else
      var d := ds[|ds| - 1];
      MatchDays(ds[..|ds| - 1], tag) + MatchScores(d, d.scores, tag)
  }

  /** All entries the three loops push, in the order they push them. */
  function MatchClans(cs: seq<PlusClan>, tag: string): seq<Entry> {
    if cs == [] then []
    else
      var c := cs[|cs| - 1];
      MatchClans(cs[..|cs| - 1], tag) + MatchDays(TrackingOf(c), tag)
  }

  /** The entry made for score `s` of tracking entry `d`. */
  function EntryOf(d: DailyTracking, s: Score): (e: Entry)
    ensures e.score == s && (s in d.scores ==> CopiedFrom(e, d))
  {
    Entry(s, d.day, d.season, d.week)
  }

  /** Exactly the player's scores of one tracking entry become entries. */
  lemma {:induction false} MatchScoresExact(d: DailyTracking, ss: seq<Score>, tag: string, e: Entry)
    ensures e in MatchScores(d, ss, tag) <==> exists s :: s in ss && s.tag == tag && e == EntryOf(d, s)
  {
    if ss != [] {
      var ss', s := ss[..|ss| - 1], ss[|ss| - 1];
      MatchScoresExact(d, ss', tag, e);
      assert ss == ss' + [s];
      if exists x :: x in ss && x.tag == tag && e == EntryOf(d, x) {
        var x :| x in ss && x.tag == tag && e == EntryOf(d, x);
        if x != s {
          assert x in ss';
        }
      }
    }
  }

  /** Exactly the player's scores of one clan's tracking entries become entries. */
  lemma {:induction false} MatchDaysExact(ds: seq<DailyTracking>, tag: string, e: Entry)
    ensures e in MatchDays(ds, tag) <==>
      exists d, s :: d in ds && s in d.scores && s.tag == tag && e == EntryOf(d, s)
  {
    if ds != [] {
      var ds', d := ds[..|ds| - 1], ds[|ds| - 1];
      MatchDaysExact(ds', tag, e);
      MatchScoresExact(d, d.scores, tag, e);
      assert ds == ds' + [d];
      if exists d', s :: d' in ds && s in d'.scores && s.tag == tag && e == EntryOf(d', s) {
        var d', s :| d' in ds && s in d'.scores && s.tag == tag && e == EntryOf(d', s);
        if d' != d {
          assert d' in ds';
        }
      }
    }
  }

  /**
   * The loops push one entry for every score carrying the player's tag, in
   * any tracking entry of any clan, and no other entry.
   */
  lemma {:induction false} MatchClansExact(cs: seq<PlusClan>, tag: string, e: Entry)
    ensures e in MatchClans(cs, tag) <==>
      exists c, d, s :: c in cs && d in TrackingOf(c) && s in d.scores && s.tag == tag && e == EntryOf(d, s)
  {
    if cs != [] {
      var cs', c := cs[..|cs| - 1], cs[|cs| - 1];
      MatchClansExact(cs', tag, e);
      MatchDaysExact(TrackingOf(c), tag, e);
      assert cs == cs' + [c];
      if exists c', d, s :: c' in cs && d in TrackingOf(c') && s in d.scores && s.tag == tag && e == EntryOf(d, s) {
        var c', d, s :| c' in cs && d in TrackingOf(c') && s in d.scores && s.tag == tag && e == EntryOf(d, s);
        if c' != c {
          assert c' in cs';
        }
      }
    }
  }

  /** The week key of every entry, in order. */
  function Keys(es: seq<Entry>): (ks: seq<string>)
    ensures |ks| == |es|
    ensures forall i :: 0 <= i < |es| ==> ks[i] == KeyOf(es[i])
  {
    Map(es, KeyOf)
  }

  /** The entries of `es` under key `k`, in order: the reference for one group. */
  function FilterKey(es: seq<Entry>, k: string): (r: seq<Entry>)
    ensures forall e :: e in r ==> e in es && KeyOf(e) == k
  {
    if es == [] then []
    else
      var e := es[|es| - 1];
      FilterKey(es[..|es| - 1], k) + (if KeyOf(e) == k then [e] else [])
  }

  /** The dictionary the loops build: push onto an existing group or create it. */
  function GroupBy(es: seq<Entry>): map<string, seq<Entry>> {
    if es == [] then map[]
    else
      var g, k := GroupBy(es[..|es| - 1]), KeyOf(es[|es| - 1]);
      g[k := (if k in g then g[k] else []) + [es[|es| - 1]]]
  }

  /** The order in which the dictionary's keys were first inserted. */
  function KeyOrder(es: seq<Entry>): seq<string> {
    if es == [] then []
    else
      var ks, k := KeyOrder(es[..|es| - 1]), KeyOf(es[|es| - 1]);
      if k in ks then ks else ks + [k]
  }

  lemma {:induction false} Snoc(es: seq<Entry>, e: Entry)
    ensures KeyOf(e) in GroupBy(es) ==>
      GroupBy(es + [e]) == GroupBy(es)[KeyOf(e) := GroupBy(es)[KeyOf(e)] + [e]]
    ensures KeyOf(e) !in GroupBy(es) ==> GroupBy(es + [e]) == GroupBy(es)[KeyOf(e) := [e]]
    ensures KeyOrder(es + [e]) ==
      if KeyOf(e) in KeyOrder(es) then KeyOrder(es) else KeyOrder(es) + [KeyOf(e)]
    ensures Keys(es + [e]) == Keys(es) + [KeyOf(e)]
    ensures FilterKey(es + [e], KeyOf(e)) == FilterKey(es, KeyOf(e)) + [e]
  {
    assert (es + [e])[..|es|] == es;
    var g, k := GroupBy(es), KeyOf(e);
    if k !in g {
      assert GroupBy(es + [e]) == g[k := [] + [e]];
      assert [] + [e] == [e];
    }
  }

  /**
   * The dictionary has key `k` exactly when some entry is of week `k`, and
   * its value there is that week's entries in push order, never empty.
   */
  lemma {:induction false} GroupByAt(es: seq<Entry>, k: string)
    ensures k in GroupBy(es) <==> k in Keys(es)
    ensures k in GroupBy(es) ==> GroupBy(es)[k] == FilterKey(es, k) && GroupBy(es)[k] != []
    ensures k !in GroupBy(es) ==> FilterKey(es, k) == []
  {
    if es != [] {
      var es', e := es[..|es| - 1], es[|es| - 1];
      GroupByAt(es', k);
      var g := GroupBy(es');
      assert Keys(es) == Keys(es') + [KeyOf(e)];
      if k == KeyOf(e) {
        assert GroupBy(es)[k] == (if k in g then g[k] else []) + [e];
        assert FilterKey(es, k) == FilterKey(es', k) + [e];
      } else {
        assert GroupBy(es) == g[KeyOf(e) := (if KeyOf(e) in g then g[KeyOf(e)] else []) + [e]];
        assert FilterKey(es, k) == FilterKey(es', k) + [];
      }
    }
  }

  lemma {:induction false} GroupByIsFilter(es: seq<Entry>)
    ensures forall k :: k in GroupBy(es) <==> k in Keys(es)
    ensures forall k :: k in GroupBy(es) ==> GroupBy(es)[k] == FilterKey(es, k) && GroupBy(es)[k] != []
  {
    forall k ensures k in GroupBy(es) <==> k in Keys(es) {
      GroupByAt(es, k);
    }
    forall k | k in GroupBy(es) ensures GroupBy(es)[k] == FilterKey(es, k) && GroupBy(es)[k] != [] {
      GroupByAt(es, k);
    }
  }

  lemma {:induction false} KeyOrderAt(es: seq<Entry>, k: string)
    ensures k in KeyOrder(es) <==> k in Keys(es)
  {
    if es != [] {
      KeyOrderAt(es[..|es| - 1], k);
      assert Keys(es) == Keys(es[..|es| - 1]) + [KeyOf(es[|es| - 1])];
    }
  }

  /** Every key of the key order names a group of the dictionary. */
  lemma {:induction false} KeyOrderInGroupBy(es: seq<Entry>)
    ensures forall k :: k in KeyOrder(es) ==> k in GroupBy(es)
  {
    forall k | k in KeyOrder(es) ensures k in GroupBy(es) {
      KeyOrderAt(es, k);
      GroupByAt(es, k);
    }
  }

  /** The key order lists each week met exactly once. */
  lemma {:induction false} KeyOrderDistinct(es: seq<Entry>)
    ensures Distinct(KeyOrder(es))
  {
    if es != [] {
      KeyOrderDistinct(es[..|es| - 1]);
    }
  }

  /** `if (weekKey in scores) scores[weekKey].push(entry) else scores[weekKey] = [entry]`. */
  method Push(keys0: seq<string>, scores0: map<string, seq<Entry>>, entry: Entry, ghost done: seq<Entry>)
    returns (keys: seq<string>, scores: map<string, seq<Entry>>)
    requires keys0 == KeyOrder(done) && scores0 == GroupBy(done)
    ensures keys == KeyOrder(done + [entry]) && scores == GroupBy(done + [entry])
  {
    var weekKey := KeyOf(entry);
    Snoc(done, entry);
    GroupByAt(done, weekKey);
    KeyOrderAt(done, weekKey);
    keys, scores := keys0, scores0;
    if weekKey in scores {
      scores := scores[weekKey := scores[weekKey] + [entry]];
    } else {
      scores := scores[weekKey := [entry]];
      keys := keys + [weekKey];
    }
  }

  /** The innermost loop, over the scores of one tracking entry. */
  method CollectDay(d: DailyTracking, tag: string, keys0: seq<string>, scores0: map<string, seq<Entry>>, ghost done: seq<Entry>)
    returns (keys: seq<string>, scores: map<string, seq<Entry>>)
    requires keys0 == KeyOrder(done) && scores0 == GroupBy(done)
    ensures keys == KeyOrder(done + MatchScores(d, d.scores, tag))
    ensures scores == GroupBy(done + MatchScores(d, d.scores, tag))
  {
    keys, scores := keys0, scores0;
    assert done + MatchScores(d, d.scores[..0], tag) == done;
    var k := 0;
    while k < |d.scores|
      invariant 0 <= k <= |d.scores|
      invariant keys == KeyOrder(done + MatchScores(d, d.scores[..k], tag))
      invariant scores == GroupBy(done + MatchScores(d, d.scores[..k], tag))
    {
      var s := d.scores[k];
      ghost var m := MatchScores(d, d.scores[..k], tag);
      MatchScoresStep(d, tag, k);
      if s.tag == tag {
        var entry := Entry(s, d.day, d.season, d.week);
        keys, scores := Push(keys, scores, entry, done + m);
        AppendAssoc(done, m, [entry]);
      } else {
        assert m + [] == m;
      }
      k := k + 1;
    }
    assert d.scores[..k] == d.scores;
  }

  lemma MatchScoresStep(d: DailyTracking, tag: string, k: nat)
    requires k < |d.scores|
    ensures MatchScores(d, d.scores[..k + 1], tag) == MatchScores(d, d.scores[..k], tag)
      + (if d.scores[k].tag == tag then [Entry(d.scores[k], d.day, d.season, d.week)] else [])
  {
    assert d.scores[..k + 1][..k] == d.scores[..k];
  }

  lemma AppendAssoc(a: seq<Entry>, b: seq<Entry>, c: seq<Entry>)
    ensures a + (b + c) == (a + b) + c
  {
  }

  /** The middle loop, over the tracking entries of one clan. */
  method CollectClan(days: seq<DailyTracking>, tag: string, keys0: seq<string>, scores0: map<string, seq<Entry>>, ghost done: seq<Entry>)
    returns (keys: seq<string>, scores: map<string, seq<Entry>>)
    requires keys0 == KeyOrder(done) && scores0 == GroupBy(done)
    ensures keys == KeyOrder(done + MatchDays(days, tag))
    ensures scores == GroupBy(done + MatchDays(days, tag))
  {
    keys, scores := keys0, scores0;
    assert done + MatchDays(days[..0], tag) == done;
    var j := 0;
    while j < |days|
      invariant 0 <= j <= |days|
      invariant keys == KeyOrder(done + MatchDays(days[..j], tag))
      invariant scores == GroupBy(done + MatchDays(days[..j], tag))
    {
      ghost var sofar := done + MatchDays(days[..j], tag);
      keys, scores := CollectDay(days[j], tag, keys, scores, sofar);
      assert days[..j + 1][..j] == days[..j];
      ghost var m, n := MatchDays(days[..j], tag), MatchScores(days[j], days[j].scores, tag);
      assert MatchDays(days[..j + 1], tag) == m + n;
      AppendAssoc(done, m, n);
      j := j + 1;
    }
    assert days[..j] == days;
  }

  /**
   * The three nested loops over clans, tracking entries and scores: every
   * score of the player becomes an entry pushed onto its week's group, and a
   * new key is created the first time a week is met.
   */
  method CollectScores(clans: seq<PlusClan>, tag: string) returns (keys: seq<string>, scores: map<string, seq<Entry>>)
    ensures keys == KeyOrder(MatchClans(clans, tag))
    ensures scores == GroupBy(MatchClans(clans, tag))
  {
    keys, scores := [], map[];
    assert MatchClans(clans[..0], tag) == [];
    var i := 0;
    while i < |clans|
      invariant 0 <= i <= |clans|
      invariant keys == KeyOrder(MatchClans(clans[..i], tag))
      invariant scores == GroupBy(MatchClans(clans[..i], tag))
    {
      ghost var sofar := MatchClans(clans[..i], tag);
      keys, scores := CollectClan(TrackingOf(clans[i]), tag, keys, scores, sofar);
      assert clans[..i + 1][..i] == clans[..i];
      assert MatchClans(clans[..i + 1], tag) == sofar + MatchDays(TrackingOf(clans[i]), tag);
      i := i + 1;
    }
    assert clans[..i] == clans;
  }

  /** `(a, b) => a.day - b.day`: entries ordered by day. */
  const ByDay: (Entry, Entry) -> bool := (a: Entry, b: Entry) => a.day <= b.day

  /** `([a], [b]) => b.localeCompare(a)`: groups ordered by key, descending. */
  const ByKeyDescending: (Group, Group) -> bool := (p: Group, q: Group) => LexLe(q.0, p.0)

  lemma ByDayIsPreorder()
    ensures TotalPreorder(ByDay)
  {
  }

  lemma {:induction false} ByKeyDescendingIsPreorder()
    ensures TotalPreorder(ByKeyDescending)
  {
    forall p: Group, q: Group ensures ByKeyDescending(p, q) || ByKeyDescending(q, p) {
      LexLeTotal(p.0, q.0);
    }
    forall p: Group, q: Group, r: Group | ByKeyDescending(p, q) && ByKeyDescending(q, r)
      ensures ByKeyDescending(p, r)
    {
      LexLeTransitive(r.0, q.0, p.0);
    }
  }

  /** `Object.entries(scores).map(([key, entries]) => [key, entries.sort(byDay)])`. */
  function SortedGroups(keys: seq<string>, scores: map<string, seq<Entry>>): (r: seq<Group>)
    requires forall k :: k in keys ==> k in scores
    ensures |r| == |keys|
    ensures forall i :: 0 <= i < |keys| ==> r[i] == (keys[i], SortBy(scores[keys[i]], ByDay))
  {
    if keys == [] then []
    else [(keys[0], SortBy(scores[keys[0]], ByDay))] + SortedGroups(keys[1..], scores)
  }

  /** The response body for a player whose tag is given in any spelling. */
  function ScoresResponse(clans: seq<PlusClan>, tag: string): seq<Group> {
    Response(MatchClans(clans, Format.FormatTag(tag, true)))
  }

  /** The groups built from the player's entries, one per week in first-seen order, sorted by week descending. */
  function Response(es: seq<Entry>): seq<Group> {
    KeyOrderInGroupBy(es);
    SortBy(SortedGroups(KeyOrder(es), GroupBy(es)), ByKeyDescending)
  }

  /** GET /:tag/scores once the clans holding the player are fetched. */
  method GetPlayerScores(clans: seq<PlusClan>, tag: string) returns (data: seq<Group>)
    ensures data == ScoresResponse(clans, tag)
  {
    var formattedTag := Format.FormatTag(tag, true);
    var keys, scores := CollectScores(clans, formattedTag);
    KeyOrderInGroupBy(MatchClans(clans, formattedTag));
    var entries := SortedGroups(keys, scores);
    data := SortBy(entries, ByKeyDescending);
  }

  /** How many entries the groups hold together. */
  function TotalEntries(gs: seq<Group>): nat {
    if gs == [] then 0 else TotalEntries(gs[..|gs| - 1]) + |gs[|gs| - 1].1|
  }

  lemma {:induction false} TotalEntriesInsert(x: Group, gs: seq<Group>, le: (Group, Group) -> bool)
    ensures TotalEntries(Insert(x, gs, le)) == TotalEntries(gs) + |x.1|
  {
    if gs != [] && !le(gs[|gs| - 1], x) {
      var gs', y := gs[..|gs| - 1], gs[|gs| - 1];
      TotalEntriesInsert(x, gs', le);
      assert (Insert(x, gs', le) + [y])[..|gs|] == Insert(x, gs', le);
    } else if gs != [] {
      assert (gs + [x])[..|gs|] == gs;
    }
  }

  lemma {:induction false} TotalEntriesSortBy(gs: seq<Group>, le: (Group, Group) -> bool)
    ensures TotalEntries(SortBy(gs, le)) == TotalEntries(gs)
  {
    if gs != [] {
      TotalEntriesSortBy(gs[..|gs| - 1], le);
      TotalEntriesInsert(gs[|gs| - 1], SortBy(gs[..|gs| - 1], le), le);
    }
  }

  /** The sizes of the groups named by `keys`, added up. */
  function GroupSizes(keys: seq<string>, g: map<string, seq<Entry>>): nat
    requires forall k :: k in keys ==> k in g
  {
    if keys == [] then 0 else GroupSizes(keys[..|keys| - 1], g) + |g[keys[|keys| - 1]]|
  }

  lemma {:induction false} GroupSizesUpdate(keys: seq<string>, g: map<string, seq<Entry>>, k: string, v: seq<Entry>)
    requires forall k' :: k' in keys ==> k' in g
    requires Distinct(keys)
    ensures k in keys ==> GroupSizes(keys, g[k := v]) + |g[k]| == GroupSizes(keys, g) + |v|
    ensures k !in keys ==> GroupSizes(keys, g[k := v]) == GroupSizes(keys, g)
  {
    if keys != [] {
      var keys' := keys[..|keys| - 1];
      assert Distinct(keys');
      GroupSizesUpdate(keys', g, k, v);
    }
  }

  lemma {:induction false} GroupSizesAppend(keys: seq<string>, g: map<string, seq<Entry>>, k: string)
    requires forall k' :: k' in keys ==> k' in g
    requires k in g
    ensures GroupSizes(keys + [k], g) == GroupSizes(keys, g) + |g[k]|
  {
    assert (keys + [k])[..|keys|] == keys;
  }

  /** The groups together hold every entry exactly once. */
  lemma {:induction false} GroupSizesCount(es: seq<Entry>)
    ensures forall k :: k in KeyOrder(es) ==> k in GroupBy(es)
    ensures GroupSizes(KeyOrder(es), GroupBy(es)) == |es|
  {
    KeyOrderInGroupBy(es);
    if es != [] {
      GroupSizesCount(es[..|es| - 1]);
      GroupSizesStep(es, es[..|es| - 1]);
    }
  }

  /** The last entry adds one to the size of exactly one group. */
  lemma {:induction false} GroupSizesStep(es: seq<Entry>, es': seq<Entry>)
    requires es != [] && es' == es[..|es| - 1]
    requires forall k :: k in KeyOrder(es') ==> k in GroupBy(es')
    ensures forall k :: k in KeyOrder(es) ==> k in GroupBy(es)
    ensures GroupSizes(KeyOrder(es), GroupBy(es)) == GroupSizes(KeyOrder(es'), GroupBy(es')) + 1
  {
    KeyOrderInGroupBy(es);
    var e := es[|es| - 1];
    KeyOrderDistinct(es');
    var g, ks, k := GroupBy(es'), KeyOrder(es'), KeyOf(e);
    GroupByAt(es', k);
    KeyOrderAt(es', k);
    if k in ks {
      assert GroupBy(es) == g[k := g[k] + [e]] && KeyOrder(es) == ks;
      GroupSizesUpdate(ks, g, k, g[k] + [e]);
    } else {
      assert k !in g;
      assert [] + [e] == [e];
      assert GroupBy(es) == g[k := [e]] && KeyOrder(es) == ks + [k];
      GroupSizesUpdate(ks, g, k, [e]);
      GroupSizesAppend(ks, g[k := [e]], k);
    }
  }

  lemma {:induction false} TotalEntriesSortedGroups(keys: seq<string>, g: map<string, seq<Entry>>)
    requires forall k :: k in keys ==> k in g
    ensures TotalEntries(SortedGroups(keys, g)) == GroupSizes(keys, g)
  {
    if keys != [] {
      var keys' := keys[..|keys| - 1];
      TotalEntriesSortedGroups(keys', g);
      var r := SortedGroups(keys, g);
      assert r[..|keys| - 1] == SortedGroups(keys', g);
    }
  }

  /** Each group of the response is the one built for some key of the dictionary. */
  lemma {:induction false} ResponseGroupOrigin(es: seq<Entry>, i: nat) returns (j: nat)
    requires forall k :: k in KeyOrder(es) ==> k in GroupBy(es)
    requires i < |SortBy(SortedGroups(KeyOrder(es), GroupBy(es)), ByKeyDescending)|
    ensures j < |KeyOrder(es)|
    ensures SortBy(SortedGroups(KeyOrder(es), GroupBy(es)), ByKeyDescending)[i]
      == (KeyOrder(es)[j], SortBy(GroupBy(es)[KeyOrder(es)[j]], ByDay))
  {
    var gs := SortedGroups(KeyOrder(es), GroupBy(es));
    var out := SortBy(gs, ByKeyDescending);
    assert out[i] in multiset(gs) by {
      assert out[i] in multiset(out);
    }
    var a :| 0 <= a < |gs| && gs[a] == out[i];
    j := a;
  }

  /**
   * Every group of the response is one week's entries of the player: its key
   * is the week of each entry, it is not empty, and it is that week's entries
   * in push order, stably sorted by day.
   */
  lemma {:induction false} ResponseGroups(clans: seq<PlusClan>, tag: string, i: nat)
    requires i < |ScoresResponse(clans, tag)|
    ensures var es := MatchClans(clans, Format.FormatTag(tag, true));
      var (k, group) := ScoresResponse(clans, tag)[i];
      && k in Keys(es)
      && group == SortBy(FilterKey(es, k), ByDay)
      && group != []
      && forall e :: e in group ==> KeyOf(e) == k && e.score.tag == Format.FormatTag(tag, true)
  {
    var es := MatchClans(clans, Format.FormatTag(tag, true));
    KeyOrderInGroupBy(es);
    var j := ResponseGroupOrigin(es, i);
    var k := KeyOrder(es)[j];
    GroupByAt(es, k);
    var group := ScoresResponse(clans, tag)[i].1;
    assert group == SortBy(FilterKey(es, k), ByDay);
    forall e | e in group ensures KeyOf(e) == k && e.score.tag == Format.FormatTag(tag, true) {
      assert e in multiset(FilterKey(es, k)) by {
        assert e in multiset(group);
      }
      MatchClansExact(clans, Format.FormatTag(tag, true), e);
    }
  }

  /** Within a group, entries are in non-decreasing day order, equal days in push order. */
  lemma {:induction false} GroupsSortedByDayStably(clans: seq<PlusClan>, tag: string, i: nat, z: Entry)
    requires i < |ScoresResponse(clans, tag)|
    ensures var es := MatchClans(clans, Format.FormatTag(tag, true));
      var (k, group) := ScoresResponse(clans, tag)[i];
      && Sorted(group, ByDay)
      && EquivFilter(group, z, ByDay) == EquivFilter(FilterKey(es, k), z, ByDay)
  {
    ResponseGroups(clans, tag, i);
    var es := MatchClans(clans, Format.FormatTag(tag, true));
    var k := ScoresResponse(clans, tag)[i].0;
    ByDayIsPreorder();
    SortBySorted(FilterKey(es, k), ByDay);
    SortByStable(FilterKey(es, k), z, ByDay);
  }

  /** The keys of the response are strictly descending. */
  lemma {:induction false} ResponseKeysDescending(clans: seq<PlusClan>, tag: string)
    ensures var out := ScoresResponse(clans, tag);
      forall i, j :: 0 <= i < j < |out| ==> out[j].0 != out[i].0 && LexLe(out[j].0, out[i].0)
  {
    var es := MatchClans(clans, Format.FormatTag(tag, true));
    assert ScoresResponse(clans, tag) == Response(es);
    KeysDescending(es);
  }

  lemma {:induction false} KeysDescending(es: seq<Entry>)
    ensures var out := Response(es);
      forall i, j :: 0 <= i < j < |out| ==> out[j].0 != out[i].0 && LexLe(out[j].0, out[i].0)
  {
    KeyOrderInGroupBy(es);
    KeyOrderDistinct(es);
    var ks := KeyOrder(es);
    var gs := SortedGroups(ks, GroupBy(es));
    var out := Response(es);
    ByKeyDescendingIsPreorder();
    SortBySorted(gs, ByKeyDescending);
    forall i, j | 0 <= i < j < |out| ensures out[j].0 != out[i].0 && LexLe(out[j].0, out[i].0) {
      assert ByKeyDescending(out[i], out[j]);
      var a := ResponseGroupOrigin(es, i);
      var b := ResponseGroupOrigin(es, j);
      SortByDistinctGroups(ks, GroupBy(es), i, j);
      assert a != b;
      assert ks[a] != ks[b];
    }
  }

  lemma {:induction false} SortByDistinctGroups(ks: seq<string>, g: map<string, seq<Entry>>, i: nat, j: nat)
    requires Distinct(ks) && forall k :: k in ks ==> k in g
    requires i < j < |SortBy(SortedGroups(ks, g), ByKeyDescending)|
    ensures SortBy(SortedGroups(ks, g), ByKeyDescending)[i] != SortBy(SortedGroups(ks, g), ByKeyDescending)[j]
  {
    var gs := SortedGroups(ks, g);
    assert Distinct(gs) by {
      forall a, b | 0 <= a < b < |gs| ensures gs[a] != gs[b] {
        assert gs[a].0 == ks[a] && gs[b].0 == ks[b];
      }
    }
    SortByDistinct(gs, ByKeyDescending);
  }

  /** The response has a key for exactly the weeks of the player's entries. */
  lemma {:induction false} ResponseKeys(clans: seq<PlusClan>, tag: string, k: string)
    ensures var out := ScoresResponse(clans, tag);
      (exists i :: 0 <= i < |out| && out[i].0 == k) <==> k in Keys(MatchClans(clans, Format.FormatTag(tag, true)))
  {
    var es := MatchClans(clans, Format.FormatTag(tag, true));
    assert ScoresResponse(clans, tag) == Response(es);
    KeysOfResponse(es, k);
  }

  lemma {:induction false} KeysOfResponse(es: seq<Entry>, k: string)
    ensures var out := Response(es);
      (exists i :: 0 <= i < |out| && out[i].0 == k) <==> k in Keys(es)
  {
    var out := Response(es);
    if exists i :: 0 <= i < |out| && out[i].0 == k {
      var i :| 0 <= i < |out| && out[i].0 == k;
      ResponseKeyIsWeek(es, i);
    }
    if k in Keys(es) {
      WeekHasResponseKey(es, k);
    }
  }

  lemma {:induction false} ResponseKeyIsWeek(es: seq<Entry>, i: nat)
    requires i < |Response(es)|
    ensures Response(es)[i].0 in Keys(es)
  {
    KeyOrderInGroupBy(es);
    var a := ResponseGroupOrigin(es, i);
    var ks := KeyOrder(es);
    KeyOrderAt(es, ks[a]);
  }

  lemma {:induction false} WeekHasResponseKey(es: seq<Entry>, k: string)
    requires k in Keys(es)
    ensures exists i :: 0 <= i < |Response(es)| && Response(es)[i].0 == k
  {
    KeyOrderInGroupBy(es);
    KeyOrderAt(es, k);
    var ks := KeyOrder(es);
    var gs := SortedGroups(ks, GroupBy(es));
    var out := Response(es);
    var a :| 0 <= a < |ks| && ks[a] == k;
    assert gs[a] in multiset(out);
    var i :| 0 <= i < |out| && out[i] == gs[a];
  }

  /** The groups of the response hold all of the player's entries. */
  lemma {:induction false} ResponseCount(clans: seq<PlusClan>, tag: string)
    ensures TotalEntries(ScoresResponse(clans, tag)) == |MatchClans(clans, Format.FormatTag(tag, true))|
  {
    var es := MatchClans(clans, Format.FormatTag(tag, true));
    GroupSizesCount(es);
    TotalEntriesSortBy(SortedGroups(KeyOrder(es), GroupBy(es)), ByKeyDescending);
    TotalEntriesSortedGroups(KeyOrder(es), GroupBy(es));
  }
}
