/**
 * The river-race responses (src/controllers/clan/get-clan-race.ts and
 * src/controllers/clan/get-clan-race-limited.ts). From the fetched race
 * snapshot both controllers derive the day of the race week, the phase flags
 * and the position of the requesting clan, and delete the snapshot's `clan`
 * record; the full controller also writes `decksUsed` and `badge` into every
 * clan object of the snapshot.
 */
module ClanRace {
  import opened Wrappers
  import opened Text
  import League

  datatype Participant = Participant(
    tag: string,
    name: string,
    fame: int,
    repairPoints: int,
    boatAttacks: int,
    decksUsed: int,
    decksUsedToday: int)

  /**
   * One clan of the race snapshot. The upstream fields never change; the two
   * fields the full controller adds are absent (None) until it writes them.
   * `trophyCount` is the field the controller reads for the badge league;
   * the declared clan type has no such field (its trophies are `clanScore`),
   * so on well-typed input it is None.
   */
  class RaceClan {
    const tag: string
    const name: string
    const badgeId: int
    const clanScore: int
    const trophyCount: Option<int>
    const fame: int
    const repairPoints: int
    const periodPoints: int
    const participants: seq<Participant>
    var decksUsed: Option<int>
    var badge: Option<string>

    constructor (tag: string, name: string, badgeId: int, clanScore: int, trophyCount: Option<int>,
                 fame: int, repairPoints: int, periodPoints: int, participants: seq<Participant>)
      ensures this.tag == tag && this.name == name && this.badgeId == badgeId
      ensures this.clanScore == clanScore && this.trophyCount == trophyCount
      ensures this.fame == fame && this.repairPoints == repairPoints && this.periodPoints == periodPoints
      ensures this.participants == participants
      ensures decksUsed.None? && badge.None?
    {
      this.tag, this.name, this.badgeId, this.clanScore, this.trophyCount := tag, name, badgeId, clanScore, trophyCount;
      this.fame, this.repairPoints, this.periodPoints := fame, repairPoints, periodPoints;
      this.participants := participants;
      decksUsed, badge := None, None;
    }
  }

  /** The snapshot's own record of the clan whose race was requested. */
  datatype OwnClan = OwnClan(tag: string, name: string)

  /** The race snapshot as fetched; `delete race.clan` sets `clan` to None. */
  class RiverRace {
    const periodIndex: int
    const periodType: string
    const sectionIndex: int
    const state: string
    const clans: array<RaceClan>
    var clan: Option<OwnClan>

    constructor (periodIndex: int, periodType: string, sectionIndex: int, state: string,
                 clans: array<RaceClan>, clan: Option<OwnClan>)
      ensures this.periodIndex == periodIndex && this.periodType == periodType
      ensures this.sectionIndex == sectionIndex && this.state == state
      ensures this.clans == clans && this.clan == clan
    {
      this.periodIndex, this.periodType, this.sectionIndex, this.state := periodIndex, periodType, sectionIndex, state;
      this.clans, this.clan := clans, clan;
    }
  }

  /** The fields both controllers put next to the snapshot in the response. */
  datatype RaceSummary = RaceSummary(clanIndex: int, dayIndex: int, isColosseum: bool, isTraining: bool)

  /** The response body: the summary fields and what is left of the snapshot. */
  datatype RaceResponse = RaceResponse(
    summary: RaceSummary,
    periodIndex: int,
    periodType: string,
    sectionIndex: int,
    state: string,
    clans: seq<RaceClan>)

  /** The status the controllers answer with when the snapshot has no `clan` record. */
  const InternalError: int := 500

  /** The tags of the clans, in snapshot order. */
  function Tags(clans: seq<RaceClan>): (tags: seq<string>)
    ensures |tags| == |clans|
    ensures forall i :: 0 <= i < |clans| ==> tags[i] == clans[i].tag
  {
    if clans == [] then [] else [clans[0].tag] + Tags(clans[1..])
  }

  /** `findIndex` by exact tag equality: the first position holding `tag`, or -1. */
  function FindTagIndex(tags: seq<string>, tag: string): (r: int)
    ensures -1 <= r < |tags|
    ensures r == -1 <==> tag !in tags
    ensures r >= 0 ==> tags[r] == tag && forall j :: 0 <= j < r ==> tags[j] != tag
  {
    if tags == [] then -1
    else if tags[0] == tag then 0
    else
      var r := FindTagIndex(tags[1..], tag);
      if r == -1 then -1 else r + 1
  }

  /** The derivation block shared by both controllers. */
  function Summarize(periodIndex: int, periodType: string, tags: seq<string>, ownTag: string): (r: RaceSummary)
    ensures periodIndex >= 0 ==> 0 <= r.dayIndex <= 6 && r.dayIndex == periodIndex % 7
    ensures periodIndex < 0 ==> -6 <= r.dayIndex <= 0
    ensures r.isColosseum <==> periodType == "colosseum"
    ensures r.isTraining <==> periodType == "training"
    ensures !(r.isColosseum && r.isTraining)
    ensures -1 <= r.clanIndex < |tags|
    ensures r.clanIndex == -1 <==> ownTag !in tags
    ensures r.clanIndex >= 0 ==>
      tags[r.clanIndex] == ownTag && forall j :: 0 <= j < r.clanIndex ==> tags[j] != ownTag
  {
    RaceSummary(
      FindTagIndex(tags, ownTag),
      JsRem(periodIndex, 7),
      periodType == "colosseum",
      periodType == "training")
  }

  /** `participants.reduce((a, b) => a + b.decksUsedToday, acc)`: a left fold. */
  function ReduceDecks(acc: int, ps: seq<Participant>): int
    decreases ps
  {
    if ps == [] then acc else ReduceDecks(acc + ps[0].decksUsedToday, ps[1..])
  }

  /** The decks used today by a roster, summed from the back: the reference total. */
  function TotalDecks(ps: seq<Participant>): int {
    if ps == [] then 0 else TotalDecks(ps[..|ps| - 1]) + ps[|ps| - 1].decksUsedToday
  }

  lemma {:induction false} TotalDecksCons(p: Participant, ps: seq<Participant>)
    ensures TotalDecks([p] + ps) == p.decksUsedToday + TotalDecks(ps)
  {
    if ps != [] {
      var n := |ps| - 1;
      assert ([p] + ps)[..|ps|] == [p] + ps[..n];
      TotalDecksCons(p, ps[..n]);
    } else {
      assert [p] + ps == [p];
    }
  }

  /** The fold the controller runs computes the roster's total, offset by its start value. */
  lemma {:induction false} ReduceDecksIsTotal(acc: int, ps: seq<Participant>)
    ensures ReduceDecks(acc, ps) == acc + TotalDecks(ps)
    decreases ps
  {
    if ps != [] {
      ReduceDecksIsTotal(acc + ps[0].decksUsedToday, ps[1..]);
      TotalDecksCons(ps[0], ps[1..]);
      assert [ps[0]] + ps[1..] == ps;
    }
  }

  /** An empty roster has used no decks. */
  lemma EmptyRosterUsesNoDecks(acc: int)
    ensures ReduceDecks(acc, []) == acc && TotalDecks([]) == 0
  {
  }

  /** With at most four decks per player a day, a roster uses at most four decks per member. */
  lemma {:induction false} TotalDecksBounds(ps: seq<Participant>)
    requires forall i :: 0 <= i < |ps| ==> 0 <= ps[i].decksUsedToday <= 4
    ensures 0 <= TotalDecks(ps) <= 4 * |ps|
  {
    if ps != [] {
      TotalDecksBounds(ps[..|ps| - 1]);
    }
  }

  /** What the full controller's loop leaves in a clan object. */
  ghost predicate Augmented(c: RaceClan, badges: seq<League.BadgeEntry>)
    reads c
  {
    && c.decksUsed == Some(TotalDecks(c.participants))
    && c.badge == Some(League.GetClanBadge(badges, c.badgeId, c.trophyCount))
  }

  /**
   * The tag the `findIndex` callback compares with. The callback reads
   * `race.clan.tag`, so without a `clan` record its first call throws; with
   * no clans it is never called, no tag is read, and any tag gives -1.
   */
  function ComparedTag(clan: Option<OwnClan>): string {
    if clan.Some? then clan.value.tag else ""
  }

  /** The `findIndex` callback throws: there is a clan to compare but no `clan` record. */
  predicate Throws(race: RiverRace)
    reads race
  {
    race.clan.None? && race.clans.Length > 0
  }

  /**
   * GET /clan/:tag/race once the snapshot is fetched: derive the summary,
   * delete the `clan` record, then write `decksUsed` and `badge` into every
   * clan object in place. A snapshot without a `clan` record makes the
   * `findIndex` callback throw before anything changes, and the controller
   * answers 500; when there are no clans the callback never runs, and the
   * controller answers with `clanIndex` -1.
   */
  method GetClanRace(race: RiverRace, badges: seq<League.BadgeEntry>) returns (res: Result<RaceResponse, int>)
    modifies race, race.clans[..]
    ensures old(Throws(race)) ==> res == Failure(InternalError) && race.clan == old(race.clan)
    ensures old(Throws(race)) ==> forall i :: 0 <= i < race.clans.Length ==>
      race.clans[i].decksUsed == old(race.clans[i].decksUsed) && race.clans[i].badge == old(race.clans[i].badge)
    ensures !old(Throws(race)) ==>
      && res == Success(RaceResponse(
           Summarize(race.periodIndex, race.periodType, Tags(race.clans[..]), ComparedTag(old(race.clan))),
           race.periodIndex, race.periodType, race.sectionIndex, race.state, race.clans[..]))
      && race.clan.None?
      && forall i :: 0 <= i < race.clans.Length ==> Augmented(race.clans[i], badges)
    ensures old(race.clan).None? && race.clans.Length == 0 ==> res.Success? && res.value.summary.clanIndex == -1
    ensures res.Success? && res.value.summary.clanIndex >= 0 ==>
      old(race.clan).Some? && race.clans[res.value.summary.clanIndex].tag == old(race.clan).value.tag
  {
    if race.clan.None? && race.clans.Length > 0 {
      return Failure(InternalError);
    }
    var summary := Summarize(race.periodIndex, race.periodType, Tags(race.clans[..]), ComparedTag(race.clan));
    race.clan := None;
    AddDecksUsedAndBadges(race.clans, badges);
    res := Success(RaceResponse(summary, race.periodIndex, race.periodType, race.sectionIndex, race.state, race.clans[..]));
  }

  /** The `for (const c of race.clans)` loop: each clan object gets its decks total and badge. */
  method AddDecksUsedAndBadges(clans: array<RaceClan>, badges: seq<League.BadgeEntry>)
    modifies clans[..]
    ensures forall i :: 0 <= i < clans.Length ==> Augmented(clans[i], badges)
  {
    var i := 0;
    while i < clans.Length
      invariant 0 <= i <= clans.Length
      invariant forall k :: 0 <= k < i ==> Augmented(clans[k], badges)
    {
      var c := clans[i];
      ReduceDecksIsTotal(0, c.participants);
      c.decksUsed := Some(ReduceDecks(0, c.participants));
      c.badge := Some(League.GetClanBadge(badges, c.badgeId, c.trophyCount));
      i := i + 1;
    }
  }

  /**
   * GET /clan/:tag/race/limited once the snapshot is fetched: the same
   * summary, the same deletion and the same 500, with the clan objects left
   * as fetched.
   */
  method GetClanRaceLimited(race: RiverRace) returns (res: Result<RaceResponse, int>)
    modifies race
    ensures old(Throws(race)) ==> res == Failure(InternalError) && race.clan == old(race.clan)
    ensures !old(Throws(race)) ==>
      && res == Success(RaceResponse(
           Summarize(race.periodIndex, race.periodType, Tags(race.clans[..]), ComparedTag(old(race.clan))),
           race.periodIndex, race.periodType, race.sectionIndex, race.state, race.clans[..]))
      && race.clan.None?
    ensures old(race.clan).None? && race.clans.Length == 0 ==> res.Success? && res.value.summary.clanIndex == -1
    ensures res.Success? && res.value.summary.clanIndex >= 0 ==>
      old(race.clan).Some? && race.clans[res.value.summary.clanIndex].tag == old(race.clan).value.tag
    ensures forall i :: 0 <= i < race.clans.Length ==>
      race.clans[i].decksUsed == old(race.clans[i].decksUsed) && race.clans[i].badge == old(race.clans[i].badge)
  {
    if race.clan.None? && race.clans.Length > 0 {
      return Failure(InternalError);
    }
    var summary := Summarize(race.periodIndex, race.periodType, Tags(race.clans[..]), ComparedTag(race.clan));
    race.clan := None;
    res := Success(RaceResponse(summary, race.periodIndex, race.periodType, race.sectionIndex, race.state, race.clans[..]));
  }

  /**
   * The badge the full controller writes is looked up with `trophyCount`,
   * not `clanScore`: when the snapshot has no `trophyCount` the league part
   * is the lowest tier whatever the clan's score.
   */
  lemma BadgeIgnoresClanScore(badges: seq<League.BadgeEntry>, badgeId: int, name: string)
    requires !League.NoBadgeId(badgeId)
    requires League.FindBadgeName(badges, badgeId) == Some(name) && name != ""
    ensures League.GetClanBadge(badges, badgeId, None) == name + "_bronze-1"
  {
    assert League.LeagueOfValue(None) == "bronze-1";
    assert (name + "_") + "bronze-1" == name + "_bronze-1";
  }
}
