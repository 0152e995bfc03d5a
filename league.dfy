/**
 * League and badge lookup (src/lib/utils.ts): a trophy count selects a league
 * from a descending threshold table, and a badge key joins a badge name
 * from the static badge table with that league.
 */
module League {
  import opened Wrappers

  datatype Threshold = Threshold(min: int, name: string)

  /** The league table, highest threshold first, scanned by `find`. */
  const Leagues: seq<Threshold> := [
    Threshold(5000, "legendary-3"),
    Threshold(4000, "legendary-2"),
    Threshold(3000, "legendary-1"),
    Threshold(2500, "gold-3"),
    Threshold(2000, "gold-2"),
    Threshold(1500, "gold-1"),
    Threshold(1200, "silver-3"),
    Threshold(900, "silver-2"),
    Threshold(600, "silver-1"),
    Threshold(400, "bronze-3"),
    Threshold(200, "bronze-2")
  ]

  /** The league returned when no threshold is reached. */
  const LowestLeague: string := "bronze-1"

  /** Every league name, lowest tier first. */
  const TierNames: seq<string> := [
    "bronze-1", "bronze-2", "bronze-3", "silver-1", "silver-2", "silver-3",
    "gold-1", "gold-2", "gold-3", "legendary-1", "legendary-2", "legendary-3"
  ]

  const NoClanBadge: string := "no_clan"

  predicate StrictlyDescending(table: seq<Threshold>) {
    forall i, j :: 0 <= i < j < |table| ==> table[i].min > table[j].min
  }

  /** `table.find(({ min }) => trophyCount >= min)?.name`. */
  function FindLeague(table: seq<Threshold>, trophyCount: int): (r: Option<string>)
    ensures r.None? <==> forall i :: 0 <= i < |table| ==> table[i].min > trophyCount
    ensures r.Some? ==> exists i :: (0 <= i < |table| && table[i].min <= trophyCount
      && r.value == table[i].name && forall j :: 0 <= j < i ==> table[j].min > trophyCount)
  {
    if table == [] then None
    else if trophyCount >= table[0].min then Some(table[0].name)
    else
      var r := FindLeague(table[1..], trophyCount);
      assert r.Some? ==> exists i :: (1 <= i < |table| && table[i].min <= trophyCount
        && r.value == table[i].name && forall j :: 0 <= j < i ==> table[j].min > trophyCount) by {
        if r.Some? {
          var i :| 0 <= i < |table[1..]| && table[1..][i].min <= trophyCount
            && r.value == table[1..][i].name && forall j :: 0 <= j < i ==> table[1..][j].min > trophyCount;
          assert table[i + 1] == table[1..][i];
          assert forall j :: 1 <= j < i + 1 ==> table[j] == table[1..][j - 1];
        }
      }
      r
  }

  /** `getLeague`. */
  function GetLeague(trophyCount: int): string {
    FindLeague(Leagues, trophyCount).GetOr(LowestLeague)
  }

  /** How many thresholds of `table` the trophy count reaches. */
  function Reached(table: seq<Threshold>, trophyCount: int): (n: nat)
    ensures n <= |table|
  {
    if table == [] then 0
    else (if trophyCount >= table[0].min then 1 else 0) + Reached(table[1..], trophyCount)
  }

  /** The position of a league name in TierNames, or -1 for any other string. */
  function TierIndex(name: string): (r: int)
    ensures r == -1 || (0 <= r < |TierNames| && TierNames[r] == name)
    ensures r >= 0 ==> 6 <= |name|
  {
    if name == "bronze-1" then 0 else if name == "bronze-2" then 1
    else if name == "bronze-3" then 2 else if name == "silver-1" then 3
    else if name == "silver-2" then 4 else if name == "silver-3" then 5
    else if name == "gold-1" then 6 else if name == "gold-2" then 7
    else if name == "gold-3" then 8 else if name == "legendary-1" then 9
    else if name == "legendary-2" then 10 else if name == "legendary-3" then 11
    else -1
  }

  lemma {:induction false} ReachedAll(table: seq<Threshold>, trophyCount: int)
    requires forall i :: 0 <= i < |table| ==> table[i].min <= trophyCount
    ensures Reached(table, trophyCount) == |table|
  {
    if table != [] {
      ReachedAll(table[1..], trophyCount);
    }
  }

  /** In a descending table, `find` stops at the first of the reached thresholds, which form a suffix. */
  lemma {:induction false} FindLeagueByCount(table: seq<Threshold>, trophyCount: int)
    requires StrictlyDescending(table)
    ensures var n := Reached(table, trophyCount);
      FindLeague(table, trophyCount) == if n == 0 then None else Some(table[|table| - n].name)
  {
    if table != [] {
      if trophyCount >= table[0].min {
        ReachedAll(table, trophyCount);
      } else {
        FindLeagueByCount(table[1..], trophyCount);
      }
    }
  }

  /** More trophies reach at least as many thresholds. */
  lemma {:induction false} ReachedMonotone(table: seq<Threshold>, t1: int, t2: int)
    requires t1 <= t2
    ensures Reached(table, t1) <= Reached(table, t2)
  {
    if table != [] {
      ReachedMonotone(table[1..], t1, t2);
    }
  }

  lemma LeaguesDescending()
    ensures StrictlyDescending(Leagues)
  {
  }

  /** The league reaching exactly `n` thresholds is the tier at position `n`. */
  lemma {:induction false} TableNamesAreTiers(n: nat)
    requires n <= |Leagues|
    ensures n > 0 ==> Leagues[|Leagues| - n].name == TierNames[n]
    ensures TierIndex(TierNames[n]) == n
  {
    match n
    case 0 => case 1 => case 2 => case 3 => case 4 => case 5 => case 6 =>
    case 7 => case 8 => case 9 => case 10 => case 11 =>
  }

  /** The league is the tier whose position is the number of thresholds reached. */
  lemma {:induction false} LeagueIsTier(trophyCount: int)
    ensures Reached(Leagues, trophyCount) < |TierNames|
    ensures GetLeague(trophyCount) == TierNames[Reached(Leagues, trophyCount)]
    ensures TierIndex(GetLeague(trophyCount)) == Reached(Leagues, trophyCount)
  {
    LeaguesDescending();
    FindLeagueByCount(Leagues, trophyCount);
    TableNamesAreTiers(Reached(Leagues, trophyCount));
  }

  /** Between two consecutive thresholds of a descending table, exactly the lower ones are reached. */
  lemma {:induction false} ReachedBetween(table: seq<Threshold>, trophyCount: int, n: nat)
    requires StrictlyDescending(table) && n <= |table|
    requires n > 0 ==> table[|table| - n].min <= trophyCount
    requires n < |table| ==> table[|table| - n - 1].min > trophyCount
    ensures Reached(table, trophyCount) == n
  {
    if table != [] {
      if trophyCount >= table[0].min {
        assert n == |table|;
        ReachedAll(table, trophyCount);
      } else {
        var rest := table[1..];
        assert n < |table|;
        assert n > 0 ==> rest[|rest| - n] == table[|table| - n];
        assert n < |rest| ==> rest[|rest| - n - 1] == table[|table| - n - 1];
        ReachedBetween(rest, trophyCount, n);
      }
    }
  }

  /** The league of a trophy count lying between the thresholds of tiers `n` and `n + 1`. */
  lemma {:induction false} LeagueBetween(trophyCount: int, n: nat)
    requires n <= |Leagues|
    requires n > 0 ==> Leagues[|Leagues| - n].min <= trophyCount
    requires n < |Leagues| ==> Leagues[|Leagues| - n - 1].min > trophyCount
    ensures GetLeague(trophyCount) == TierNames[n]
  {
    LeaguesDescending();
    ReachedBetween(Leagues, trophyCount, n);
    LeagueIsTier(trophyCount);
  }

  /** Below the lowest threshold the league is always "bronze-1". */
  lemma {:induction false} BelowAllThresholds(trophyCount: int)
    requires trophyCount < 200
    ensures GetLeague(trophyCount) == "bronze-1"
  {
    LeagueBetween(trophyCount, 0);
  }

  /** At or above the highest threshold the league is always "legendary-3". */
  lemma {:induction false} AtTopThreshold(trophyCount: int)
    requires trophyCount >= 5000
    ensures GetLeague(trophyCount) == "legendary-3"
  {
    LeagueBetween(trophyCount, 11);
  }

  /** Thresholds are inclusive: 200 is already "bronze-2", and 4999 is still "legendary-2". */
  lemma {:induction false} InclusiveThresholds()
    ensures GetLeague(200) == "bronze-2"
    ensures GetLeague(199) == "bronze-1"
    ensures GetLeague(4999) == "legendary-2"
    ensures GetLeague(5000) == "legendary-3"
  {
    LeagueBetween(200, 1);
    BelowAllThresholds(199);
    LeagueBetween(4999, 10);
    AtTopThreshold(5000);
  }

  /** More trophies never give a lower tier. */
  lemma {:induction false} LeagueMonotone(t1: int, t2: int)
    requires t1 <= t2
    ensures 0 <= TierIndex(GetLeague(t1)) <= TierIndex(GetLeague(t2))
  {
    LeagueIsTier(t1);
    LeagueIsTier(t2);
    ReachedMonotone(Leagues, t1, t2);
  }

  /**
   * `getLeague` applied to a value that may be `undefined`: every comparison
   * with `undefined` is false, so no threshold is reached.
   */
  function LeagueOfValue(trophyCount: Option<int>): (r: string)
    ensures 0 <= TierIndex(r)
    ensures trophyCount.None? ==> r == LowestLeague
  {
    match trophyCount
    case Some(t) => LeagueIsTier(t); GetLeague(t)
    case None => LowestLeague
  }

  datatype BadgeEntry = BadgeEntry(id: int, name: string)

  /** `badges.find((b) => b.id === badgeId)?.name`. */
  function FindBadgeName(badges: seq<BadgeEntry>, badgeId: int): (r: Option<string>)
    ensures r.None? <==> forall i :: 0 <= i < |badges| ==> badges[i].id != badgeId
    ensures r.Some? ==> exists i :: (0 <= i < |badges| && badges[i].id == badgeId
      && r.value == badges[i].name && forall j :: 0 <= j < i ==> badges[j].id != badgeId)
  {
    if badges == [] then None
    else if badges[0].id == badgeId then Some(badges[0].name)
    else
      var r := FindBadgeName(badges[1..], badgeId);
      assert r.Some? ==> exists i :: (1 <= i < |badges| && badges[i].id == badgeId
        && r.value == badges[i].name && forall j :: 0 <= j < i ==> badges[j].id != badgeId) by {
        if r.Some? {
          var i :| 0 <= i < |badges[1..]| && badges[1..][i].id == badgeId
            && r.value == badges[1..][i].name && forall j :: 0 <= j < i ==> badges[1..][j].id != badgeId;
          assert badges[i + 1] == badges[1..][i];
          assert forall j :: 1 <= j < i + 1 ==> badges[j] == badges[1..][j - 1];
        }
      }
      r
  }

  /** A badge id that JavaScript treats as "no badge": -1, or falsy (0). */
  predicate NoBadgeId(badgeId: int) { badgeId == -1 || badgeId == 0 }

  /**
   * `getClanBadge`, with the static badge table as a parameter and the
   * trophy count possibly `undefined`.
   */
  function GetClanBadge(badges: seq<BadgeEntry>, badgeId: int, trophyCount: Option<int>): (r: string)
    ensures r == NoClanBadge <==>
      NoBadgeId(badgeId) || FindBadgeName(badges, badgeId) in {None, Some("")}
    ensures r != NoClanBadge ==>
      exists i :: (0 <= i < |badges| && badges[i].id == badgeId && badges[i].name != ""
        && (forall j :: 0 <= j < i ==> badges[j].id != badgeId)
        && r == badges[i].name + "_" + LeagueOfValue(trophyCount))
  {
    if NoBadgeId(badgeId) then NoClanBadge
    else
      var badgeName := FindBadgeName(badges, badgeId);
      if badgeName.None? || badgeName.value == "" then NoClanBadge
      else
        var league := LeagueOfValue(trophyCount);
        badgeName.value + "_" + league
  }

  /** A known, non-empty badge name gives the key `<name>_<league>`. */
  lemma {:induction false} BadgeKeyOfKnownBadge(badges: seq<BadgeEntry>, badgeId: int, trophyCount: int, i: nat)
    requires i < |badges| && badges[i].id == badgeId && badges[i].name != ""
    requires forall j :: 0 <= j < i ==> badges[j].id != badgeId
    requires !NoBadgeId(badgeId)
    ensures GetClanBadge(badges, badgeId, Some(trophyCount)) == badges[i].name + "_" + GetLeague(trophyCount)
  {
    var r := FindBadgeName(badges, badgeId);
    assert r.Some?;
    var k :| 0 <= k < |badges| && badges[k].id == badgeId
      && r.value == badges[k].name && forall j :: 0 <= j < k ==> badges[j].id != badgeId;
    assert k == i;
  }
}
