/**
 * The `roll-mission-instances` function: computes the period key of a cadence
 * for the current date and inserts an `available` instance for every active
 * mission of that cadence that has none yet in the period, at most five.
 */
module RollMissionInstances {
  import opened Wrappers
  import opened Text
  import opened Calendar
  import opened Tables

  // ----- period keys -----

  /** `toISOString().split('T')[0]`: `YYYY-MM-DD`. */
  function DailyKey(t: Moment): string
    requires Valid(t)
  {
    NatToString(t.year) + "-" + PadTwo(t.month) + "-" + PadTwo(t.day)
  }

  /** `Math.ceil(n / 7)` for the non-negative `n` the week formula produces. */
  function CeilDiv7(n: nat): nat {
    (n + 6) / 7
  }

  /** `Math.ceil((numberOfDays + oneJan.getDay() + 1) / 7)`: weeks start on Sunday, week 1 holds January 1. */
  function WeekNumber(t: Moment): nat
    requires Valid(t)
  {
    CeilDiv7(DayOfYear(t) + JanFirstWeekday(t.year) + 1)
  }

  function WeeklyKey(t: Moment): string
    requires Valid(t)
  {
    NatToString(t.year) + "-W" + PadTwo(WeekNumber(t))
  }

  function MonthlyKey(t: Moment): string
    requires Valid(t)
  {
    NatToString(t.year) + "-" + PadTwo(t.month)
  }

  /** `Math.floor(getMonth() / 3) + 1`. */
  function Quarter(t: Moment): nat
    requires Valid(t)
  {
    (t.month - 1) / 3 + 1
  }

  function SeasonalKey(t: Moment): string
    requires Valid(t)
  {
    NatToString(t.year) + "-Q" + NatToString(Quarter(t))
  }

  /** The `switch (cadence)`; an unrecognised cadence takes the daily key. */
  function PeriodId(cadence: string, now: Moment): string
    requires Valid(now)
  {
    match cadence
    case "daily" => DailyKey(now)
    case "weekly" => WeeklyKey(now)
    case "monthly" => MonthlyKey(now)
    case "seasonal" => SeasonalKey(now)
    case _ => DailyKey(now)
  }

  predicate KnownCadence(cadence: string) {
    cadence == "daily" || cadence == "weekly" || cadence == "monthly" || cadence == "seasonal"
  }

  // ----- key shapes -----

  lemma YearDigits(t: Moment)
    requires Valid(t)
    ensures |NatToString(t.year)| == 4 && AllDigits(NatToString(t.year))
    ensures ParseNat(NatToString(t.year)) == Some(t.year)
  {
    FourDigits(t.year);
    ParseNatToString(t.year);
  }

  /** Splits a key of the form `head + sep + tail` whose head has four characters. */
  lemma Split4(head: string, sep: string, tail: string)
    requires |head| == 4
    ensures (head + sep + tail)[..4] == head
    ensures (head + sep + tail)[4..4 + |sep|] == sep
    ensures (head + sep + tail)[4 + |sep|..] == tail
  {
  }

  /** The daily key is an ISO 8601 extended calendar date whose fields read back as the date. */
  lemma DailyKeyShape(t: Moment)
    requires Valid(t)
    ensures var k := DailyKey(t);
      && |k| == 10 && k[4] == '-' && k[7] == '-'
      && AllDigits(k[..4]) && AllDigits(k[5..7]) && AllDigits(k[8..])
      && ParseNat(k[..4]) == Some(t.year) && ParseNat(k[5..7]) == Some(t.month) && ParseNat(k[8..]) == Some(t.day)
  {
    YearDigits(t);
    var y := NatToString(t.year);
    var k := DailyKey(t);
    Split4(y, "-", PadTwo(t.month) + "-" + PadTwo(t.day));
    assert k == y + "-" + (PadTwo(t.month) + "-" + PadTwo(t.day));
    var rest := PadTwo(t.month) + "-" + PadTwo(t.day);
    assert k[5..] == rest;
    assert rest[..2] == PadTwo(t.month);
    assert rest[3..] == PadTwo(t.day);
    assert k[5..7] == rest[..2];
    assert k[8..] == rest[3..];
  }

  /** Two dates share a daily key exactly when they are the same date. */
  lemma DailyKeyIff(a: Moment, b: Moment)
    requires Valid(a) && Valid(b)
    ensures DailyKey(a) == DailyKey(b) <==> a == b
  {
    DailyKeyShape(a);
    DailyKeyShape(b);
  }

  /** The week number is `floor((daysSinceJan1 + weekdayOfJan1) / 7) + 1` and lies in 1..54. */
  lemma WeekNumberRange(t: Moment)
    requires Valid(t)
    ensures WeekNumber(t) == (DayOfYear(t) + JanFirstWeekday(t.year)) / 7 + 1
    ensures 1 <= WeekNumber(t) <= 54
  {
  }

  lemma WeeklyKeyShape(t: Moment)
    requires Valid(t)
    ensures var k := WeeklyKey(t);
      && |k| == 8 && k[4..6] == "-W" && AllDigits(k[..4]) && AllDigits(k[6..])
      && ParseNat(k[..4]) == Some(t.year) && ParseNat(k[6..]) == Some(WeekNumber(t))
  {
    YearDigits(t);
    WeekNumberRange(t);
    Split4(NatToString(t.year), "-W", PadTwo(WeekNumber(t)));
  }

  /**
   * Two dates of the same year share a weekly key exactly when no Sunday
   * separates them: their distance in days equals their distance in weekdays.
   */
  lemma {:induction false} WeeklyKeySameWeek(a: Moment, b: Moment)
    requires Valid(a) && Valid(b) && a.year == b.year
    ensures WeeklyKey(a) == WeeklyKey(b) <==> DayOfYear(b) - DayOfYear(a) == Weekday(b) - Weekday(a)
  {
    WeeklyKeyShape(a);
    WeeklyKeyShape(b);
    WeekNumberRange(a);
    WeekNumberRange(b);
    var x := DayOfYear(a) + JanFirstWeekday(a.year);
    var y := DayOfYear(b) + JanFirstWeekday(b.year);
    assert x == 7 * (x / 7) + x % 7;
    assert y == 7 * (y / 7) + y % 7;
    assert Weekday(a) == x % 7 && Weekday(b) == y % 7;
    if WeeklyKey(a) == WeeklyKey(b) {
      assert WeekNumber(a) == WeekNumber(b);
    }
    if WeekNumber(a) == WeekNumber(b) {
      assert WeeklyKey(a) == WeeklyKey(b);
    }
  }

  /** Dates of different years never share a weekly key. */
  lemma WeeklyKeyYear(a: Moment, b: Moment)
    requires Valid(a) && Valid(b) && WeeklyKey(a) == WeeklyKey(b)
    ensures a.year == b.year
  {
    WeeklyKeyShape(a);
    WeeklyKeyShape(b);
  }

  /** `YYYY-MM` with the month 01..12; two dates share it exactly when year and month agree. */
  lemma MonthlyKeyIff(a: Moment, b: Moment)
    requires Valid(a) && Valid(b)
    ensures |MonthlyKey(a)| == 7 && MonthlyKey(a)[4] == '-' && ParseNat(MonthlyKey(a)[5..]) == Some(a.month)
    ensures MonthlyKey(a) == MonthlyKey(b) <==> a.year == b.year && a.month == b.month
  {
    YearDigits(a);
    YearDigits(b);
    Split4(NatToString(a.year), "-", PadTwo(a.month));
    Split4(NatToString(b.year), "-", PadTwo(b.month));
  }

  /** `YYYY-Qn` with the quarter 1..4; two dates share it exactly when year and quarter agree. */
  lemma SeasonalKeyIff(a: Moment, b: Moment)
    requires Valid(a) && Valid(b)
    ensures 1 <= Quarter(a) <= 4
    ensures |SeasonalKey(a)| == 7 && SeasonalKey(a)[4..6] == "-Q" && ParseNat(SeasonalKey(a)[6..]) == Some(Quarter(a))
    ensures SeasonalKey(a) == SeasonalKey(b) <==> a.year == b.year && Quarter(a) == Quarter(b)
  {
    YearDigits(a);
    YearDigits(b);
    ParseNatToString(Quarter(a));
    ParseNatToString(Quarter(b));
    Split4(NatToString(a.year), "-Q", NatToString(Quarter(a)));
    Split4(NatToString(b.year), "-Q", NatToString(Quarter(b)));
  }

  /** An unrecognised cadence falls back to the daily key, and the four cadences never produce each other's keys. */
  lemma PeriodIdCadences(c1: string, c2: string, a: Moment, b: Moment)
    requires Valid(a) && Valid(b)
    ensures !KnownCadence(c1) ==> PeriodId(c1, a) == DailyKey(a)
    ensures KnownCadence(c1) && KnownCadence(c2) && c1 != c2 ==> PeriodId(c1, a) != PeriodId(c2, b)
  {
    if KnownCadence(c1) && KnownCadence(c2) && c1 != c2 {
      KeyClassOf(c1, a);
      KeyClassOf(c2, b);
    }
  }

  /** The position of a known cadence in the `switch`. */
  function CadenceClass(cadence: string): nat {
    match cadence
    case "daily" => 0
    case "weekly" => 1
    case "monthly" => 2
    case _ => 3
  }

  /** Which cadence a key was made for, read off its length and its sixth character. */
  function KeyClass(k: string): nat {
    if |k| == 10 then 0
    else if |k| == 8 then 1
    else if |k| == 7 && k[5] != 'Q' then 2
    else 3
  }

  lemma KeyClassOf(c: string, a: Moment)
    requires Valid(a) && KnownCadence(c)
    ensures KeyClass(PeriodId(c, a)) == CadenceClass(c)
  {
    if c == "daily" {
      DailyKeyShape(a);
    } else if c == "weekly" {
      WeeklyKeyShape(a);
    } else if c == "monthly" {
      MonthlyKeyIff(a, a);
      assert AllDigits(MonthlyKey(a)[5..]) by { assert MonthlyKey(a)[5..] == PadTwo(a.month); }
      assert MonthlyKey(a)[5] == MonthlyKey(a)[5..][0];
    } else {
      SeasonalKeyIff(a, a);
      assert SeasonalKey(a)[5] == SeasonalKey(a)[4..6][1];
    }
  }

  // ----- the rows to create -----

  /** The missions query: ids of the active missions of the cadence, of every user, in table order. */
  function ActiveMissionIds(missions: seq<Mission>, cadence: string): (r: seq<string>)
    ensures forall x :: x in r <==> exists i :: 0 <= i < |missions| && missions[i].id == x && missions[i].cadence == cadence && missions[i].active
    decreases |missions|
  {
    if missions == [] then []
    else
      var m := missions[|missions| - 1];
      var prev := ActiveMissionIds(missions[..|missions| - 1], cadence);
      assert forall i :: 0 <= i < |missions| - 1 ==> missions[..|missions| - 1][i] == missions[i];
      prev + (if m.cadence == cadence && m.active then [m.id] else [])
  }

  /** The existing-instances query: mission ids of the caller's instances in the period, one per row. */
  function ExistingMissionIds(instances: seq<MissionInstance>, user: UserId, period: string): (r: seq<string>)
    ensures forall x :: x in r <==> exists i :: 0 <= i < |instances| && instances[i].missionId == x && instances[i].userId == user && instances[i].periodId == period
    decreases |instances|
  {
    if instances == [] then []
    else
      var e := instances[|instances| - 1];
      var prev := ExistingMissionIds(instances[..|instances| - 1], user, period);
      assert forall i :: 0 <= i < |instances| - 1 ==> instances[..|instances| - 1][i] == instances[i];
      prev + (if e.userId == user && e.periodId == period then [e.missionId] else [])
  }

  /** `missions.filter(m => !existingMissionIds.has(m.id))`. */
  function WithoutExisting(ids: seq<string>, existing: seq<string>): (r: seq<string>)
    ensures forall x :: x in r <==> x in ids && x !in existing
    ensures |r| <= |ids|
  {
    if ids == [] then []
    else (if ids[0] in existing then [] else [ids[0]]) + WithoutExisting(ids[1..], existing)
  }

  function AvailableRows(ids: seq<string>, user: UserId, period: string): (r: seq<MissionInstance>)
    ensures |r| == |ids|
    ensures forall i :: 0 <= i < |r| ==> r[i] == MissionInstance(ids[i], user, period, Available)
  {
    seq(|ids|, i requires 0 <= i < |ids| => MissionInstance(ids[i], user, period, Available))
  }

  /** The `toCreate` chain: filter, `slice(0, 5 - existing.length)`, map to `available` rows. */
  function ToCreate(ids: seq<string>, existing: seq<string>, user: UserId, period: string): seq<MissionInstance> {
    AvailableRows(SliceTo(WithoutExisting(ids, existing), 5 - |existing|), user, period)
  }

  /**
   * What `toCreate` holds: `available` rows of the caller in the period, for
   * candidates in their query order, none of which already has an instance;
   * at most `5 - existing` of them, and when more than five exist already
   * the negative slice end drops the last `existing - 5` candidates instead.
   */
  lemma ToCreateSpec(ids: seq<string>, existing: seq<string>, user: UserId, period: string)
    ensures var r := ToCreate(ids, existing, user, period);
      var cands := WithoutExisting(ids, existing);
      && (forall i :: 0 <= i < |r| ==> r[i].userId == user && r[i].periodId == period && r[i].status == Available)
      && (forall i :: 0 <= i < |r| ==> r[i].missionId in ids && r[i].missionId !in existing)
      && (forall i :: 0 <= i < |r| ==> r[i].missionId == cands[i])
      && (|existing| <= 5 ==> |r| <= 5 - |existing| && |r| == Min(|cands|, 5 - |existing|))
      && (|existing| > 5 ==> |r| == Max0(|cands| - (|existing| - 5)))
  {
    var cands := WithoutExisting(ids, existing);
    var picked := SliceTo(cands, 5 - |existing|);
    forall i | 0 <= i < |picked| ensures picked[i] in cands {
      assert picked[i] == cands[i];
    }
  }

  function Min(a: int, b: int): int { if a <= b then a else b }
  function Max0(a: int): nat { if a > 0 then a else 0 }

  /** A concrete case of the negative slice: six existing rows and three candidates still create two. */
  lemma NegativeSliceCreates()
    ensures |ToCreate(["m1", "m2", "m3"], ["a", "b", "c", "d", "e", "f"], "u", "2025-01-01")| == 2
  {
    assert WithoutExisting(["m1", "m2", "m3"], ["a", "b", "c", "d", "e", "f"]) == ["m1", "m2", "m3"];
  }

  /** The rows the handler appends for caller `user` rolling `cadence` at `now`. */
  function RollRows(missions: seq<Mission>, instances: seq<MissionInstance>, user: UserId, cadence: string, now: Moment): seq<MissionInstance>
    requires Valid(now)
  {
    var period := PeriodId(cadence, now);
    ToCreate(ActiveMissionIds(missions, cadence), ExistingMissionIds(instances, user, period), user, period)
  }

  /**
   * The rows the handler appends when the existing-instances read fails: the
   * code reads only `data` from that query, so `existing` is null, the set of
   * existing ids is empty and the slice end is `5 - 0`.
   */
  function BlindRollRows(missions: seq<Mission>, user: UserId, cadence: string, now: Moment): seq<MissionInstance>
    requires Valid(now)
  {
    var period := PeriodId(cadence, now);
    ToCreate(ActiveMissionIds(missions, cadence), [], user, period)
  }

  // ----- the table invariant the roll keeps -----

  predicate UniqueMissionIds(missions: seq<Mission>) {
    forall i, j :: 0 <= i < j < |missions| ==> missions[i].id != missions[j].id
  }

  /** At most one instance per (mission, user, period). */
  predicate NoDuplicateInstances(instances: seq<MissionInstance>) {
    forall i, j :: 0 <= i < j < |instances| ==>
      !(instances[i].missionId == instances[j].missionId && instances[i].userId == instances[j].userId
        && instances[i].periodId == instances[j].periodId)
  }

  predicate Distinct(s: seq<string>) {
    forall i, j :: 0 <= i < j < |s| ==> s[i] != s[j]
  }

  lemma ActiveMissionIdsDistinct(missions: seq<Mission>, cadence: string)
    requires UniqueMissionIds(missions)
    ensures Distinct(ActiveMissionIds(missions, cadence))
    decreases |missions|
  {
    if missions != [] {
      var n := |missions|;
      ActiveMissionIdsDistinct(missions[..n - 1], cadence);
      var prev := ActiveMissionIds(missions[..n - 1], cadence);
      forall x | x in prev ensures x != missions[n - 1].id {
        var i :| 0 <= i < n - 1 && missions[..n - 1][i].id == x;
        assert missions[i] == missions[..n - 1][i];
      }
      var r := ActiveMissionIds(missions, cadence);
      assert r == prev + (if missions[n - 1].cadence == cadence && missions[n - 1].active then [missions[n - 1].id] else []);
      forall i, j | 0 <= i < j < |r| ensures r[i] != r[j] {
        if j == |prev| {
          assert r[i] == prev[i] && prev[i] in prev;
        } else {
          assert r[i] == prev[i] && r[j] == prev[j];
        }
      }
    }
  }

  lemma WithoutExistingDistinct(ids: seq<string>, existing: seq<string>)
    requires Distinct(ids)
    ensures Distinct(WithoutExisting(ids, existing))
  {
    if ids != [] {
      WithoutExistingDistinct(ids[1..], existing);
      forall k | 0 <= k < |ids| - 1 ensures ids[1..][k] != ids[0] {
        assert ids[1..][k] == ids[k + 1];
      }
    }
  }

  /**
   * Rolling never creates a second instance of a mission for the same user
   * and period, provided mission ids are unique (they are the table's key)
   * and the existing-instances read succeeds.
   */
  lemma {:induction false} RollKeepsInstancesUnique(missions: seq<Mission>, instances: seq<MissionInstance>, user: UserId, cadence: string, now: Moment)
    requires Valid(now)
    requires UniqueMissionIds(missions) && NoDuplicateInstances(instances)
    ensures NoDuplicateInstances(instances + RollRows(missions, instances, user, cadence, now))
  {
    var period := PeriodId(cadence, now);
    var ids := ActiveMissionIds(missions, cadence);
    var existing := ExistingMissionIds(instances, user, period);
    var rows := RollRows(missions, instances, user, cadence, now);
    var cands := WithoutExisting(ids, existing);
    ActiveMissionIdsDistinct(missions, cadence);
    WithoutExistingDistinct(ids, existing);
    ToCreateSpec(ids, existing, user, period);
    var all := instances + rows;
    forall i, j | 0 <= i < j < |all|
      ensures !(all[i].missionId == all[j].missionId && all[i].userId == all[j].userId && all[i].periodId == all[j].periodId)
    {
      if j >= |instances| {
        var r := all[j];
        assert r == rows[j - |instances|];
        if i < |instances| {
          if all[i].userId == user && all[i].periodId == period {
            assert all[i].missionId in existing;
          }
        } else {
          assert all[i] == rows[i - |instances|];
        }
      }
    }
  }

  /**
   * When the existing-instances read fails, a mission that already has an
   * instance for the caller in the period is inserted again: with one active
   * mission of the cadence and its instance in the table, the roll appends a
   * second, identical instance.
   */
  lemma BlindRollDuplicates(m: Mission, user: UserId, cadence: string, now: Moment, status: InstanceStatus)
    requires Valid(now) && m.cadence == cadence && m.active
    ensures var instances := [MissionInstance(m.id, user, PeriodId(cadence, now), status)];
      var rows := BlindRollRows([m], user, cadence, now);
      && rows == [MissionInstance(m.id, user, PeriodId(cadence, now), Available)]
      && NoDuplicateInstances(instances)
      && !NoDuplicateInstances(instances + rows)
  {
    var period := PeriodId(cadence, now);
    assert ActiveMissionIds([m], cadence) == [m.id] by {
      assert [m][..0] == [];
    }
    assert WithoutExisting([m.id], []) == [m.id];
    var instances := [MissionInstance(m.id, user, period, status)];
    var rows := BlindRollRows([m], user, cadence, now);
    assert (instances + rows)[0] == instances[0] && (instances + rows)[1] == rows[0];
  }

  // ----- the handler -----

  /** 401, 500 (a thrown error) and 200 with the number of rows created. */
  datatype RollResponse = Unauthorized | ServerError | Rolled(created: nat)

  /**
   * The query that fails, if any: the missions select (line 64), the
   * existing-instances select (lines 67-71, whose error the code never looks
   * at) or the insert of new rows (lines 91-94).
   */
  datatype RollFault = NoFault | MissionsQueryFails | ExistingReadFails | InsertFails

  /**
   * The handler: `caller` is the authenticated user (`None` when the token
   * does not resolve), `now` the clock reading, `fault` the failing query.
   * A failing missions query or insert answers 500 and writes nothing; an
   * insert that has nothing to insert is not made, so it cannot fail. A
   * failing existing-instances read goes unnoticed and the roll proceeds as
   * if the caller had no instance in the period.
   */
  method Roll(db: Store, caller: Option<UserId>, cadence: string, now: Moment, fault: RollFault) returns (resp: RollResponse)
    requires Valid(now)
    modifies db`instances
    ensures caller.None? ==> resp == Unauthorized && db.instances == old(db.instances)
    ensures caller.Some? ==>
      var rows := if fault == ExistingReadFails then BlindRollRows(db.missions, caller.value, cadence, now)
                  else RollRows(db.missions, old(db.instances), caller.value, cadence, now);
      if fault == MissionsQueryFails || (fault == InsertFails && |rows| > 0) then
        resp == ServerError && db.instances == old(db.instances)
      else
        resp == Rolled(|rows|) && db.instances == old(db.instances) + rows
  {
    if caller.None? {
      return Unauthorized;
    }
    var user := caller.value;
    var period := PeriodId(cadence, now);
    var ids := ActiveMissionIds(db.missions, cadence);
    if fault == MissionsQueryFails {
      return ServerError;
    }
    var existing := if fault == ExistingReadFails then [] else ExistingMissionIds(db.instances, user, period);
    var toCreate := ToCreate(ids, existing, user, period);
    if |toCreate| > 0 {
      if fault == InsertFails {
        return ServerError;
      }
      db.instances := db.instances + toCreate;
    }
    resp := Rolled(|toCreate|);
  }
}
