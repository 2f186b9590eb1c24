/**
 * The progress map's numbers: the weekly stats line, the per-mission cadence
 * traffic light, the node size and the orbit-dot cap.
 */
module ProgressMap {
  import opened Text
  import opened Tables
  import opened JsNumbers

  /** The check-ins with `occurred_at` no earlier than `weekAgo`. */
  function WeeklyCheckIns(checkins: seq<CheckIn>, weekAgo: Day): (r: seq<CheckIn>)
    ensures |r| <= |checkins|
    ensures forall c :: c in r <==> c in checkins && c.occurredAt >= weekAgo
    decreases |checkins|
  {
    if checkins == [] then []
    else
      var rest := WeeklyCheckIns(checkins[..|checkins| - 1], weekAgo);
      var c := checkins[|checkins| - 1];
      assert checkins == checkins[..|checkins| - 1] + [c];
      if c.occurredAt >= weekAgo then rest + [c] else rest
  }

  /** Each of the check-ins is kept exactly as often as it occurs when it passes the filter, and not at all otherwise. */
  lemma {:induction false} WeeklyCheckInsCounts(checkins: seq<CheckIn>, weekAgo: Day)
    ensures forall c :: multiset(WeeklyCheckIns(checkins, weekAgo))[c] == if c.occurredAt >= weekAgo then multiset(checkins)[c] else 0
    decreases |checkins|
  {
    if checkins != [] {
      var prev := checkins[..|checkins| - 1];
      WeeklyCheckInsCounts(prev, weekAgo);
      assert checkins == prev + [checkins[|checkins| - 1]];
    }
  }

  /** The filter keeps the rows' order: filtering a concatenation concatenates the filtered parts. */
  lemma {:induction false} WeeklyCheckInsAppend(a: seq<CheckIn>, b: seq<CheckIn>, weekAgo: Day)
    ensures WeeklyCheckIns(a + b, weekAgo) == WeeklyCheckIns(a, weekAgo) + WeeklyCheckIns(b, weekAgo)
    decreases |b|
  {
    if b == [] {
      assert a + b == a;
    } else {
      var b', x := b[..|b| - 1], b[|b| - 1];
      assert (a + b)[..|a + b| - 1] == a + b' && (a + b)[|a + b| - 1] == x;
      WeeklyCheckInsAppend(a, b', weekAgo);
      var kept := if x.occurredAt >= weekAgo then [x] else [];
      assert WeeklyCheckIns(a + b, weekAgo) == WeeklyCheckIns(a + b', weekAgo) + kept;
      assert WeeklyCheckIns(b, weekAgo) == WeeklyCheckIns(b', weekAgo) + kept;
    }
  }

  /** `new Set(checkIns.map(c => c.mission_id))`. */
  function MissionIds(checkins: seq<CheckIn>): set<string>
    decreases |checkins|
  {
    if checkins == [] then {} else MissionIds(checkins[..|checkins| - 1]) + {checkins[|checkins| - 1].missionId}
  }

  /** `{ actions, missions }` of the weekly stats line. */
  function WeeklyStats(checkins: seq<CheckIn>, weekAgo: Day): (nat, nat) {
    var week := WeeklyCheckIns(checkins, weekAgo);
    (|week|, |MissionIds(week)|)
  }

  /** The distinct ids are exactly the check-ins' ids, and there are never more of them than check-ins. */
  lemma {:induction false} MissionIdsSpec(checkins: seq<CheckIn>)
    ensures forall id :: id in MissionIds(checkins) <==> exists i :: 0 <= i < |checkins| && checkins[i].missionId == id
    ensures |MissionIds(checkins)| <= |checkins|
    ensures |MissionIds(checkins)| == 0 <==> checkins == []
    decreases |checkins|
  {
    if checkins != [] {
      var n := |checkins|;
      var prev := checkins[..n - 1];
      MissionIdsSpec(prev);
      forall id | id in MissionIds(checkins) ensures exists i :: 0 <= i < n && checkins[i].missionId == id {
        if id in MissionIds(prev) {
          var i :| 0 <= i < n - 1 && prev[i].missionId == id;
          assert checkins[i] == prev[i];
        } else {
          assert checkins[n - 1].missionId == id;
        }
      }
      forall id | exists i :: 0 <= i < n && checkins[i].missionId == id ensures id in MissionIds(checkins) {
        var i :| 0 <= i < n && checkins[i].missionId == id;
        if i < n - 1 {
          assert prev[i] == checkins[i];
        }
      }
      assert checkins[n - 1].missionId in MissionIds(checkins);
    }
  }

  /**
   * Weekly `actions` counts the check-ins in the last seven days, weekly
   * `missions` counts their distinct mission ids, so it is at most `actions`
   * and zero only when `actions` is.
   */
  lemma WeeklyStatsSpec(checkins: seq<CheckIn>, weekAgo: Day)
    ensures var (actions, missions) := WeeklyStats(checkins, weekAgo);
      && actions == |WeeklyCheckIns(checkins, weekAgo)|
      && (forall c :: multiset(WeeklyCheckIns(checkins, weekAgo))[c] ==
            if c.occurredAt >= weekAgo then multiset(checkins)[c] else 0)
      && (forall id :: id in MissionIds(WeeklyCheckIns(checkins, weekAgo)) <==>
            exists i :: 0 <= i < |checkins| && checkins[i].occurredAt >= weekAgo && checkins[i].missionId == id)
      && missions <= actions
      && (missions == 0 <==> actions == 0)
  {
    var week := WeeklyCheckIns(checkins, weekAgo);
    WeeklyCheckInsCounts(checkins, weekAgo);
    MissionIdsSpec(week);
    forall id ensures id in MissionIds(week) <==>
        exists i :: 0 <= i < |checkins| && checkins[i].occurredAt >= weekAgo && checkins[i].missionId == id
    {
      if id in MissionIds(week) {
        var j :| 0 <= j < |week| && week[j].missionId == id;
        assert week[j] in week;
        var i :| 0 <= i < |checkins| && checkins[i] == week[j];
      }
      if exists i :: 0 <= i < |checkins| && checkins[i].occurredAt >= weekAgo && checkins[i].missionId == id {
        var i :| 0 <= i < |checkins| && checkins[i].occurredAt >= weekAgo && checkins[i].missionId == id;
        assert checkins[i] in checkins;
        assert checkins[i] in week;
        var j :| 0 <= j < |week| && week[j] == checkins[i];
      }
    }
  }

  datatype Health = Green | Amber | Red

  /** `getCadenceHealth`: the ratio of this week's check-ins to the weekly target, in JavaScript arithmetic. */
  function CadenceHealth(weekCount: nat, targetPerWeek: int): Health {
    var progress := JsDivide(weekCount as real, targetPerWeek as real);
    if JsAtLeast(progress, 1.0) then Green
    else if JsAtLeast(progress, 0.7) then Amber
    else Red
  }

  /**
   * For a positive target: green iff the target is met, amber iff at least
   * 70% of it is, red otherwise. A zero target gives green for any check-in
   * (Infinity) and red for none (NaN); a negative target is always red.
   */
  lemma CadenceHealthSpec(weekCount: nat, targetPerWeek: int)
    ensures var h := CadenceHealth(weekCount, targetPerWeek);
      && (targetPerWeek > 0 ==>
            && (h == Green <==> weekCount >= targetPerWeek)
            && (h == Amber <==> weekCount < targetPerWeek && 10 * weekCount >= 7 * targetPerWeek)
            && (h == Red <==> 10 * weekCount < 7 * targetPerWeek))
      && (targetPerWeek == 0 ==> (h == Green <==> weekCount > 0) && (h == Red <==> weekCount == 0))
      && (targetPerWeek < 0 ==> h == Red)
  {
    var c := weekCount as real;
    var t := targetPerWeek as real;
    if targetPerWeek > 0 {
      var p := c / t;
      assert JsDivide(c, t) == Finite(p);
      PositiveRatio(weekCount, targetPerWeek);
    } else if targetPerWeek < 0 {
      var q := c / (-t);
      assert q * (-t) == c;
      assert q >= 0.0;
      assert c / t == -q;
    }
  }

  /** The week's ratio against a positive target, compared with 1 and 0.7 in whole numbers. */
  lemma PositiveRatio(weekCount: nat, targetPerWeek: int)
    requires targetPerWeek > 0
    ensures var p := weekCount as real / targetPerWeek as real;
      && (p >= 1.0 <==> weekCount >= targetPerWeek)
      && (p >= 0.7 <==> 10 * weekCount >= 7 * targetPerWeek)
  {
    DivAtLeast(weekCount as real, targetPerWeek as real, 1.0);
    DivAtLeast(weekCount as real, targetPerWeek as real, 0.7);
    TenthsCompare(weekCount, targetPerWeek);
  }

  lemma DivAtLeast(c: real, t: real, k: real)
    requires t > 0.0
    ensures c / t >= k <==> c >= k * t
  {
    var p := c / t;
    assert p * t == c;
    ScaleCompare(p, k, t);
  }

  lemma TenthsCompare(weekCount: nat, targetPerWeek: int)
    ensures weekCount as real >= 0.7 * targetPerWeek as real <==> 10 * weekCount >= 7 * targetPerWeek
  {
    var c := weekCount as real;
    var t := targetPerWeek as real;
    assert 10.0 * c == (10 * weekCount) as real;
    assert 10.0 * (0.7 * t) == (7 * targetPerWeek) as real;
  }

  /** Scaling both sides by a positive factor keeps their order. */
  lemma ScaleCompare(p: real, k: real, t: real)
    requires t > 0.0
    ensures p >= k <==> p * t >= k * t
  {
    if p >= k {
      assert (p - k) * t >= 0.0;
    } else {
      assert (k - p) * t > 0.0;
    }
  }

  /** `getNodeSize`: `40 + level * 5 + xp / 100` in floating point. */
  function NodeSize(level: int, xp: int): real {
    40.0 + (level * 5) as real + (xp as real) / 100.0
  }

  /** A higher level or more XP always draws a strictly larger node. */
  lemma NodeSizeIncreasing(level: int, xp: int, level': int, xp': int)
    ensures level < level' ==> NodeSize(level, xp) < NodeSize(level', xp)
    ensures xp < xp' ==> NodeSize(level, xp) < NodeSize(level, xp')
    ensures level <= level' && xp <= xp' ==> NodeSize(level, xp) <= NodeSize(level', xp')
  {
  }

  /** `getMissionCheckIns(missionId)`. */
  function MissionCheckIns(checkins: seq<CheckIn>, missionId: string): (r: seq<CheckIn>)
    ensures forall c :: c in r <==> c in checkins && c.missionId == missionId
    decreases |checkins|
  {
    if checkins == [] then []
    else
      var rest := MissionCheckIns(checkins[..|checkins| - 1], missionId);
      var c := checkins[|checkins| - 1];
      assert checkins == checkins[..|checkins| - 1] + [c];
      if c.missionId == missionId then rest + [c] else rest
  }

  /** Each of the check-ins is kept exactly as often as it occurs when it passes the filter, and not at all otherwise. */
  lemma {:induction false} MissionCheckInsCounts(checkins: seq<CheckIn>, missionId: string)
    ensures forall c :: multiset(MissionCheckIns(checkins, missionId))[c] == if c.missionId == missionId then multiset(checkins)[c] else 0
    decreases |checkins|
  {
    if checkins != [] {
      var prev := checkins[..|checkins| - 1];
      MissionCheckInsCounts(prev, missionId);
      assert checkins == prev + [checkins[|checkins| - 1]];
    }
  }

  /** The filter keeps the rows' order: filtering a concatenation concatenates the filtered parts. */
  lemma {:induction false} MissionCheckInsAppend(a: seq<CheckIn>, b: seq<CheckIn>, missionId: string)
    ensures MissionCheckIns(a + b, missionId) == MissionCheckIns(a, missionId) + MissionCheckIns(b, missionId)
    decreases |b|
  {
    if b == [] {
      assert a + b == a;
    } else {
      var b', x := b[..|b| - 1], b[|b| - 1];
      assert (a + b)[..|a + b| - 1] == a + b' && (a + b)[|a + b| - 1] == x;
      MissionCheckInsAppend(a, b', missionId);
      var kept := if x.missionId == missionId then [x] else [];
      assert MissionCheckIns(a + b, missionId) == MissionCheckIns(a + b', missionId) + kept;
      assert MissionCheckIns(b, missionId) == MissionCheckIns(b', missionId) + kept;
    }
  }

  /** The orbiting dots: `missionCheckIns.slice(0, 5)`. */
  function OrbitDots(checkins: seq<CheckIn>, missionId: string): seq<CheckIn> {
    SliceTo(MissionCheckIns(checkins, missionId), 5)
  }

  /** At most five dots, the mission's first check-ins in load order, all of them when there are five or fewer. */
  lemma OrbitDotsSpec(checkins: seq<CheckIn>, missionId: string)
    ensures var dots := OrbitDots(checkins, missionId);
      var all := MissionCheckIns(checkins, missionId);
      && |dots| <= 5
      && dots == all[..|dots|]
      && (|all| <= 5 ==> dots == all)
      && (forall c :: c in dots ==> c.missionId == missionId)
  {
    var all := MissionCheckIns(checkins, missionId);
    var dots := OrbitDots(checkins, missionId);
    forall c | c in dots ensures c.missionId == missionId {
      var i :| 0 <= i < |dots| && dots[i] == c;
      assert all[i] == c;
      assert c in all;
    }
  }
}
