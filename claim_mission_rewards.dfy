/**
 * The `claim-mission-rewards` function: flips a completed mission instance of
 * the caller to claimed, records one completion carrying the mission's xp and
 * coins, and adds them to the caller's stats, updating the daily streak for
 * daily missions.
 */
module ClaimMissionRewards {
  import opened Wrappers
  import opened Tables

  /** `x || 0` on a nullable number. */
  function OrZero(x: Option<int>): int {
    x.GetOr(0)
  }

  /** The `streakUpdate` object: either nothing, or a new streak with today as the last daily date. */
  datatype StreakUpdate = NoChange | SetStreak(streak: int, lastDaily: Day)

  /** The rule of lines 91-104, for a mission of `cadence` claimed on `today` by a user whose stats row is `stats`. */
  function StreakRule(cadence: string, stats: Option<UserStats>, today: Day): StreakUpdate {
    if cadence != "daily" then NoChange
    else
      var last := if stats.Some? then stats.value.lastDailyDate else None;
      match last
      case None => SetStreak(1, today)
      case Some(d) =>
        if d == today - 1 then SetStreak(OrZero(stats.value.dailyStreak) + 1, today)
        else if d != today then SetStreak(1, today)
        else NoChange
  }

  /** The stats row after the update (existing row) or the insert (no row). */
  function NewStats(stats: Option<UserStats>, m: Mission, today: Day): UserStats {
    var upd := StreakRule(m.cadence, stats, today);
    var base :=
      if stats.Some? then UserStats(Some(OrZero(stats.value.xpTotal) + m.xp), Some(OrZero(stats.value.coinsTotal) + m.coins),
                                    stats.value.dailyStreak, stats.value.lastDailyDate)
      else UserStats(Some(m.xp), Some(m.coins), None, None);
    match upd
    case NoChange => base
    case SetStreak(s, d) => base.(dailyStreak := Some(s), lastDailyDate := Some(d))
  }

  /** The three tables the handler writes. */
  datatype ClaimTables = ClaimTables(instances: seq<MissionInstance>, completions: seq<Completion>, stats: map<UserId, UserStats>)

  /** 401, 404, 400, 500 (a thrown error) and 200. */
  datatype ClaimResponse = Unauthorized | NotFound | NotCompleted | ServerError | Rewarded

  function StatusCode(r: ClaimResponse): int {
    match r
    case Unauthorized => 401
    case NotFound => 404
    case NotCompleted => 400
    case ServerError => 500
    case Rewarded => 200
  }

  /** The instance lookup `.eq('id', instance_id).eq('user_id', user.id).single()`. */
  predicate Owns(t: ClaimTables, user: UserId, id: int) {
    0 <= id < |t.instances| && t.instances[id].userId == user
  }

  /**
   * The write that fails, if any: the status flip (line 67), the completion
   * insert (line 79) or the stats update or insert (lines 116 and 127). Each
   * failure throws and answers 500; the writes made before it stay.
   */
  datatype WriteFault = NoFault | FlipFails | CompletionFails | StatsFails

  /**
   * The whole handler as a function of the tables before the call and of the
   * write that fails. When the joined mission row is missing, reading its xp
   * throws after the status flip, so that flip stays and the response is a 500.
   */
  function Claim(missions: seq<Mission>, t: ClaimTables, caller: Option<UserId>, id: int, today: Day, fault: WriteFault): (ClaimResponse, ClaimTables) {
    if caller.None? then (Unauthorized, t)
    else
      var user := caller.value;
      if !Owns(t, user, id) then (NotFound, t)
      else if t.instances[id].status != Completed then (NotCompleted, t)
      else if fault == FlipFails then (ServerError, t)
      else
        var flipped := t.instances[id := t.instances[id].(status := Claimed)];
        match FindMission(missions, t.instances[id].missionId)
        case None => (ServerError, t.(instances := flipped))
        case Some(k) =>
          var m := missions[k];
          if fault == CompletionFails then (ServerError, t.(instances := flipped))
          else
            var recorded := t.completions + [Completion(id, user, m.xp, m.coins)];
            if fault == StatsFails then (ServerError, t.(instances := flipped, completions := recorded))
            else
              var old_ := if user in t.stats then Some(t.stats[user]) else None;
              (Rewarded, ClaimTables(flipped, recorded, t.stats[user := NewStats(old_, m, today)]))
  }

  // ----- what a claim guarantees -----

  /** Every rejection (401, 404, 400) leaves all three tables as they were; 404 and 400 are exactly the missing and the not-completed instance. */
  lemma RejectionsWriteNothing(missions: seq<Mission>, t: ClaimTables, caller: Option<UserId>, id: int, today: Day, fault: WriteFault)
    ensures var (resp, t') := Claim(missions, t, caller, id, today, fault);
      && (resp == Unauthorized || resp == NotFound || resp == NotCompleted ==> t' == t)
      && (caller.Some? ==> (resp == NotFound <==> !Owns(t, caller.value, id)))
      && (caller.Some? ==> (resp == NotCompleted <==> Owns(t, caller.value, id) && t.instances[id].status != Completed))
  {
  }

  /**
   * A 500 comes exactly from a failing write or a missing mission row on a
   * claimable instance. It never reaches the stats, and it keeps the writes
   * made before the failure: none when the flip fails, the flip alone when the
   * mission is missing or the completion insert fails, the flip and the
   * completion when the stats write fails.
   */
  lemma FailuresKeepEarlierWrites(missions: seq<Mission>, t: ClaimTables, user: UserId, id: int, today: Day, fault: WriteFault)
    ensures var (resp, t') := Claim(missions, t, Some(user), id, today, fault);
      && (resp == ServerError <==>
            Owns(t, user, id) && t.instances[id].status == Completed
            && (fault != NoFault || FindMission(missions, t.instances[id].missionId).None?))
      && (resp == ServerError ==> t'.stats == t.stats)
      && (resp == ServerError && fault == FlipFails ==> t' == t)
      && (resp == ServerError && fault != FlipFails ==>
            |t'.instances| == |t.instances| && t'.instances[id].status == Claimed
            && (forall j :: 0 <= j < |t.instances| && j != id ==> t'.instances[j] == t.instances[j]))
      && (resp == ServerError && fault != StatsFails ==> t'.completions == t.completions)
      && (resp == ServerError && fault == StatsFails && FindMission(missions, t.instances[id].missionId).Some? ==>
            var m := missions[FindMission(missions, t.instances[id].missionId).value];
            t'.completions == t.completions + [Completion(id, user, m.xp, m.coins)])
  {
  }

  /**
   * A successful claim happens only when no write fails; it flips exactly that
   * instance to claimed, appends one completion row with the mission's xp and
   * coins, and raises the totals by exactly those amounts (a missing total
   * counts as 0).
   */
  lemma ClaimAwardsOnce(missions: seq<Mission>, t: ClaimTables, user: UserId, id: int, today: Day, fault: WriteFault)
    requires Claim(missions, t, Some(user), id, today, fault).0 == Rewarded
    ensures var t' := Claim(missions, t, Some(user), id, today, fault).1;
      var m := missions[FindMission(missions, t.instances[id].missionId).value];
      && fault == NoFault
      && t.instances[id].status == Completed
      && |t'.instances| == |t.instances| && t'.instances[id].status == Claimed
      && (forall j :: 0 <= j < |t.instances| && j != id ==> t'.instances[j] == t.instances[j])
      && t'.completions == t.completions + [Completion(id, user, m.xp, m.coins)]
      && user in t'.stats
      && OrZero(t'.stats[user].xpTotal) == (if user in t.stats then OrZero(t.stats[user].xpTotal) else 0) + m.xp
      && OrZero(t'.stats[user].coinsTotal) == (if user in t.stats then OrZero(t.stats[user].coinsTotal) else 0) + m.coins
      && (forall u :: u in t.stats && u != user ==> u in t'.stats && t'.stats[u] == t.stats[u])
  {
  }

  /** Claiming the same instance again is rejected with 400 and writes nothing, whichever write would fail. */
  lemma SecondClaimRejected(missions: seq<Mission>, t: ClaimTables, user: UserId, id: int, today: Day, later: Day, fault: WriteFault, fault2: WriteFault)
    requires Claim(missions, t, Some(user), id, today, fault).0 == Rewarded
    ensures var t' := Claim(missions, t, Some(user), id, today, fault).1;
      Claim(missions, t', Some(user), id, later, fault2) == (NotCompleted, t')
  {
  }

  /** Claims of non-daily missions leave `daily_streak` and `last_daily_date` untouched. */
  lemma NonDailyKeepsStreak(stats: Option<UserStats>, m: Mission, today: Day)
    requires m.cadence != "daily"
    ensures NewStats(stats, m, today).dailyStreak == (if stats.Some? then stats.value.dailyStreak else None)
    ensures NewStats(stats, m, today).lastDailyDate == (if stats.Some? then stats.value.lastDailyDate else None)
  {
  }

  /** After a daily claim the last daily date is today and the streak is positive (given a non-negative stored streak). */
  lemma DailyClaimSetsToday(stats: Option<UserStats>, m: Mission, today: Day)
    requires m.cadence == "daily"
    requires stats.Some? ==> OrZero(stats.value.dailyStreak) >= 0
    requires stats.Some? && stats.value.lastDailyDate == Some(today) ==> OrZero(stats.value.dailyStreak) >= 1
    ensures NewStats(stats, m, today).lastDailyDate == Some(today)
    ensures OrZero(NewStats(stats, m, today).dailyStreak) >= 1
  {
  }

  // ----- the ledger invariant -----

  function SumXp(completions: seq<Completion>, u: UserId): int
    decreases |completions|
  {
    if completions == [] then 0
    else
      var c := completions[|completions| - 1];
      SumXp(completions[..|completions| - 1], u) + (if c.userId == u then c.xpAwarded else 0)
  }

  function SumCoins(completions: seq<Completion>, u: UserId): int
    decreases |completions|
  {
    if completions == [] then 0
    else
      var c := completions[|completions| - 1];
      SumCoins(completions[..|completions| - 1], u) + (if c.userId == u then c.coinsAwarded else 0)
  }

  lemma SumsAppend(completions: seq<Completion>, c: Completion, u: UserId)
    ensures SumXp(completions + [c], u) == SumXp(completions, u) + (if c.userId == u then c.xpAwarded else 0)
    ensures SumCoins(completions + [c], u) == SumCoins(completions, u) + (if c.userId == u then c.coinsAwarded else 0)
  {
    assert (completions + [c])[..|completions|] == completions;
  }

  /** Every user's totals are the sums of the rewards recorded in their completions. */
  ghost predicate Ledger(t: ClaimTables) {
    && (forall u :: u in t.stats ==>
          OrZero(t.stats[u].xpTotal) == SumXp(t.completions, u) && OrZero(t.stats[u].coinsTotal) == SumCoins(t.completions, u))
    && (forall u :: u !in t.stats ==> SumXp(t.completions, u) == 0 && SumCoins(t.completions, u) == 0)
  }

  /**
   * Claims keep the totals equal to the recorded rewards, whatever the
   * response, unless the stats write fails.
   */
  lemma ClaimKeepsLedger(missions: seq<Mission>, t: ClaimTables, caller: Option<UserId>, id: int, today: Day, fault: WriteFault)
    requires Ledger(t)
    ensures fault != StatsFails ==> Ledger(Claim(missions, t, caller, id, today, fault).1)
  {
    var (resp, t') := Claim(missions, t, caller, id, today, fault);
    if resp == Rewarded {
      var user := caller.value;
      var m := missions[FindMission(missions, t.instances[id].missionId).value];
      var c := Completion(id, user, m.xp, m.coins);
      assert t'.completions == t.completions + [c];
      forall u ensures SumXp(t'.completions, u) == SumXp(t.completions, u) + (if u == user then m.xp else 0)
        ensures SumCoins(t'.completions, u) == SumCoins(t.completions, u) + (if u == user then m.coins else 0)
      {
        SumsAppend(t.completions, c, u);
      }
    }
  }

  /**
   * The handler writes no transaction: when the stats write fails on a claim
   * that would otherwise succeed, the completion stays recorded while the
   * caller's totals do not include it, so a reward worth any xp breaks the
   * ledger.
   */
  lemma StatsFailureBreaksLedger(missions: seq<Mission>, t: ClaimTables, user: UserId, id: int, today: Day)
    requires Ledger(t)
    requires Claim(missions, t, Some(user), id, today, NoFault).0 == Rewarded
    requires missions[FindMission(missions, t.instances[id].missionId).value].xp != 0
    ensures var (resp, t') := Claim(missions, t, Some(user), id, today, StatsFails);
      resp == ServerError && !Ledger(t')
  {
    var (resp, t') := Claim(missions, t, Some(user), id, today, StatsFails);
    var m := missions[FindMission(missions, t.instances[id].missionId).value];
    var c := Completion(id, user, m.xp, m.coins);
    assert t'.completions == t.completions + [c] && t'.stats == t.stats;
    SumsAppend(t.completions, c, user);
    assert SumXp(t'.completions, user) == SumXp(t.completions, user) + m.xp;
  }

  // ----- the streak against an independent definition -----

  /** Length of the run of consecutive days in `days` that ends at day `d`. */
  function RunEndingAt(days: set<Day>, d: Day): nat
    decreases days
  {
    if d in days then 1 + RunEndingAt(days - {d}, d - 1) else 0
  }

  lemma {:induction false} RunIgnoresLater(days: set<Day>, d: Day, later: Day)
    requires later > d
    ensures RunEndingAt(days + {later}, d) == RunEndingAt(days, d)
    decreases days
  {
    if d in days {
      assert (days + {later}) - {d} == (days - {d}) + {later};
      RunIgnoresLater(days - {d}, d - 1, later);
    }
  }

  /** The stats after the daily claims made on `days`, one after another, from no stats row. */
  function Replay(days: seq<Day>, m: Mission): Option<UserStats>
    decreases |days|
  {
    if days == [] then None
    else Some(NewStats(Replay(days[..|days| - 1], m), m, days[|days| - 1]))
  }

  predicate NonDecreasing(days: seq<Day>) {
    forall i, j :: 0 <= i < j < |days| ==> days[i] <= days[j]
  }

  /** One more daily claim on day `d`, no earlier than the previous claim day `last`. */
  lemma StreakStep(st: UserStats, m: Mission, before: set<Day>, last: Day, d: Day)
    requires m.cadence == "daily" && last <= d && last in before
    requires forall x :: x in before ==> x <= last
    requires st.lastDailyDate == Some(last) && st.dailyStreak == Some(RunEndingAt(before, last))
    ensures NewStats(Some(st), m, d).lastDailyDate == Some(d)
    ensures NewStats(Some(st), m, d).dailyStreak == Some(RunEndingAt(before + {d}, d))
  {
    var all := before + {d};
    if d == last {
      assert all == before;
    } else {
      assert d !in before;
      assert all - {d} == before;
      if d == last + 1 {
        assert RunEndingAt(all, d) == 1 + RunEndingAt(before, last);
      } else {
        assert d - 1 !in before;
        assert RunEndingAt(all, d) == 1 + RunEndingAt(before, d - 1);
      }
    }
  }

  /**
   * Claimed on a clock that never runs backwards, daily claims leave as the
   * streak the number of consecutive claim days ending at the last claim.
   */
  lemma {:induction false} ReplayStreakIsRun(days: seq<Day>, m: Mission)
    requires m.cadence == "daily" && NonDecreasing(days) && |days| > 0
    ensures var s := Replay(days, m);
      && s.Some? && s.value.lastDailyDate == Some(days[|days| - 1])
      && s.value.dailyStreak == Some(RunEndingAt((set x | x in days), days[|days| - 1]))
    decreases |days|
  {
    var n := |days|;
    var d := days[n - 1];
    var all := set x | x in days;
    if n == 1 {
      assert all == {d};
      assert RunEndingAt({d}, d) == 1 + RunEndingAt({}, d - 1);
    } else {
      var prev := days[..n - 1];
      var last := prev[n - 2];
      ReplayStreakIsRun(prev, m);
      var before := set x | x in prev;
      assert all == before + {d};
      forall x | x in before ensures x <= last {
        var i :| 0 <= i < n - 1 && prev[i] == x;
      }
      StreakStep(Replay(prev, m).value, m, before, last, d);
    }
  }

  // ----- the handler over the store -----

  method ClaimRewards(db: Store, caller: Option<UserId>, id: int, today: Day, fault: WriteFault) returns (resp: ClaimResponse)
    modifies db`instances, db`completions, db`stats
    ensures var out := Claim(db.missions, ClaimTables(old(db.instances), old(db.completions), old(db.stats)), caller, id, today, fault);
      resp == out.0 && ClaimTables(db.instances, db.completions, db.stats) == out.1
  {
    if caller.None? {
      return Unauthorized;
    }
    var user := caller.value;
    if !(0 <= id < |db.instances| && db.instances[id].userId == user) {
      return NotFound;
    }
    var instance := db.instances[id];
    if instance.status != Completed {
      return NotCompleted;
    }
    if fault == FlipFails {
      return ServerError;
    }
    db.instances := db.instances[id := instance.(status := Claimed)];
    var found := FindMission(db.missions, instance.missionId);
    if found.None? || fault == CompletionFails {
      return ServerError;
    }
    var m := db.missions[found.value];
    db.completions := db.completions + [Completion(id, user, m.xp, m.coins)];
    if fault == StatsFails {
      return ServerError;
    }
    var stats := if user in db.stats then Some(db.stats[user]) else None;
    db.stats := db.stats[user := NewStats(stats, m, today)];
    resp := Rewarded;
  }
}
