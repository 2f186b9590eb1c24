/**
 * The "Log a Quick Win" dialog: records a check-in on a mission, adds its XP
 * to the mission, recomputes the mission's level and evaluates badges.
 */
module LogWinModal {
  import opened Wrappers
  import opened Tables
  import opened Validation
  import Badges

  /** XP credited to the mission for every logged win. */
  const XpPerWin: int := 10

  /** Level for a mission's XP total: one level per 100 XP, starting at 1. */
  function LevelFor(xp: int): int {
    xp / 100 + 1
  }

  /** Level `L` covers exactly the XP totals from `100 * (L - 1)` up to, not including, `100 * L`. */
  lemma LevelForRange(xp: int)
    ensures 100 * (LevelFor(xp) - 1) <= xp < 100 * LevelFor(xp)
    ensures xp >= 0 ==> LevelFor(xp) >= 1
  {
  }

  /** More XP never lowers the level. */
  lemma {:induction false} LevelForMonotone(a: int, b: int)
    requires a <= b
    ensures LevelFor(a) <= LevelFor(b)
  {
    LevelForRange(a);
    LevelForRange(b);
  }

  /**
   * For a mission whose stored level matches its XP, a win raises the level
   * by at most one, and does so exactly when the XP was within 10 of the next
   * multiple of 100.
   */
  lemma {:induction false} WinLevelsUp(xp: int)
    ensures LevelFor(xp) <= LevelFor(xp + XpPerWin) <= LevelFor(xp) + 1
    ensures LevelFor(xp + XpPerWin) > LevelFor(xp) <==> xp % 100 >= 90
  {
    LevelForRange(xp);
    LevelForRange(xp + XpPerWin);
    LevelForMonotone(xp, xp + XpPerWin);
    assert xp == 100 * (xp / 100) + xp % 100;
    assert xp + XpPerWin == 100 * (xp / 100) + (xp % 100 + 10);
    if xp % 100 >= 90 {
      assert (xp + XpPerWin) / 100 == xp / 100 + 1 by {
        assert 100 * (xp / 100 + 1) <= xp + XpPerWin < 100 * (xp / 100 + 2);
      }
    } else {
      assert (xp + XpPerWin) / 100 == xp / 100 by {
        assert 100 * (xp / 100) <= xp + XpPerWin < 100 * (xp / 100 + 1);
      }
    }
  }

  /** `.update({ xp, level }).eq("id", missionId)`: every row with that id gets the new totals. */
  function SetProgress(missions: seq<Mission>, id: string, xp: int, level: int): (r: seq<Mission>)
    ensures |r| == |missions|
    ensures forall i :: 0 <= i < |r| ==> r[i] == if missions[i].id == id then missions[i].(xp := xp, level := level) else missions[i]
  {
    seq(|missions|, i requires 0 <= i < |missions| =>
      if missions[i].id == id then missions[i].(xp := xp, level := level) else missions[i])
  }

  /** The profiles after the level-up step, which only runs when the mission levelled up. */
  function AfterLevelUp(profiles: map<UserId, seq<Badge>>, u: UserId, m: Mission, newLevel: int, now: string): map<UserId, seq<Badge>> {
    if newLevel > m.level then Badges.ProfilesAfterLevelUp(profiles, u, m.id, m.title, newLevel, now) else profiles
  }

  /**
   * The level-up step writes the profile only when the win takes a mission
   * whose stored level is below 2 to level 2, and then only by appending the
   * mission's "first-levelup-" badge.
   */
  lemma LevelUpStepSpec(profiles: map<UserId, seq<Badge>>, u: UserId, m: Mission, now: string)
    ensures var newLevel := LevelFor(m.xp + XpPerWin);
      var p := AfterLevelUp(profiles, u, m, newLevel, now);
      p != profiles ==>
        && newLevel == 2 && m.level < 2 && u in profiles
        && p == profiles[u := profiles[u] + [Badges.LevelUpBadge(m.id, m.title, now)]]
  {
  }

  /** The write of `handleSubmit()` that fails, if any: the check-in insert (line 85) or the mission update (line 111). */
  datatype WinFault = NoFault | CheckInFails | UpdateFails

  datatype WinOutcome =
    | NoMissionSelected
    | InvalidNote(error: Option<string>)
    | MissionLookupFailed
    | WriteFailed
    | Logged(leveledUp: bool, newLevel: int, newBadges: seq<Badge>)

  /** The tables the mission part of a win writes, and its outcome. */
  datatype Credited = Credited(missions: seq<Mission>, profiles: map<UserId, seq<Badge>>, outcome: WinOutcome)

  /**
   * The mission part of a win on row `k`: the XP update, the level-up badge
   * when the level rose, then the other badges.
   */
  function Credit(missions: seq<Mission>, profiles: map<UserId, seq<Badge>>, entries: seq<DailyEntry>,
                  completions: seq<Completion>, u: UserId, k: nat, now: string): Credited
    requires k < |missions|
  {
    var m := missions[k];
    var newLevel := LevelFor(m.xp + XpPerWin);
    var p := AfterLevelUp(profiles, u, m, newLevel, now);
    var added := Badges.NewBadges(Badges.CurrentBadges(p, u), RecentCompletedDates(entries, u, 7),
                                  CountCompletions(completions, u), now);
    Credited(SetProgress(missions, m.id, m.xp + XpPerWin, newLevel), Badges.WithAwarded(p, u, added),
             Logged(newLevel > m.level, newLevel, added))
  }

  /**
   * Every row of the mission gains 10 XP and the level its new total gives,
   * other rows are untouched, and the win reports a level-up exactly when the
   * level rose: for a mission whose stored level matches its XP, exactly when
   * the XP was within 10 of the next multiple of 100.
   */
  lemma CreditMissionsSpec(missions: seq<Mission>, profiles: map<UserId, seq<Badge>>, entries: seq<DailyEntry>,
                           completions: seq<Completion>, u: UserId, k: nat, now: string)
    requires k < |missions|
    ensures var m := missions[k];
      var r := Credit(missions, profiles, entries, completions, u, k, now);
      && |r.missions| == |missions|
      && (forall i :: 0 <= i < |missions| && missions[i].id == m.id ==>
            r.missions[i].xp == m.xp + XpPerWin && r.missions[i].level == LevelFor(m.xp + XpPerWin)
            && r.missions[i].title == missions[i].title)
      && (forall i :: 0 <= i < |missions| && missions[i].id != m.id ==> r.missions[i] == missions[i])
      && r.outcome.Logged? && r.outcome.newLevel == LevelFor(m.xp + XpPerWin)
      && (r.outcome.leveledUp <==> LevelFor(m.xp + XpPerWin) > m.level)
      && (m.level == LevelFor(m.xp) ==> (r.outcome.leveledUp <==> m.xp % 100 >= 90))
  {
    WinLevelsUp(missions[k].xp);
  }

  /** Only the user's own badge list changes, and only by appending. */
  lemma CreditProfilesSpec(missions: seq<Mission>, profiles: map<UserId, seq<Badge>>, entries: seq<DailyEntry>,
                           completions: seq<Completion>, u: UserId, k: nat, now: string)
    requires k < |missions|
    ensures var r := Credit(missions, profiles, entries, completions, u, k, now);
      && r.profiles.Keys == profiles.Keys
      && (forall v :: v in profiles && v != u ==> r.profiles[v] == profiles[v])
      && (u in profiles ==> |profiles[u]| <= |r.profiles[u]| && r.profiles[u][..|profiles[u]|] == profiles[u])
  {
    var m := missions[k];
    var newLevel := LevelFor(m.xp + XpPerWin);
    var p := AfterLevelUp(profiles, u, m, newLevel, now);
    LevelUpStepSpec(profiles, u, m, now);
    AppendOnly(profiles, p, u);
    var added := Badges.NewBadges(Badges.CurrentBadges(p, u), RecentCompletedDates(entries, u, 7),
                                  CountCompletions(completions, u), now);
    AppendOnly(p, Badges.WithAwarded(p, u, added), u);
    AppendOnlyTrans(profiles, p, Badges.WithAwarded(p, u, added), u);
  }

  /** `after` differs from `before` at most by badges appended to `u`'s list. */
  ghost predicate AppendedTo(before: map<UserId, seq<Badge>>, after: map<UserId, seq<Badge>>, u: UserId) {
    && after.Keys == before.Keys
    && (forall v :: v in before && v != u ==> after[v] == before[v])
    && (u in before ==> |before[u]| <= |after[u]| && after[u][..|before[u]|] == before[u])
  }

  lemma AppendOnly(before: map<UserId, seq<Badge>>, after: map<UserId, seq<Badge>>, u: UserId)
    requires after == before || (u in before && exists extra :: after == before[u := before[u] + extra])
    ensures AppendedTo(before, after, u)
  {
    if after != before {
      var extra :| after == before[u := before[u] + extra];
      assert after[u][..|before[u]|] == before[u];
    }
  }

  lemma AppendOnlyTrans(a: map<UserId, seq<Badge>>, b: map<UserId, seq<Badge>>, c: map<UserId, seq<Badge>>, u: UserId)
    requires AppendedTo(a, b, u) && AppendedTo(b, c, u)
    ensures AppendedTo(a, c, u)
  {
    if u in a {
      assert c[u][..|b[u]|][..|a[u]|] == c[u][..|a[u]|];
    }
  }

  class LogWinForm {
    var open: bool
    var selectedMissionId: string
    var note: string
    var loading: bool

    constructor (open: bool)
      ensures this.open == open && selectedMissionId == "" && note == "" && !loading
    {
      this.open := open;
      selectedMissionId := "";
      note := "";
      loading := false;
    }

    /** The mission part of the `try` block: the XP update, the level-up badge and the other badges. */
    method CreditMission(db: Store, userId: UserId, k: nat, now: string) returns (outcome: WinOutcome)
      requires k < |db.missions|
      modifies db`missions, db`profiles
      ensures Credited(db.missions, db.profiles, outcome)
        == Credit(old(db.missions), old(db.profiles), db.dailyEntries, db.completions, userId, k, now)
    {
      var m := db.missions[k];
      var newXp := m.xp + XpPerWin;
      var newLevel := newXp / 100 + 1;
      var leveledUp := newLevel > m.level;
      db.missions := SetProgress(db.missions, m.id, newXp, newLevel);
      if leveledUp {
        Badges.CheckFirstLevelUpBadge(db, userId, m.id, m.title, newLevel, now);
      }
      var added := Badges.CheckAndAwardBadges(db, userId, now);
      outcome := Logged(leveledUp, newLevel, added);
    }

    /**
     * After the check-in insert: fetch the mission, credit it and reset the
     * form. A failing update (`updateFails`) throws before anything is written.
     */
    method CreditSelected(db: Store, userId: UserId, now: string, updateFails: bool) returns (outcome: WinOutcome)
      modifies this`open, this`selectedMissionId, this`note, db`missions, db`profiles
      ensures FindMission(old(db.missions), old(selectedMissionId)).None? || updateFails ==>
        && outcome == (if FindMission(old(db.missions), old(selectedMissionId)).None? then MissionLookupFailed else WriteFailed)
        && db.missions == old(db.missions) && db.profiles == old(db.profiles)
        && open == old(open) && selectedMissionId == old(selectedMissionId) && note == old(note)
      ensures FindMission(old(db.missions), old(selectedMissionId)).Some? && !updateFails ==>
        && Credited(db.missions, db.profiles, outcome)
           == Credit(old(db.missions), old(db.profiles), db.dailyEntries, db.completions, userId,
                     FindMission(old(db.missions), old(selectedMissionId)).value, now)
        && !open && selectedMissionId == "" && note == ""
    {
      var found := FindMission(db.missions, selectedMissionId);
      if found.None? {
        outcome := MissionLookupFailed;
      } else if updateFails {
        outcome := WriteFailed;
      } else {
        outcome := CreditMission(db, userId, found.value, now);
        selectedMissionId := "";
        note := "";
        open := false;
      }
    }

    /**
     * The `try` block of `handleSubmit()`: the check-in is inserted first
     * (without the note), so a mission that cannot be fetched or updated
     * leaves the check-in behind; a failing check-in insert writes nothing; a
     * credited mission resets the form.
     */
    method Submit(db: Store, userId: UserId, today: Day, now: string, fault: WinFault) returns (outcome: WinOutcome)
      modifies this, db`checkins, db`missions, db`profiles
      ensures !loading
      ensures fault == CheckInFails ==>
        && outcome == WriteFailed && db.checkins == old(db.checkins)
        && db.missions == old(db.missions) && db.profiles == old(db.profiles)
        && open == old(open) && selectedMissionId == old(selectedMissionId) && note == old(note)
      ensures fault != CheckInFails ==>
        db.checkins == old(db.checkins) + [CheckIn(userId, old(selectedMissionId), XpPerWin, today)]
      ensures fault != CheckInFails && (FindMission(old(db.missions), old(selectedMissionId)).None? || fault == UpdateFails) ==>
        && outcome == (if FindMission(old(db.missions), old(selectedMissionId)).None? then MissionLookupFailed else WriteFailed)
        && db.missions == old(db.missions) && db.profiles == old(db.profiles)
        && open == old(open) && selectedMissionId == old(selectedMissionId) && note == old(note)
      ensures fault == NoFault && FindMission(old(db.missions), old(selectedMissionId)).Some? ==>
        && Credited(db.missions, db.profiles, outcome)
           == Credit(old(db.missions), old(db.profiles), db.dailyEntries, db.completions, userId,
                     FindMission(old(db.missions), old(selectedMissionId)).value, now)
        && !open && selectedMissionId == "" && note == ""
    {
      loading := true;
      if fault == CheckInFails {
        outcome := WriteFailed;
      } else {
        db.checkins := db.checkins + [CheckIn(userId, selectedMissionId, XpPerWin, today)];
        outcome := CreditSelected(db, userId, now, fault == UpdateFails);
      }
      loading := false;
    }

    /**
     * `handleSubmit()`. Without a mission, or with a note that fails the
     * safety check, nothing is written; otherwise it is `Submit`.
     */
    method HandleSubmit(db: Store, userId: UserId, today: Day, now: string, matches: (Category, string) -> bool, fault: WinFault)
      returns (outcome: WinOutcome)
      modifies this, db`checkins, db`missions, db`profiles
      ensures old(selectedMissionId) == "" ==>
        && outcome == NoMissionSelected
        && unchanged(this) && db.checkins == old(db.checkins) && db.missions == old(db.missions) && db.profiles == old(db.profiles)
      ensures old(selectedMissionId) != "" && old(note) != "" && !ValidateUserText(old(note), matches).valid ==>
        && outcome == InvalidNote(ValidateUserText(old(note), matches).error)
        && unchanged(this) && db.checkins == old(db.checkins) && db.missions == old(db.missions) && db.profiles == old(db.profiles)
      ensures old(selectedMissionId) != "" && (old(note) == "" || ValidateUserText(old(note), matches).valid) ==>
        && !loading
        && (fault == CheckInFails ==>
              && outcome == WriteFailed && db.checkins == old(db.checkins)
              && db.missions == old(db.missions) && db.profiles == old(db.profiles)
              && open == old(open) && selectedMissionId == old(selectedMissionId) && note == old(note))
        && (fault != CheckInFails ==>
              db.checkins == old(db.checkins) + [CheckIn(userId, old(selectedMissionId), XpPerWin, today)])
        && (fault != CheckInFails && (FindMission(old(db.missions), old(selectedMissionId)).None? || fault == UpdateFails) ==>
              && outcome == (if FindMission(old(db.missions), old(selectedMissionId)).None? then MissionLookupFailed else WriteFailed)
              && db.missions == old(db.missions) && db.profiles == old(db.profiles)
              && open == old(open) && selectedMissionId == old(selectedMissionId) && note == old(note))
        && (fault == NoFault && FindMission(old(db.missions), old(selectedMissionId)).Some? ==>
              && Credited(db.missions, db.profiles, outcome)
                 == Credit(old(db.missions), old(db.profiles), db.dailyEntries, db.completions, userId,
                           FindMission(old(db.missions), old(selectedMissionId)).value, now)
              && !open && selectedMissionId == "" && note == "")
    {
      if selectedMissionId == "" {
        return NoMissionSelected;
      }
      if note != "" {
        var validation := ValidateUserText(note, matches);
        if !validation.valid {
          return InvalidNote(validation.error);
        }
      }
      outcome := Submit(db, userId, today, now, fault);
    }
  }
}
