/**
 * The daily pulse card: its streak, and `completePulse`, which validates the
 * reflections, saves today's entry (update when its id is known, insert
 * otherwise), recomputes the streak and evaluates badges.
 */
module DailyPulse {
  import opened Wrappers
  import opened Text
  import opened Tables
  import opened Validation
  import opened Streak
  import Badges

  /** The streak query: completed entries of the user, newest first, at most 100. */
  const StreakQueryLimit: nat := 100

  /** The row `completePulse` writes. */
  function PulseEntry(userId: UserId, today: Day, mood: int, reflections: string, aiPrompt: string, aiSuggestion: string): DailyEntry {
    DailyEntry(userId, today, mood, TruncateText(reflections, MaxTextLength), aiPrompt, aiSuggestion, true)
  }

  /** The table and the entry id after the update (known id) or the insert (no id). */
  function SaveEntry(entries: seq<DailyEntry>, entryId: Option<nat>, e: DailyEntry): (seq<DailyEntry>, nat)
    requires entryId.Some? ==> entryId.value < |entries|
  {
    match entryId
    case Some(id) => (entries[id := e], id)
    case None => (entries + [e], |entries|)
  }

  /**
   * The saved row sits at the returned id and no other row changes; a row is
   * inserted only when no id was known, and saving again under the returned
   * id rewrites that row instead of inserting another.
   */
  lemma SaveEntrySpec(entries: seq<DailyEntry>, entryId: Option<nat>, e: DailyEntry, e2: DailyEntry)
    requires entryId.Some? ==> entryId.value < |entries|
    ensures var (t, id) := SaveEntry(entries, entryId, e);
      && id < |t| && t[id] == e
      && |t| == (if entryId.None? then |entries| + 1 else |entries|)
      && (forall j :: 0 <= j < |entries| && j != id ==> t[j] == entries[j])
      && (entryId.Some? ==> id == entryId.value)
      && var (t2, id2) := SaveEntry(t, Some(id), e2);
         id2 == id && |t2| == |t| && t2[id] == e2
  {
  }

  /** The saved row is completed and its reflections are the first 2000 characters. */
  lemma PulseEntrySpec(userId: UserId, today: Day, mood: int, reflections: string, aiPrompt: string, aiSuggestion: string)
    ensures var e := PulseEntry(userId, today, mood, reflections, aiPrompt, aiSuggestion);
      && e.completed && e.date == today && e.userId == userId
      && |e.reflections| <= MaxTextLength && e.reflections == reflections[..|e.reflections|]
      && (|reflections| <= MaxTextLength ==> e.reflections == reflections)
  {
    TruncateTextSpec(reflections, MaxTextLength);
  }

  /**
   * Once today's entry is saved, and when no completed entry of the user
   * lies after today, the streak is at least 1.
   */
  lemma SavedTodayStreak(entries: seq<DailyEntry>, entryId: Option<nat>, e: DailyEntry, today: Day)
    requires entryId.Some? ==> entryId.value < |entries|
    requires e.completed && e.date == today
    requires forall i :: 0 <= i < |entries| && entries[i].userId == e.userId && entries[i].completed ==> entries[i].date <= today
    ensures HeadRun(RecentCompletedDates(SaveEntry(entries, entryId, e).0, e.userId, StreakQueryLimit), today) >= 1
  {
    var (t, id) := SaveEntry(entries, entryId, e);
    assert t[id].userId == e.userId && t[id].completed && t[id].date == today;
    QueryStreak(t, e.userId, today);
  }

  datatype PulseOutcome = Invalid(error: Option<string>) | SaveFailed | Saved(newBadges: seq<Badge>)

  class DailyPulseCard {
    var loading: bool
    var mood: int
    var reflections: string
    var aiPrompt: string
    var aiSuggestion: string
    var entryId: Option<nat>
    var streak: nat
    var hasCompletedToday: bool

    constructor ()
      ensures !loading && mood == 3 && reflections == "" && aiPrompt == "" && aiSuggestion == ""
      ensures entryId.None? && streak == 0 && !hasCompletedToday
    {
      loading := false;
      mood := 3;
      reflections := "";
      aiPrompt := "";
      aiSuggestion := "";
      entryId := None;
      streak := 0;
      hasCompletedToday := false;
    }

    /** `disabled` of the mood slider and of the reflections textarea. */
    predicate InputsDisabled()
      reads this
    {
      hasCompletedToday
    }

    /** `disabled` of the complete button. */
    predicate SubmitDisabled()
      reads this
    {
      loading || hasCompletedToday || Trim(reflections) == []
    }

    /** The streak effect: `calculateStreak()` over the streak query. */
    method LoadStreak(db: Store, userId: UserId, today: Day)
      modifies this`streak
      ensures streak == HeadRun(RecentCompletedDates(db.dailyEntries, userId, StreakQueryLimit), today)
    {
      streak := CalculateStreak(RecentCompletedDates(db.dailyEntries, userId, StreakQueryLimit), today);
    }

    /** The `if (entryId)` update-or-insert of the entry row. */
    method Save(db: Store, e: DailyEntry)
      requires entryId.Some? ==> entryId.value < |db.dailyEntries|
      modifies this`entryId, db`dailyEntries
      ensures (db.dailyEntries, entryId) == (SaveEntry(old(db.dailyEntries), old(entryId), e).0, Some(SaveEntry(old(db.dailyEntries), old(entryId), e).1))
    {
      if entryId.Some? {
        db.dailyEntries := db.dailyEntries[entryId.value := e];
      } else {
        db.dailyEntries := db.dailyEntries + [e];
        entryId := Some(|db.dailyEntries| - 1);
      }
    }

    /** The first half of the `try` block of `completePulse()`: save, mark completed, refresh the streak. */
    method SaveAndRefresh(db: Store, userId: UserId, today: Day)
      requires entryId.Some? ==> entryId.value < |db.dailyEntries|
      modifies this`entryId, this`hasCompletedToday, this`streak, this`loading, db`dailyEntries
      ensures var e := PulseEntry(userId, today, mood, reflections, aiPrompt, aiSuggestion);
        var saved := SaveEntry(old(db.dailyEntries), old(entryId), e);
        && db.dailyEntries == saved.0 && entryId == Some(saved.1)
        && hasCompletedToday && loading
        && streak == HeadRun(RecentCompletedDates(saved.0, userId, StreakQueryLimit), today)
    {
      loading := true;
      var e := PulseEntry(userId, today, mood, reflections, aiPrompt, aiSuggestion);
      ghost var saved := SaveEntry(db.dailyEntries, entryId, e);
      Save(db, e);
      assert db.dailyEntries == saved.0 && entryId == Some(saved.1);
      hasCompletedToday := true;
      LoadStreak(db, userId, today);
    }

    /**
     * `completePulse()`. Invalid reflections stop it before any write; a
     * save leaves the card completed, which disables its inputs and button.
     * `saveFails` is an error of the update or insert (lines 164 and 173): it
     * is thrown before anything is written, and the card stays open.
     */
    method CompletePulse(db: Store, userId: UserId, today: Day, now: string, matches: (Category, string) -> bool, saveFails: bool)
      returns (outcome: PulseOutcome)
      requires entryId.Some? ==> entryId.value < |db.dailyEntries|
      modifies this`entryId, this`hasCompletedToday, this`streak, this`loading, db`dailyEntries, db`profiles
      ensures var v := ValidateUserText(reflections, matches);
        !v.valid ==>
          && outcome == Invalid(v.error)
          && db.dailyEntries == old(db.dailyEntries) && db.profiles == old(db.profiles)
          && entryId == old(entryId) && hasCompletedToday == old(hasCompletedToday)
          && streak == old(streak) && loading == old(loading)
      ensures ValidateUserText(reflections, matches).valid && saveFails ==>
        && outcome == SaveFailed && !loading
        && db.dailyEntries == old(db.dailyEntries) && db.profiles == old(db.profiles)
        && entryId == old(entryId) && hasCompletedToday == old(hasCompletedToday) && streak == old(streak)
      ensures ValidateUserText(reflections, matches).valid && !saveFails ==>
        var e := PulseEntry(userId, today, mood, reflections, aiPrompt, aiSuggestion);
        var saved := SaveEntry(old(db.dailyEntries), old(entryId), e);
        var t := saved.0;
        && db.dailyEntries == t && entryId == Some(saved.1)
        && hasCompletedToday && !loading && InputsDisabled() && SubmitDisabled()
        && streak == HeadRun(RecentCompletedDates(t, userId, StreakQueryLimit), today)
        && outcome.Saved?
        && outcome.newBadges == Badges.NewBadges(Badges.CurrentBadges(old(db.profiles), userId),
             RecentCompletedDates(t, userId, 7), CountCompletions(db.completions, userId), now)
        && db.profiles == Badges.WithAwarded(old(db.profiles), userId, outcome.newBadges)
    {
      var validation := ValidateUserText(reflections, matches);
      if !validation.valid {
        return Invalid(validation.error);
      }
      if saveFails {
        loading := false;
        return SaveFailed;
      }
      ghost var saved := SaveEntry(db.dailyEntries, entryId, PulseEntry(userId, today, mood, reflections, aiPrompt, aiSuggestion));
      SaveAndRefresh(db, userId, today);
      var added := Badges.CheckAndAwardBadges(db, userId, now);
      assert db.dailyEntries == saved.0 && entryId == Some(saved.1);
      loading := false;
      outcome := Saved(added);
    }
  }
}
