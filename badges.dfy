/**
 * Badge evaluation: `checkAndAwardBadges` (a seven-entry adjacency check and a
 * thirty-completion count) and `checkFirstLevelUpBadge`, both appending to the
 * `badges` list of the user's profile.
 */
module Badges {
  import opened Wrappers
  import opened Tables

  const StreakBadgeId: string := "streak-7"
  const CheckinsBadgeId: string := "checkins-30"

  function StreakBadge(earnedAt: string): Badge {
    Badge(StreakBadgeId, "Week Warrior", "Seven days of showing up. That's a pattern.", earnedAt)
  }

  function CheckinsBadge(earnedAt: string): Badge {
    Badge(CheckinsBadgeId, "Consistency Champion", "Thirty actions logged. Momentum builds on itself.", earnedAt)
  }

  /** `badges.map(b => b.id)`. */
  function Ids(badges: seq<Badge>): (r: seq<string>)
    ensures |r| == |badges| && forall i :: 0 <= i < |r| ==> r[i] == badges[i].id
  {
    seq(|badges|, i requires 0 <= i < |badges| => badges[i].id)
  }

  predicate DistinctIds(badges: seq<Badge>) {
    forall i, j :: 0 <= i < j < |badges| ==> badges[i].id != badges[j].id
  }

  /** The badge list stored in the profile, `[]` when the row or the column is missing. */
  function CurrentBadges(profiles: map<UserId, seq<Badge>>, u: UserId): seq<Badge> {
    if u in profiles then profiles[u] else []
  }

  function Abs(x: int): nat { if x < 0 then -x else x }

  /** Every neighbouring pair of fetched dates is at most one day apart (either way). */
  predicate AllAdjacent(dates: seq<Day>) {
    forall i :: 1 <= i < |dates| ==> Abs(dates[i - 1] - dates[i]) <= 1
  }

  /** The `for` loop with the `consecutive` flag and its `break`. */
  method Consecutive(dates: seq<Day>) returns (consecutive: bool)
    ensures consecutive <==> AllAdjacent(dates)
  {
    consecutive := true;
    var i := 1;
    while i < |dates|
      invariant 1 <= i <= |dates| || |dates| == 0
      invariant consecutive
      invariant forall k :: 1 <= k < i && k < |dates| ==> Abs(dates[k - 1] - dates[k]) <= 1
    {
      if Abs(dates[i - 1] - dates[i]) > 1 {
        consecutive := false;
        break;
      }
      i := i + 1;
    }
  }

  /**
   * The badges `checkAndAwardBadges` adds, given the profile's list, the seven
   * newest completed-entry dates, the completion count and the clock.
   */
  function NewBadges(current: seq<Badge>, recent: seq<Day>, completionCount: nat, now: string): seq<Badge> {
    StreakAward(Ids(current), recent, now) + CheckinsAward(Ids(current), completionCount, now)
  }

  /** The `streak-7` part: seven newest completed dates, each adjacent to the next. */
  function StreakAward(earned: seq<string>, recent: seq<Day>, now: string): seq<Badge> {
    if StreakBadgeId !in earned && |recent| >= 7 && AllAdjacent(recent) then [StreakBadge(now)] else []
  }

  /** The `checkins-30` part: thirty completions. */
  function CheckinsAward(earned: seq<string>, completionCount: nat, now: string): seq<Badge> {
    if CheckinsBadgeId !in earned && completionCount >= 30 then [CheckinsBadge(now)] else []
  }

  /**
   * Each badge is added exactly when it is not yet earned and its condition
   * holds; no added id is already present and none is added twice.
   */
  lemma NewBadgesSpec(current: seq<Badge>, recent: seq<Day>, completionCount: nat, now: string)
    ensures var nb := NewBadges(current, recent, completionCount, now);
      && (StreakBadgeId in Ids(nb) <==> StreakBadgeId !in Ids(current) && |recent| >= 7 && AllAdjacent(recent))
      && (CheckinsBadgeId in Ids(nb) <==> CheckinsBadgeId !in Ids(current) && completionCount >= 30)
      && (forall b :: b in nb ==> b.id !in Ids(current) && (b.id == StreakBadgeId || b.id == CheckinsBadgeId))
      && DistinctIds(nb) && |nb| <= 2
  {
    var ids := Ids(current);
    var sb := StreakAward(ids, recent, now);
    var cb := CheckinsAward(ids, completionCount, now);
    assert NewBadges(current, recent, completionCount, now) == sb + cb;
    IdsAppend(sb, cb);
    assert StreakBadgeId != CheckinsBadgeId by {
      assert StreakBadgeId[0] != CheckinsBadgeId[0];
    }
    assert Ids(sb) == if sb == [] then [] else [StreakBadgeId];
    assert Ids(cb) == if cb == [] then [] else [CheckinsBadgeId];
  }

  lemma IdsAppend(a: seq<Badge>, b: seq<Badge>)
    ensures Ids(a + b) == Ids(a) + Ids(b)
  {
  }

  /** Appending the new badges keeps the earned ids unique. */
  lemma AwardKeepsIdsDistinct(current: seq<Badge>, recent: seq<Day>, completionCount: nat, now: string)
    requires DistinctIds(current)
    ensures DistinctIds(current + NewBadges(current, recent, completionCount, now))
  {
    var nb := NewBadges(current, recent, completionCount, now);
    NewBadgesSpec(current, recent, completionCount, now);
    var all := current + nb;
    forall i, j | 0 <= i < j < |all| ensures all[i].id != all[j].id {
      if i < |current| && j >= |current| {
        assert all[j] in nb;
        assert all[i].id == Ids(current)[i];
      }
    }
  }

  /** A second evaluation right after the first adds nothing. */
  lemma AwardIdempotent(current: seq<Badge>, recent: seq<Day>, completionCount: nat, now: string, later: string)
    ensures var nb := NewBadges(current, recent, completionCount, now);
      NewBadges(current + nb, recent, completionCount, later) == []
  {
    var nb := NewBadges(current, recent, completionCount, now);
    NewBadgesSpec(current, recent, completionCount, now);
    var ids := Ids(current + nb);
    if StreakBadgeId !in Ids(current) && |recent| >= 7 && AllAdjacent(recent) {
      assert ids[|current|] == StreakBadgeId;
    } else if StreakBadgeId in Ids(current) {
      var k :| 0 <= k < |current| && Ids(current)[k] == StreakBadgeId;
      assert ids[k] == StreakBadgeId;
    }
    if CheckinsBadgeId !in Ids(current) && completionCount >= 30 {
      assert ids[|current + nb| - 1] == CheckinsBadgeId;
    } else if CheckinsBadgeId in Ids(current) {
      var k :| 0 <= k < |current| && Ids(current)[k] == CheckinsBadgeId;
      assert ids[k] == CheckinsBadgeId;
    }
  }

  /** Seven completed entries all on one day pass the adjacency check: a gap of 0 days counts as adjacent. */
  lemma SameDayEntriesEarnStreak(current: seq<Badge>, d: Day, now: string)
    requires StreakBadgeId !in Ids(current)
    ensures StreakBadge(now) in NewBadges(current, [d, d, d, d, d, d, d], 0, now)
  {
  }

  /** Along dates newest first, adjacency bounds the span: seven adjacent entries cover at most seven days. */
  lemma {:induction false} AdjacentSpan(dates: seq<Day>)
    requires |dates| > 0 && AllAdjacent(dates) && Descending(dates)
    ensures dates[0] - dates[|dates| - 1] <= |dates| - 1
    decreases |dates|
  {
    if |dates| > 1 {
      var prefix := dates[..|dates| - 1];
      assert AllAdjacent(prefix) by {
        forall i | 1 <= i < |prefix| ensures Abs(prefix[i - 1] - prefix[i]) <= 1 {
          assert prefix[i - 1] == dates[i - 1] && prefix[i] == dates[i];
        }
      }
      AdjacentSpan(prefix);
      assert Abs(dates[|dates| - 2] - dates[|dates| - 1]) <= 1;
    }
  }

  /** The `streak-7` block: reads the seven newest completed entries unless the badge is already earned. */
  method StreakCheck(entries: seq<DailyEntry>, userId: UserId, earned: seq<string>, now: string) returns (added: seq<Badge>)
    ensures added == StreakAward(earned, RecentCompletedDates(entries, userId, 7), now)
  {
    added := [];
    if StreakBadgeId !in earned {
      var recent := RecentCompletedDates(entries, userId, 7);
      if |recent| >= 7 {
        var consecutive := Consecutive(recent);
        if consecutive {
          added := [StreakBadge(now)];
        }
      }
    }
  }

  /** The `checkins-30` block: counts the user's completions unless the badge is already earned. */
  method CheckinsCheck(completions: seq<Completion>, userId: UserId, earned: seq<string>, now: string) returns (added: seq<Badge>)
    ensures added == CheckinsAward(earned, CountCompletions(completions, userId), now)
  {
    added := [];
    if CheckinsBadgeId !in earned {
      var count := CountCompletions(completions, userId);
      if count >= 30 {
        added := [CheckinsBadge(now)];
      }
    }
  }

  /** The profiles after `newBadges` are appended to the user's row; no row, no update. */
  function WithAwarded(profiles: map<UserId, seq<Badge>>, u: UserId, newBadges: seq<Badge>): map<UserId, seq<Badge>> {
    if |newBadges| > 0 && u in profiles then profiles[u := CurrentBadges(profiles, u) + newBadges] else profiles
  }

  /** `checkAndAwardBadges(userId)`; returns the newly added badges. */
  method CheckAndAwardBadges(db: Store, userId: UserId, now: string) returns (newBadges: seq<Badge>)
    modifies db`profiles
    ensures var current := CurrentBadges(old(db.profiles), userId);
      && newBadges == NewBadges(current, RecentCompletedDates(db.dailyEntries, userId, 7), CountCompletions(db.completions, userId), now)
      && db.profiles == WithAwarded(old(db.profiles), userId, newBadges)
  {
    var current := CurrentBadges(db.profiles, userId);
    var earned := Ids(current);
    var streak := StreakCheck(db.dailyEntries, userId, earned, now);
    var checkins := CheckinsCheck(db.completions, userId, earned, now);
    newBadges := streak + checkins;
    if |newBadges| > 0 && userId in db.profiles {
      db.profiles := db.profiles[userId := current + newBadges];
    }
  }

  // ----- first level-up -----

  function LevelUpBadge(missionId: string, missionTitle: string, now: string): Badge {
    Badge("first-levelup-" + missionId, missionTitle + " Initiate", "First level-up in " + missionTitle + "!", now)
  }

  /** The profile's list after `checkFirstLevelUpBadge`. */
  function WithFirstLevelUp(current: seq<Badge>, missionId: string, missionTitle: string, newLevel: int, now: string): seq<Badge> {
    var b := LevelUpBadge(missionId, missionTitle, now);
    if newLevel != 2 || b.id in Ids(current) then current else current + [b]
  }

  /**
   * Nothing happens unless the new level is 2; otherwise the mission's badge
   * ends up in the list exactly once if it was there at most once, appended
   * after the untouched existing badges, and doing it again changes nothing.
   */
  lemma FirstLevelUpSpec(current: seq<Badge>, missionId: string, missionTitle: string, newLevel: int, now: string, later: string)
    ensures var r := WithFirstLevelUp(current, missionId, missionTitle, newLevel, now);
      var id := "first-levelup-" + missionId;
      && (newLevel != 2 ==> r == current)
      && current <= r && |r| <= |current| + 1
      && (newLevel == 2 ==> id in Ids(r))
      && (|r| == |current| + 1 <==> newLevel == 2 && id !in Ids(current))
      && WithFirstLevelUp(r, missionId, missionTitle, newLevel, later) == r
      && (DistinctIds(current) ==> DistinctIds(r))
  {
    var r := WithFirstLevelUp(current, missionId, missionTitle, newLevel, now);
    var id := "first-levelup-" + missionId;
    if newLevel == 2 {
      if id in Ids(current) {
        var k :| 0 <= k < |current| && Ids(current)[k] == id;
        assert Ids(r)[k] == id;
      } else {
        assert Ids(r)[|current|] == id;
        assert forall i :: 0 <= i < |current| ==> current[i].id != id by {
          forall i | 0 <= i < |current| ensures current[i].id != id {
            assert Ids(current)[i] == current[i].id;
          }
        }
      }
    }
  }

  /** The profiles after `checkFirstLevelUpBadge`: only an existing row that gains the badge is written. */
  function ProfilesAfterLevelUp(profiles: map<UserId, seq<Badge>>, u: UserId, missionId: string, missionTitle: string,
                                newLevel: int, now: string): map<UserId, seq<Badge>> {
    var r := WithFirstLevelUp(CurrentBadges(profiles, u), missionId, missionTitle, newLevel, now);
    if newLevel == 2 && u in profiles && r != CurrentBadges(profiles, u) then profiles[u := r] else profiles
  }

  /** `checkFirstLevelUpBadge(userId, missionId, missionTitle, newLevel)`. */
  method CheckFirstLevelUpBadge(db: Store, userId: UserId, missionId: string, missionTitle: string, newLevel: int, now: string)
    modifies db`profiles
    ensures db.profiles == ProfilesAfterLevelUp(old(db.profiles), userId, missionId, missionTitle, newLevel, now)
  {
    if newLevel != 2 {
      return;
    }
    var current := CurrentBadges(db.profiles, userId);
    var b := LevelUpBadge(missionId, missionTitle, now);
    if b.id in Ids(current) {
      return;
    }
    if userId in db.profiles {
      db.profiles := db.profiles[userId := current + [b]];
    }
  }
}
