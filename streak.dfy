/**
 * The head-of-list streak shared by the daily pulse card and the weekly share
 * card: walking the completed entries newest first, entry `i` must fall on
 * today minus `i` days; the first miss ends the streak.
 */
module Streak {
  import opened Tables

  /** The first `k` dates are today, yesterday, ... in that order. */
  predicate PrefixMatches(dates: seq<Day>, today: Day, k: nat)
    requires k <= |dates|
  {
    forall i :: 0 <= i < k ==> dates[i] == today - i
  }

  /** The streak, defined recursively on the list. */
  function HeadRun(dates: seq<Day>, today: Day): (n: nat)
    ensures n <= |dates|
    ensures PrefixMatches(dates, today, n)
    ensures n < |dates| ==> dates[n] != today - n
  {
    if dates == [] || dates[0] != today then 0
    else
      var n := 1 + HeadRun(dates[1..], today - 1);
      assert forall i :: 1 <= i < n ==> dates[i] == dates[1..][i - 1];
      n
  }

  /** The loop with its `break`, as both components write it. */
  method CalculateStreak(dates: seq<Day>, today: Day) returns (streak: nat)
    ensures streak <= |dates| && PrefixMatches(dates, today, streak)
    ensures streak < |dates| ==> dates[streak] != today - streak
    ensures streak == HeadRun(dates, today)
  {
    streak := 0;
    var i := 0;
    while i < |dates|
      invariant 0 <= i <= |dates| && streak == i
      invariant PrefixMatches(dates, today, i)
    {
      if dates[i] == today - i {
        streak := streak + 1;
      } else {
        break;
      }
      i := i + 1;
    }
    LongestPrefixUnique(dates, today, streak);
  }

  /** The loop's answer and the recursive definition agree: the longest matching prefix is unique. */
  lemma LongestPrefixUnique(dates: seq<Day>, today: Day, k: nat)
    requires k <= |dates| && PrefixMatches(dates, today, k)
    requires k < |dates| ==> dates[k] != today - k
    ensures k == HeadRun(dates, today)
  {
  }

  /** No entries, or a newest entry that is not today, give a streak of 0; the streak never exceeds the entries fetched. */
  lemma HeadRunBounds(dates: seq<Day>, today: Day, limit: nat)
    requires |dates| <= limit
    ensures HeadRun(dates, today) <= limit
    ensures dates == [] || dates[0] != today ==> HeadRun(dates, today) == 0
    ensures dates != [] && dates[0] == today ==> HeadRun(dates, today) >= 1
  {
  }

  /**
   * Over the entries the query returns (newest first, at most 100), the
   * streak is 0 with no completed entries, and at least 1 once today's
   * entry is completed and no completed entry lies in the future.
   */
  lemma {:induction false} QueryStreak(entries: seq<DailyEntry>, u: UserId, today: Day)
    ensures HeadRun(RecentCompletedDates(entries, u, 100), today) <= 100
    ensures CompletedDates(entries, u) == [] ==> HeadRun(RecentCompletedDates(entries, u, 100), today) == 0
    ensures (exists i :: 0 <= i < |entries| && entries[i].userId == u && entries[i].completed && entries[i].date == today)
         && (forall i :: 0 <= i < |entries| && entries[i].userId == u && entries[i].completed ==> entries[i].date <= today)
         ==> HeadRun(RecentCompletedDates(entries, u, 100), today) >= 1
  {
    var ds := CompletedDates(entries, u);
    if (exists i :: 0 <= i < |entries| && entries[i].userId == u && entries[i].completed && entries[i].date == today)
       && (forall i :: 0 <= i < |entries| && entries[i].userId == u && entries[i].completed ==> entries[i].date <= today) {
      CompletedDatesMember(entries, u, today);
      forall k | 0 <= k < |ds| ensures ds[k] <= today {
        CompletedDatesMember(entries, u, ds[k]);
      }
      SortDescHead(ds, today);
    }
  }
}
