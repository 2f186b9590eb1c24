/**
 * The `share-weekly-horizon` function: builds the weekly share card from the
 * user's streak, the mission with the most check-ins in the last seven days,
 * an AI mentor line and an AI image.
 */
module ShareWeeklyHorizon {
  import opened Wrappers
  import opened Text
  import opened Tables
  import opened Grouping
  import opened Streak

  const StreakQueryLimit: nat := 100

  /** `profile?.display_name || "Horizon User"`. */
  function DisplayName(stored: Option<string>): (r: string)
    ensures r != ""
    ensures stored.Some? && stored.value != "" ==> r == stored.value
  {
    if stored.Some? && stored.value != "" then stored.value else "Horizon User"
  }

  /** `content?.trim() || "Keep pushing forward!"`. */
  function MentorLine(reply: Option<string>): (r: string)
    ensures r != ""
    ensures reply.Some? && Trim(reply.value) != "" ==> r == Trim(reply.value)
    ensures r == "Keep pushing forward!" || Trim(r) == r
  {
    if reply.Some? && Trim(reply.value) != "" then
      TrimIdempotent(reply.value);
      Trim(reply.value)
    else "Keep pushing forward!"
  }

  /** `ci.missions?.title || "Unknown"`: the joined mission's title. */
  function JoinedTitle(missions: seq<Mission>, missionId: string): string {
    match FindMission(missions, missionId)
    case Some(k) => if missions[k].title != "" then missions[k].title else "Unknown"
    case None => "Unknown"
  }

  /**
   * The check-ins query `.eq('user_id', u).gte('occurred_at', sevenDaysAgo)`
   * as dictionary rows keyed by mission id, named by the joined title.
   */
  function WeekCheckIns(checkins: seq<CheckIn>, missions: seq<Mission>, u: UserId, today: Day): (r: seq<Item<string, string>>)
    ensures |r| <= |checkins|
    ensures forall it :: it in r <==>
      exists c :: c in checkins && InWeek(c, u, today) && it == CheckInItem(c, missions)
    decreases |checkins|
  {
    if checkins == [] then []
    else
      var prev := checkins[..|checkins| - 1];
      var c := checkins[|checkins| - 1];
      assert checkins == prev + [c];
      WeekCheckIns(prev, missions, u, today) + (if InWeek(c, u, today) then [CheckInItem(c, missions)] else [])
  }

  /** The query's filter: the user's own check-ins of the last seven days. */
  predicate InWeek(c: CheckIn, u: UserId, today: Day) {
    c.userId == u && c.occurredAt >= today - 7
  }

  /** A check-in as a dictionary row: keyed by its mission, named by the joined title, counting one. */
  function CheckInItem(c: CheckIn, missions: seq<Mission>): Item<string, string> {
    Item(c.missionId, JoinedTitle(missions, c.missionId), 1.0)
  }

  /** The rows keep the check-ins' order: the rows of a concatenation are the rows of its parts, concatenated. */
  lemma {:induction false} WeekCheckInsAppend(a: seq<CheckIn>, b: seq<CheckIn>, missions: seq<Mission>, u: UserId, today: Day)
    ensures WeekCheckIns(a + b, missions, u, today) == WeekCheckIns(a, missions, u, today) + WeekCheckIns(b, missions, u, today)
    decreases |b|
  {
    if b == [] {
      assert a + b == a;
    } else {
      var b', x := b[..|b| - 1], b[|b| - 1];
      assert (a + b)[..|a + b| - 1] == a + b' && (a + b)[|a + b| - 1] == x;
      WeekCheckInsAppend(a, b', missions, u, today);
    }
  }

  /** Position of the first entry with the largest count: what a stable descending sort puts first. */
  function TopIndex(groups: seq<Group<string, string>>): (i: nat)
    requires |groups| > 0
    ensures i < |groups|
    ensures forall j :: 0 <= j < |groups| ==> groups[j].count <= groups[i].count
    ensures forall j :: 0 <= j < i ==> groups[j].count < groups[i].count
    decreases |groups|
  {
    if |groups| == 1 then 0
    else
      var k := TopIndex(groups[..|groups| - 1]);
      if groups[|groups| - 1].count > groups[k].count then |groups| - 1 else k
  }

  /** `topMission` and `completions`, with their defaults when nothing was checked in. */
  function Top(groups: seq<Group<string, string>>): (string, nat) {
    if groups == [] then ("No active missions", 0)
    else
      var i := TopIndex(groups);
      (groups[i].name, groups[i].count)
  }

  datatype ShareResponse =
    | ShareCard(image: string, displayName: string, topMission: string, completions: nat, streak: nat, mentorLine: string)
    | ShareFailed

  function StatusCode(r: ShareResponse): int {
    if r.ShareCard? then 200 else 500
  }

  /** The handler's answer, given the stored display name, the AI replies and the clock. */
  function Share(db_entries: seq<DailyEntry>, checkins: seq<CheckIn>, missions: seq<Mission>, u: UserId,
                 displayName: Option<string>, today: Day, mentorReply: Option<string>, imageUrl: Option<string>): ShareResponse
  {
    var streak := HeadRun(RecentCompletedDates(db_entries, u, StreakQueryLimit), today);
    var top := Top(GroupAll(WeekCheckIns(checkins, missions, u, today)));
    if imageUrl.None? || imageUrl.value == "" then ShareFailed
    else ShareCard(imageUrl.value, DisplayName(displayName), top.0, top.1, streak, MentorLine(mentorReply))
  }

  /**
   * The top mission is one with the most check-ins in the week, the first
   * such in order of first check-in, `completions` is its count, and the
   * per-mission counts add up to the check-ins fetched; with no check-ins the
   * defaults "No active missions" and 0 apply.
   */
  lemma {:induction false} TopMissionSpec(items: seq<Item<string, string>>)
    ensures var groups := GroupAll(items);
      var (title, completions) := Top(groups);
      && SumCounts(groups) == |items|
      && (items == [] ==> title == "No active missions" && completions == 0)
      && (items != [] ==>
            && completions > 0
            && (forall j :: 0 <= j < |items| ==> CountKey(items, items[j].key) <= completions)
            && exists f :: 0 <= f < |items| && FirstIndex(items, items[f].key) == f
                 && CountKey(items, items[f].key) == completions && title == items[f].name
                 && forall j :: 0 <= j < f ==> CountKey(items, items[j].key) < completions)
  {
    var groups := GroupAll(items);
    GroupAllSums(items);
    if items != [] {
      GroupAllDescribes(items);
      GroupAllOrdered(items);
      TopOfGrouping(groups, items);
    }
  }

  /** `TopMissionSpec` over any exact grouping of non-empty items in first-seen order. */
  lemma TopOfGrouping(groups: seq<Group<string, string>>, items: seq<Item<string, string>>)
    requires Describes(groups, items) && FirstSeenOrder(groups, items) && items != []
    ensures var (title, completions) := Top(groups);
      && completions > 0
      && (forall j :: 0 <= j < |items| ==> CountKey(items, items[j].key) <= completions)
      && exists f :: 0 <= f < |items| && FirstIndex(items, items[f].key) == f
           && CountKey(items, items[f].key) == completions && title == items[f].name
           && forall j :: 0 <= j < f ==> CountKey(items, items[j].key) < completions
  {
    CountKeyMember(items, 0);
    assert Find(groups, items[0].key) >= 0;
    var i := TopIndex(groups);
    TopCountsMost(groups, items, i);
    var f := FirstIndex(items, groups[i].key);
    FirstIndexPresent(items, groups[i].key);
    EarlierKeysCountLess(groups, items, i);
    assert items[f].key == groups[i].key;
  }

  /** An entry counting at least as much as every other one counts at least as much as every row's key. */
  lemma TopCountsMost(groups: seq<Group<string, string>>, items: seq<Item<string, string>>, i: nat)
    requires Describes(groups, items)
    requires i < |groups| && forall j :: 0 <= j < |groups| ==> groups[j].count <= groups[i].count
    ensures forall j :: 0 <= j < |items| ==> CountKey(items, items[j].key) <= groups[i].count
  {
    forall j | 0 <= j < |items| ensures CountKey(items, items[j].key) <= groups[i].count {
      CountKeyMember(items, j);
      var g := Find(groups, items[j].key);
      assert groups[g].count == CountKey(items, items[j].key);
    }
  }

  /**
   * Every row before the first row of entry `i` belongs to an earlier entry,
   * so when all earlier entries count less, so do those rows' keys.
   */
  lemma EarlierKeysCountLess(groups: seq<Group<string, string>>, items: seq<Item<string, string>>, i: nat)
    requires Describes(groups, items) && FirstSeenOrder(groups, items)
    requires i < |groups| && forall j :: 0 <= j < i ==> groups[j].count < groups[i].count
    ensures forall j :: 0 <= j < FirstIndex(items, groups[i].key) ==> CountKey(items, items[j].key) < groups[i].count
  {
    forall j | 0 <= j < FirstIndex(items, groups[i].key) ensures CountKey(items, items[j].key) < groups[i].count {
      CountKeyMember(items, j);
      FirstIndexAtMost(items, j);
      var k := Find(groups, items[j].key);
      assert groups[k].count == CountKey(items, items[j].key);
      assert FirstIndex(items, groups[k].key) < FirstIndex(items, groups[i].key);
    }
  }

  /** With no completed entries the streak is 0, and it never exceeds the 100 entries fetched. */
  lemma ShareStreakBounds(entries: seq<DailyEntry>, u: UserId, today: Day)
    ensures HeadRun(RecentCompletedDates(entries, u, StreakQueryLimit), today) <= StreakQueryLimit
    ensures CompletedDates(entries, u) == [] ==> HeadRun(RecentCompletedDates(entries, u, StreakQueryLimit), today) == 0
  {
    QueryStreak(entries, u, today);
  }

  /** A missing image is a 500; otherwise the card carries the fallbacks for a missing name or mentor line. */
  lemma ShareFallbacks(entries: seq<DailyEntry>, checkins: seq<CheckIn>, missions: seq<Mission>, u: UserId,
                       displayName: Option<string>, today: Day, mentorReply: Option<string>, imageUrl: Option<string>)
    ensures var r := Share(entries, checkins, missions, u, displayName, today, mentorReply, imageUrl);
      && (StatusCode(r) == 500 <==> imageUrl.None? || imageUrl.value == "")
      && (r.ShareCard? && displayName.None? ==> r.displayName == "Horizon User")
      && (r.ShareCard? && mentorReply.None? ==> r.mentorLine == "Keep pushing forward!")
      && (r.ShareCard? ==> r.displayName != "" && r.mentorLine != "")
  {
  }

  /** The handler: the streak loop and the `missionCounts` loop, then the card. */
  method ShareWeeklyHorizon(db: Store, u: UserId, displayName: Option<string>, today: Day,
                            mentorReply: Option<string>, imageUrl: Option<string>) returns (resp: ShareResponse)
    ensures resp == Share(db.dailyEntries, db.checkins, db.missions, u, displayName, today, mentorReply, imageUrl)
  {
    var entries := RecentCompletedDates(db.dailyEntries, u, StreakQueryLimit);
    var streak := 0;
    if |entries| > 0 {
      streak := CalculateStreak(entries, today);
    }
    var topMission := "No active missions";
    var completions := 0;
    var checkIns := WeekCheckIns(db.checkins, db.missions, u, today);
    if |checkIns| > 0 {
      var missionCounts := GroupLoop(checkIns);
      GroupAllDescribes(checkIns);
      CountKeyMember(checkIns, 0);
      assert Find(missionCounts, checkIns[0].key) >= 0;
      var top := TopIndex(missionCounts);
      topMission := missionCounts[top].name;
      completions := missionCounts[top].count;
    }
    if imageUrl.None? || imageUrl.value == "" {
      return ShareFailed;
    }
    resp := ShareCard(imageUrl.value, DisplayName(displayName), topMission, completions, streak, MentorLine(mentorReply));
  }
}
