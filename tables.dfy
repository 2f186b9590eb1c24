/**
 * The database tables the core reads and writes, as a class whose fields are
 * the tables. Row ids generated by the database are modelled as positions in
 * the table (rows are never deleted by the core). Dates are day numbers.
 */
module Tables {
  import opened Wrappers

  /** A calendar date as a number of days; consecutive dates differ by 1. */
  type Day = int
  type UserId = string

  /** The `mission_type` database enum. */
  datatype MissionType = Mind | Body | Craft | Relationships | Finance | Spirit | Custom

  /** The enum label as stored and as interpolated into text. */
  function TypeName(t: MissionType): string {
    match t
    case Mind => "Mind"
    case Body => "Body"
    case Craft => "Craft"
    case Relationships => "Relationships"
    case Finance => "Finance"
    case Spirit => "Spirit"
    case Custom => "Custom"
  }

  datatype Mission = Mission(
    id: string, userId: UserId, title: string, missionType: MissionType, cadence: string,
    active: bool, xp: int, coins: int, level: int, targetPerWeek: int)

  datatype InstanceStatus = Available | Completed | Claimed

  datatype MissionInstance = MissionInstance(missionId: string, userId: UserId, periodId: string, status: InstanceStatus)

  datatype Completion = Completion(instanceId: nat, userId: UserId, xpAwarded: int, coinsAwarded: int)

  /** A `user_stats` row; a column that was never written is `None`. */
  datatype UserStats = UserStats(xpTotal: Option<int>, coinsTotal: Option<int>, dailyStreak: Option<int>, lastDailyDate: Option<Day>)

  datatype Badge = Badge(id: string, name: string, description: string, earnedAt: string)

  datatype DailyEntry = DailyEntry(
    userId: UserId, date: Day, mood: int, reflections: string, aiPrompt: string, aiSuggestion: string, completed: bool)

  datatype CheckIn = CheckIn(userId: UserId, missionId: string, xpAwarded: int, occurredAt: Day)

  datatype MentorNote = MentorNote(userId: UserId, note: string, tags: seq<string>, createdOn: Day)

  class Store {
    var missions: seq<Mission>
    var instances: seq<MissionInstance>
    var completions: seq<Completion>
    var stats: map<UserId, UserStats>
    /** The `badges` column of each profile row; a user without a profile row has no key. */
    var profiles: map<UserId, seq<Badge>>
    var dailyEntries: seq<DailyEntry>
    var checkins: seq<CheckIn>
    var mentorNotes: seq<MentorNote>

    constructor ()
      ensures missions == [] && instances == [] && completions == [] && stats == map[]
      ensures profiles == map[] && dailyEntries == [] && checkins == [] && mentorNotes == []
    {
      missions := [];
      instances := [];
      completions := [];
      stats := map[];
      profiles := map[];
      dailyEntries := [];
      checkins := [];
      mentorNotes := [];
    }
  }

  /** `.eq('id', id).single()` on the missions table: the row with that id, if any. */
  function FindMission(missions: seq<Mission>, id: string): (r: Option<nat>)
    ensures r.Some? ==> r.value < |missions| && missions[r.value].id == id
    ensures r.None? ==> forall i :: 0 <= i < |missions| ==> missions[i].id != id
  {
    if missions == [] then None
    else if missions[0].id == id then Some(0)
    else match FindMission(missions[1..], id)
      case None => None
      case Some(i) => Some(i + 1)
  }

  /** `select count(*) from mission_completions where user_id = u`. */
  function CountCompletions(completions: seq<Completion>, u: UserId): nat
    decreases |completions|
  {
    if completions == [] then 0
    else
      var c := completions[|completions| - 1];
      CountCompletions(completions[..|completions| - 1], u) + (if c.userId == u then 1 else 0)
  }

  lemma CountCompletionsAppend(completions: seq<Completion>, c: Completion, u: UserId)
    ensures CountCompletions(completions + [c], u) == CountCompletions(completions, u) + (if c.userId == u then 1 else 0)
  {
    assert (completions + [c])[..|completions|] == completions;
  }

  // ----- the ordered daily-entry query -----

  predicate Descending(s: seq<Day>) {
    forall i, j :: 0 <= i < j < |s| ==> s[i] >= s[j]
  }

  /** Inserts `x` into a descending sequence. */
  function InsertDesc(x: Day, s: seq<Day>): (r: seq<Day>)
    requires Descending(s)
    ensures Descending(r)
    ensures multiset(r) == multiset(s) + multiset{x}
    ensures |r| == |s| + 1
  {
    if s == [] || x >= s[0] then
      ConsDescending(x, s);
      [x] + s
    else
      var t := InsertDesc(x, s[1..]);
      assert s == [s[0]] + s[1..];
      forall k | 0 <= k < |t| ensures s[0] >= t[k] {
        assert t[k] in multiset(t);
        assert t[k] == x || t[k] in s[1..];
      }
      ConsDescending(s[0], t);
      [s[0]] + t
  }

  lemma ConsDescending(h: Day, t: seq<Day>)
    requires Descending(t) && forall k :: 0 <= k < |t| ==> h >= t[k]
    ensures Descending([h] + t)
  {
    var r := [h] + t;
    forall i, j | 0 <= i < j < |r| ensures r[i] >= r[j] {
      if i > 0 {
        assert r[i] == t[i - 1] && r[j] == t[j - 1];
      }
    }
  }

  /** `order(date, descending)`: the dates of a table, newest first. */
  function SortDesc(s: seq<Day>): (r: seq<Day>)
    ensures Descending(r)
    ensures multiset(r) == multiset(s)
    ensures |r| == |s|
  {
    if s == [] then []
    else
      assert s == [s[0]] + s[1..];
      InsertDesc(s[0], SortDesc(s[1..]))
  }

  /** The dates of the completed entries of user `u`, in table order. */
  function CompletedDates(entries: seq<DailyEntry>, u: UserId): seq<Day>
    decreases |entries|
  {
    if entries == [] then []
    else
      var e := entries[|entries| - 1];
      CompletedDates(entries[..|entries| - 1], u) + (if e.userId == u && e.completed then [e.date] else [])
  }

  lemma CompletedDatesMember(entries: seq<DailyEntry>, u: UserId, d: Day)
    ensures d in CompletedDates(entries, u) <==>
      exists i :: 0 <= i < |entries| && entries[i].userId == u && entries[i].completed && entries[i].date == d
    decreases |entries|
  {
    if entries != [] {
      var n := |entries|;
      CompletedDatesMember(entries[..n - 1], u, d);
      if d in CompletedDates(entries[..n - 1], u) {
        var i :| 0 <= i < n - 1 && entries[..n - 1][i].userId == u && entries[..n - 1][i].completed && entries[..n - 1][i].date == d;
        assert entries[i] == entries[..n - 1][i];
      }
      if exists i :: 0 <= i < n && entries[i].userId == u && entries[i].completed && entries[i].date == d {
        var i :| 0 <= i < n && entries[i].userId == u && entries[i].completed && entries[i].date == d;
        if i < n - 1 {
          assert entries[..n - 1][i] == entries[i];
        }
      }
    }
  }

  /** `.limit(n)`. */
  function Take<T>(s: seq<T>, n: nat): (r: seq<T>)
    ensures |r| <= n && |r| <= |s|
    ensures |r| == if |s| <= n then |s| else n
    ensures r == s[..|r|]
  {
    if |s| <= n then s else s[..n]
  }

  /**
   * `from('daily_entries').select('date').eq('user_id', u).eq('completed', true)
   *  .order('date', { ascending: false }).limit(n)`.
   */
  function RecentCompletedDates(entries: seq<DailyEntry>, u: UserId, n: nat): (r: seq<Day>)
    ensures |r| <= n
    ensures Descending(r)
  {
    Take(SortDesc(CompletedDates(entries, u)), n)
  }

  /**
   * The query returns the user's completed dates, as many as the limit
   * allows, and leaves out only dates no newer than every date it keeps.
   */
  lemma RecentCompletedDatesSpec(entries: seq<DailyEntry>, u: UserId, n: nat)
    ensures var all, r := CompletedDates(entries, u), RecentCompletedDates(entries, u, n);
      && multiset(r) <= multiset(all)
      && |r| == (if |all| <= n then |all| else n)
      && forall d :: multiset(r)[d] < multiset(all)[d] ==> forall i :: 0 <= i < |r| ==> d <= r[i]
  {
    var sorted := SortDesc(CompletedDates(entries, u));
    var r := RecentCompletedDates(entries, u, n);
    assert sorted == r + sorted[|r|..];
    DescendingPrefix(sorted, r, sorted[|r|..]);
  }

  /** A prefix of a descending list keeps every date it leaves out no newer than the dates it keeps. */
  lemma DescendingPrefix(sorted: seq<Day>, r: seq<Day>, rest: seq<Day>)
    requires Descending(sorted) && sorted == r + rest
    ensures multiset(r) <= multiset(sorted)
    ensures forall d :: multiset(r)[d] < multiset(sorted)[d] ==> forall i :: 0 <= i < |r| ==> d <= r[i]
  {
    assert multiset(sorted) == multiset(r) + multiset(rest);
    forall d | multiset(r)[d] < multiset(sorted)[d] ensures forall i :: 0 <= i < |r| ==> d <= r[i] {
      assert d in multiset(rest);
      var k :| 0 <= k < |rest| && rest[k] == d;
      assert sorted[|r| + k] == d;
      forall i | 0 <= i < |r| ensures d <= r[i] {
        assert sorted[i] == r[i];
      }
    }
  }

  /** The newest entry of a descending list is the largest date of the table. */
  lemma SortDescHead(s: seq<Day>, d: Day)
    requires d in s
    requires forall k :: 0 <= k < |s| ==> s[k] <= d
    ensures |SortDesc(s)| > 0 && SortDesc(s)[0] == d
  {
    var r := SortDesc(s);
    assert d in multiset(r);
    assert r[0] in multiset(s);
  }

  /** `.eq('user_id', u).gte('date', since)` on `daily_entries`. */
  function UserEntriesSince(entries: seq<DailyEntry>, u: UserId, since: Day): (r: seq<DailyEntry>)
    ensures forall e :: e in r <==> e in entries && e.userId == u && e.date >= since
    ensures |r| <= |entries|
    decreases |entries|
  {
    if entries == [] then []
    else
      var rest := UserEntriesSince(entries[1..], u, since);
      if entries[0].userId == u && entries[0].date >= since then [entries[0]] + rest else rest
  }

  predicate DateDesc(s: seq<DailyEntry>) {
    forall i, j :: 0 <= i < j < |s| ==> s[i].date >= s[j].date
  }

  function InsertByDate(e: DailyEntry, s: seq<DailyEntry>): (r: seq<DailyEntry>)
    requires DateDesc(s)
    ensures DateDesc(r) && multiset(r) == multiset(s) + multiset{e}
    decreases |s|
  {
    if s == [] || e.date >= s[0].date then
      ConsDateDesc(e, s);
      [e] + s
    else
      var rest := InsertByDate(e, s[1..]);
      assert s == [s[0]] + s[1..];
      forall k | 0 <= k < |rest| ensures s[0].date >= rest[k].date {
        assert rest[k] in multiset(rest);
        assert rest[k] == e || rest[k] in s[1..];
      }
      ConsDateDesc(s[0], rest);
      [s[0]] + rest
  }

  lemma ConsDateDesc(h: DailyEntry, t: seq<DailyEntry>)
    requires DateDesc(t) && forall k :: 0 <= k < |t| ==> h.date >= t[k].date
    ensures DateDesc([h] + t)
  {
    var r := [h] + t;
    forall i, j | 0 <= i < j < |r| ensures r[i].date >= r[j].date {
      if i > 0 {
        assert r[i] == t[i - 1] && r[j] == t[j - 1];
      }
    }
  }

  /** `.order('date', { ascending: false })`. */
  function ByDateDesc(s: seq<DailyEntry>): (r: seq<DailyEntry>)
    ensures DateDesc(r) && multiset(r) == multiset(s)
    decreases |s|
  {
    if s == [] then []
    else
      assert s == [s[0]] + s[1..];
      InsertByDate(s[0], ByDateDesc(s[1..]))
  }

  /** `.eq('user_id', u).eq('active', true)`. */
  function ActiveMissions(missions: seq<Mission>, u: UserId): (r: seq<Mission>)
    ensures forall m :: m in r <==> m in missions && m.userId == u && m.active
    decreases |missions|
  {
    if missions == [] then []
    else
      var prev := ActiveMissions(missions[..|missions| - 1], u);
      var m := missions[|missions| - 1];
      assert missions == missions[..|missions| - 1] + [m];
      if m.userId == u && m.active then prev + [m] else prev
  }

}
