/**
 * The feedback service: the rating guard on submission, the per-feature
 * summary (average, distribution, ten most recent), and the admin
 * statistics (per-feature averages and the last week's daily trend).
 */
module UserFeedback {
  import opened Wrappers
  import opened Text
  import opened Tables
  import opened Grouping

  /** A `user_feedback` row. The table is kept in insertion order, which is also timestamp order. */
  datatype FeedbackRow = FeedbackRow(
    userId: UserId, feature: string, rating: int, text: Option<string>, sessionId: Option<string>, timestamp: Day)

  datatype SubmitResult = SubmitResult(success: bool, error: Option<string>)

  const NotAuthenticated: string := "User not authenticated"
  const RatingOutOfRange: string := "Rating must be between 1 and 5"
  const StoreFailed: string := "Failed to store feedback"

  predicate ValidRating(rating: int) { 1 <= rating <= 5 }

  // ----- shared pieces -----

  /** `Math.round(x * 100) / 100`: rounding half up to two decimals. */
  function Round2(x: real): real {
    (x * 100.0 + 0.5).Floor as real / 100.0
  }

  /** Rounding moves a value by at most half a cent and keeps it between whole bounds around it. */
  lemma Round2Spec(x: real, lo: int, hi: int)
    ensures x - 0.005 < Round2(x) <= x + 0.005
    ensures lo as real <= x <= hi as real ==> lo as real <= Round2(x) <= hi as real
  {
    var f := (x * 100.0 + 0.5).Floor;
    assert f as real <= x * 100.0 + 0.5 < f as real + 1.0;
    if lo as real <= x <= hi as real {
      assert lo * 100 <= f by {
        assert (lo * 100) as real <= x * 100.0 + 0.5;
      }
      assert f <= hi * 100 by {
        assert x * 100.0 + 0.5 < (hi * 100) as real + 1.0;
      }
    }
  }

  function RatingOf(x: FeedbackRow): int { x.rating }
  function FeatureOf(x: FeedbackRow): string { x.feature }
  function DateOf(x: FeedbackRow): Day { x.timestamp }

  /** Each row as an item keyed by `key`, weighing its rating. */
  function Ratings<K>(rows: seq<FeedbackRow>, key: FeedbackRow -> K): (items: seq<Item<K, K>>)
    ensures |items| == |rows|
    ensures forall i :: 0 <= i < |rows| ==> items[i] == Item(key(rows[i]), key(rows[i]), rows[i].rating as real)
  {
    seq(|rows|, i requires 0 <= i < |rows| => Item(key(rows[i]), key(rows[i]), rows[i].rating as real))
  }

  predicate RatingsInRange(rows: seq<FeedbackRow>) {
    forall i :: 0 <= i < |rows| ==> ValidRating(rows[i].rating)
  }

  /** Ratings between 1 and 5 sum to between `n` and `5n`. */
  lemma {:induction false} SumRatingsBounds<K>(items: seq<Item<K, K>>)
    requires forall i :: 0 <= i < |items| ==> 1.0 <= items[i].value <= 5.0
    ensures |items| as real <= SumValues(items) <= 5.0 * |items| as real
    decreases |items|
  {
    if items != [] {
      var prev := items[..|items| - 1];
      assert forall i :: 0 <= i < |prev| ==> prev[i] == items[i];
      SumRatingsBounds(prev);
    }
  }

  /** The mean of ratings between 1 and 5, rounded, stays between 1 and 5. */
  lemma AverageInRange<K>(items: seq<Item<K, K>>)
    requires |items| > 0
    requires forall i :: 0 <= i < |items| ==> 1.0 <= items[i].value <= 5.0
    ensures 1.0 <= Round2(SumValues(items) / |items| as real) <= 5.0
  {
    var n := |items| as real;
    var s := SumValues(items);
    SumRatingsBounds(items);
    var avg := s / n;
    assert avg * n == s;
    assert 1.0 <= avg by {
      assert (avg - 1.0) * n == s - n;
      assert (avg - 1.0) * n >= 0.0;
    }
    assert avg <= 5.0 by {
      assert (5.0 - avg) * n == 5.0 * n - s;
      assert (5.0 - avg) * n >= 0.0;
    }
    Round2Spec(avg, 1, 5);
  }

  // ----- getFeedbackSummary -----

  function FeatureRows(rows: seq<FeedbackRow>, feature: string): (r: seq<FeedbackRow>)
    ensures forall x :: x in r <==> x in rows && x.feature == feature
    decreases |rows|
  {
    if rows == [] then []
    else
      var prev := FeatureRows(rows[..|rows| - 1], feature);
      var x := rows[|rows| - 1];
      assert rows == rows[..|rows| - 1] + [x];
      if x.feature == feature then prev + [x] else prev
  }

  /** Each of the rows is kept exactly as often as it occurs when it passes the filter, and not at all otherwise. */
  lemma {:induction false} FeatureRowsCounts(rows: seq<FeedbackRow>, feature: string)
    ensures forall x :: multiset(FeatureRows(rows, feature))[x] == if x.feature == feature then multiset(rows)[x] else 0
    decreases |rows|
  {
    if rows != [] {
      var prev := rows[..|rows| - 1];
      FeatureRowsCounts(prev, feature);
      assert rows == prev + [rows[|rows| - 1]];
    }
  }

  /** The filter keeps the rows' order: filtering a concatenation concatenates the filtered parts. */
  lemma {:induction false} FeatureRowsAppend(a: seq<FeedbackRow>, b: seq<FeedbackRow>, feature: string)
    ensures FeatureRows(a + b, feature) == FeatureRows(a, feature) + FeatureRows(b, feature)
    decreases |b|
  {
    if b == [] {
      assert a + b == a;
    } else {
      var b', x := b[..|b| - 1], b[|b| - 1];
      assert (a + b)[..|a + b| - 1] == a + b' && (a + b)[|a + b| - 1] == x;
      FeatureRowsAppend(a, b', feature);
      var kept := if x.feature == feature then [x] else [];
      assert FeatureRows(a + b, feature) == FeatureRows(a + b', feature) + kept;
      assert FeatureRows(b, feature) == FeatureRows(b', feature) + kept;
    }
  }

  /** `.order('timestamp', { ascending: false })` on a table kept in timestamp order. */
  function NewestFirst(rows: seq<FeedbackRow>): (r: seq<FeedbackRow>)
    ensures |r| == |rows| && forall i :: 0 <= i < |r| ==> r[i] == rows[|rows| - 1 - i]
  {
    seq(|rows|, i requires 0 <= i < |rows| => rows[|rows| - 1 - i])
  }

  datatype RecentFeedback = RecentFeedback(feature: string, rating: int, text: Option<string>, userId: string, timestamp: Day)

  /**
   * `ratingDistribution` holds one group per rating, in first-seen order; the
   * code's object lists its integer keys in ascending order instead, so the
   * distribution is meant to be read as a map from rating to count.
   */
  datatype FeedbackSummary = FeedbackSummary(
    averageRating: real, totalResponses: nat, recentFeedback: seq<RecentFeedback>,
    ratingDistribution: seq<Group<int, int>>)

  /** The summary of a feature with no feedback: distribution `{1..5: 0}`. */
  const EmptySummary: FeedbackSummary :=
    FeedbackSummary(0.0, 0, [], [Group(1, 1, 0, 0.0), Group(2, 2, 0, 0.0), Group(3, 3, 0, 0.0), Group(4, 4, 0, 0.0), Group(5, 5, 0, 0.0)])

  /** `data.slice(0, 10).map(...)`, with every user id hidden. */
  function Recent(newest: seq<FeedbackRow>, feature: string): (r: seq<RecentFeedback>)
    ensures |r| == if |newest| < 10 then |newest| else 10
    ensures forall i :: 0 <= i < |r| ==>
      r[i] == RecentFeedback(feature, newest[i].rating, newest[i].text, "anonymous", newest[i].timestamp)
  {
    var top := SliceTo(newest, 10);
    seq(|top|, i requires 0 <= i < |top| => RecentFeedback(feature, top[i].rating, top[i].text, "anonymous", top[i].timestamp))
  }

  /** `getFeedbackSummary(feature)`; `None` is the `null` of a failed query. */
  function Summary(rows: seq<FeedbackRow>, feature: string, failed: bool): Option<FeedbackSummary> {
    if failed then None
    else
      var data := NewestFirst(FeatureRows(rows, feature));
      if data == [] then Some(EmptySummary)
      else
        var items := Ratings(data, RatingOf);
        Some(FeedbackSummary(Round2(SumValues(items) / |data| as real), |data|, Recent(data, feature), GroupAll(items)))
  }

  /** A failed query gives `null`; a feature with no feedback gives the empty summary. */
  lemma SummaryEmptySpec(rows: seq<FeedbackRow>, feature: string, failed: bool)
    ensures failed <==> Summary(rows, feature, failed).None?
    ensures !failed && FeatureRows(rows, feature) == [] ==> Summary(rows, feature, failed) == Some(EmptySummary)
    ensures !failed && FeatureRows(rows, feature) != [] ==> Summary(rows, feature, failed).value.totalResponses > 0
  {
  }

  /**
   * `totalResponses` is the feature's row count, and the distribution has one
   * entry per rating given, whose counts add up to it.
   */
  lemma SummaryDistributionSpec(rows: seq<FeedbackRow>, feature: string)
    requires FeatureRows(rows, feature) != []
    ensures var s := Summary(rows, feature, false).value;
      && s.totalResponses == |FeatureRows(rows, feature)|
      && (forall x :: multiset(FeatureRows(rows, feature))[x] == if x.feature == feature then multiset(rows)[x] else 0)
      && SumCounts(s.ratingDistribution) == s.totalResponses
      && Describes(s.ratingDistribution, Ratings(NewestFirst(FeatureRows(rows, feature)), RatingOf))
  {
    var items := Ratings(NewestFirst(FeatureRows(rows, feature)), RatingOf);
    FeatureRowsCounts(rows, feature);
    GroupAllSums(items);
    GroupAllDescribes(items);
  }

  /** The recent list holds at most the ten newest rows of the feature, with no user id. */
  lemma SummaryRecentSpec(rows: seq<FeedbackRow>, feature: string)
    requires FeatureRows(rows, feature) != []
    ensures var data := NewestFirst(FeatureRows(rows, feature));
      var r := Summary(rows, feature, false).value.recentFeedback;
      && |r| <= 10
      && (forall i :: 0 <= i < |r| ==>
            (r[i].userId == "anonymous" && r[i].rating == data[i].rating && r[i].timestamp == data[i].timestamp))
  {
  }

  /** With every stored rating from 1 to 5, the rounded average lies between 1 and 5. */
  lemma SummaryAverageSpec(rows: seq<FeedbackRow>, feature: string)
    requires FeatureRows(rows, feature) != []
    requires RatingsInRange(rows)
    ensures 1.0 <= Summary(rows, feature, false).value.averageRating <= 5.0
  {
    var fr := FeatureRows(rows, feature);
    FeatureRowsInRange(rows, feature);
    var data := NewestFirst(fr);
    NewestFirstInRange(fr);
    var items := Ratings(data, RatingOf);
    RatingsBetween(data);
    AverageInRange(items);
  }

  /** Reversing the rows keeps their ratings in 1..5. */
  lemma NewestFirstInRange(rows: seq<FeedbackRow>)
    requires RatingsInRange(rows)
    ensures RatingsInRange(NewestFirst(rows))
  {
    var r := NewestFirst(rows);
    forall i | 0 <= i < |r| ensures ValidRating(r[i].rating) {
      assert r[i] == rows[|rows| - 1 - i];
    }
  }

  /** Ratings in 1..5 give dictionary values in 1..5. */
  lemma RatingsBetween(rows: seq<FeedbackRow>)
    requires RatingsInRange(rows)
    ensures forall i :: 0 <= i < |rows| ==> 1.0 <= Ratings(rows, RatingOf)[i].value <= 5.0
  {
  }

  /** The rows of a feature keep the ratings of the table in 1..5. */
  lemma FeatureRowsInRange(rows: seq<FeedbackRow>, feature: string)
    requires RatingsInRange(rows)
    ensures RatingsInRange(FeatureRows(rows, feature))
  {
    var fr := FeatureRows(rows, feature);
    forall i | 0 <= i < |fr| ensures ValidRating(fr[i].rating) {
      assert fr[i] in rows;
      var j :| 0 <= j < |rows| && rows[j] == fr[i];
    }
  }

  // ----- getFeedbackStats -----

  datatype FeatureStat = FeatureStat(feature: string, count: nat, average: real)
  datatype Trend = Trend(date: Day, count: nat, average: real)
  datatype FeedbackStats = FeedbackStats(totalFeedback: nat, averageRating: real, featureStats: seq<FeatureStat>, recentTrends: seq<Trend>)

  const NoStats: FeedbackStats := FeedbackStats(0, 0.0, [], [])

  /** `total / count` of a dictionary entry; entries always have a count of at least 1. */
  function Mean(total: real, count: nat): (m: real)
    ensures count > 0 ==> m * count as real == total
  {
    if count == 0 then 0.0 else total / count as real
  }

  function InRange(rows: seq<FeedbackRow>, range: Option<(Day, Day)>): (r: seq<FeedbackRow>)
    ensures forall x :: x in r <==> x in rows && (range.Some? ==> range.value.0 <= x.timestamp <= range.value.1)
    decreases |rows|
  {
    if rows == [] then []
    else
      var prev := InRange(rows[..|rows| - 1], range);
      var x := rows[|rows| - 1];
      assert rows == rows[..|rows| - 1] + [x];
      if range.None? || range.value.0 <= x.timestamp <= range.value.1 then prev + [x] else prev
  }

  /** Each of the rows is kept exactly as often as it occurs when it passes the filter, and not at all otherwise. */
  lemma {:induction false} InRangeCounts(rows: seq<FeedbackRow>, range: Option<(Day, Day)>)
    ensures forall x :: multiset(InRange(rows, range))[x] == if (range.Some? ==> range.value.0 <= x.timestamp <= range.value.1) then multiset(rows)[x] else 0
    decreases |rows|
  {
    if rows != [] {
      var prev := rows[..|rows| - 1];
      InRangeCounts(prev, range);
      assert rows == prev + [rows[|rows| - 1]];
    }
  }

  /** The filter keeps the rows' order: filtering a concatenation concatenates the filtered parts. */
  lemma {:induction false} InRangeAppend(a: seq<FeedbackRow>, b: seq<FeedbackRow>, range: Option<(Day, Day)>)
    ensures InRange(a + b, range) == InRange(a, range) + InRange(b, range)
    decreases |b|
  {
    if b == [] {
      assert a + b == a;
    } else {
      var b', x := b[..|b| - 1], b[|b| - 1];
      assert (a + b)[..|a + b| - 1] == a + b' && (a + b)[|a + b| - 1] == x;
      InRangeAppend(a, b', range);
      var kept := if (range.Some? ==> range.value.0 <= x.timestamp <= range.value.1) then [x] else [];
      assert InRange(a + b, range) == InRange(a + b', range) + kept;
      assert InRange(b, range) == InRange(b', range) + kept;
    }
  }

  function Since(rows: seq<FeedbackRow>, start: Day): (r: seq<FeedbackRow>)
    ensures forall x :: x in r <==> x in rows && x.timestamp >= start
    decreases |rows|
  {
    if rows == [] then []
    else
      var prev := Since(rows[..|rows| - 1], start);
      var x := rows[|rows| - 1];
      assert rows == rows[..|rows| - 1] + [x];
      if x.timestamp >= start then prev + [x] else prev
  }

  /** Each of the rows is kept exactly as often as it occurs when it passes the filter, and not at all otherwise. */
  lemma {:induction false} SinceCounts(rows: seq<FeedbackRow>, start: Day)
    ensures forall x :: multiset(Since(rows, start))[x] == if x.timestamp >= start then multiset(rows)[x] else 0
    decreases |rows|
  {
    if rows != [] {
      var prev := rows[..|rows| - 1];
      SinceCounts(prev, start);
      assert rows == prev + [rows[|rows| - 1]];
    }
  }

  /** The filter keeps the rows' order: filtering a concatenation concatenates the filtered parts. */
  lemma {:induction false} SinceAppend(a: seq<FeedbackRow>, b: seq<FeedbackRow>, start: Day)
    ensures Since(a + b, start) == Since(a, start) + Since(b, start)
    decreases |b|
  {
    if b == [] {
      assert a + b == a;
    } else {
      var b', x := b[..|b| - 1], b[|b| - 1];
      assert (a + b)[..|a + b| - 1] == a + b' && (a + b)[|a + b| - 1] == x;
      SinceAppend(a, b', start);
      var kept := if x.timestamp >= start then [x] else [];
      assert Since(a + b, start) == Since(a + b', start) + kept;
      assert Since(b, start) == Since(b', start) + kept;
    }
  }

  function FeatureStats(groups: seq<Group<string, string>>): (r: seq<FeatureStat>)
    ensures |r| == |groups|
    ensures forall i :: 0 <= i < |r| ==> r[i] == FeatureStat(groups[i].key, groups[i].count, Mean(groups[i].total, groups[i].count))
  {
    seq(|groups|, i requires 0 <= i < |groups| => FeatureStat(groups[i].key, groups[i].count, Mean(groups[i].total, groups[i].count)))
  }

  function Trends(groups: seq<Group<Day, Day>>): (r: seq<Trend>)
    ensures |r| == |groups|
    ensures forall i :: 0 <= i < |r| ==> r[i] == Trend(groups[i].key, groups[i].count, Mean(groups[i].total, groups[i].count))
  {
    seq(|groups|, i requires 0 <= i < |groups| => Trend(groups[i].key, groups[i].count, Mean(groups[i].total, groups[i].count)))
  }

  /** `getFeedbackStats(timeRange)`, with `weekAgo` the day seven days back. */
  function Stats(rows: seq<FeedbackRow>, range: Option<(Day, Day)>, weekAgo: Day, failed: bool): FeedbackStats {
    var data := InRange(rows, range);
    if failed || data == [] then NoStats
    else
      var all := Ratings(data, FeatureOf);
      FeedbackStats(|data|, Round2(SumValues(all) / |data| as real),
                    FeatureStats(GroupAll(all)),
                    Trends(GroupAll(Ratings(Since(data, weekAgo), DateOf))))
  }

  lemma DescribedCountsPositive<K(!new)>(groups: seq<Group<K, K>>, items: seq<Item<K, K>>)
    requires Describes(groups, items)
    ensures forall i :: 0 <= i < |groups| ==> groups[i].count > 0
  {
    forall i | 0 <= i < |groups| ensures groups[i].count > 0 {
      FirstIndexPresent(items, groups[i].key);
    }
  }

  /** A failed query or an empty range gives the zero statistics. */
  lemma StatsEmptySpec(rows: seq<FeedbackRow>, range: Option<(Day, Day)>, weekAgo: Day, failed: bool)
    ensures failed || InRange(rows, range) == [] <==> Stats(rows, range, weekAgo, failed) == NoStats
  {
  }

  /**
   * The per-feature counts add up to `totalFeedback`, the range's row count,
   * and each feature's average is the mean of that feature's ratings (their
   * total over their positive count).
   */
  lemma StatsFeaturesSpec(rows: seq<FeedbackRow>, range: Option<(Day, Day)>, weekAgo: Day)
    requires InRange(rows, range) != []
    ensures var data := InRange(rows, range);
      var all := Ratings(data, FeatureOf);
      var s := Stats(rows, range, weekAgo, false);
      && s.totalFeedback == |data|
      && (forall x :: multiset(data)[x] ==
            if (range.Some? ==> range.value.0 <= x.timestamp <= range.value.1) then multiset(rows)[x] else 0)
      && SumCounts(GroupAll(all)) == s.totalFeedback
      && (forall i :: 0 <= i < |s.featureStats| ==>
            (s.featureStats[i].count == CountKey(all, s.featureStats[i].feature) > 0
             && s.featureStats[i].average == Mean(SumKey(all, s.featureStats[i].feature), s.featureStats[i].count)))
  {
    var data := InRange(rows, range);
    var all := Ratings(data, FeatureOf);
    InRangeCounts(rows, range);
    assert Stats(rows, range, weekAgo, false).featureStats == FeatureStats(GroupAll(all));
    FeatureGroupsSpec(all);
  }

  /** The feature entries of a grouping of `all` add up to its length, and each counts and averages its feature. */
  lemma FeatureGroupsSpec(all: seq<Item<string, string>>)
    ensures SumCounts(GroupAll(all)) == |all|
    ensures var fs := FeatureStats(GroupAll(all));
      forall i :: 0 <= i < |fs| ==>
        (fs[i].count == CountKey(all, fs[i].feature) > 0 && fs[i].average == Mean(SumKey(all, fs[i].feature), fs[i].count))
  {
    GroupAllSums(all);
    GroupAllDescribes(all);
    FeatureStatsSpec(GroupAll(all), all);
  }

  /** Over a grouping of `all`, every feature's entry has a positive count and averages its total. */
  lemma FeatureStatsSpec(g: seq<Group<string, string>>, all: seq<Item<string, string>>)
    requires Describes(g, all)
    ensures var fs := FeatureStats(g);
      forall i :: 0 <= i < |fs| ==>
        (fs[i].count == CountKey(all, fs[i].feature) > 0 && fs[i].average == Mean(SumKey(all, fs[i].feature), fs[i].count))
  {
    DescribedCountsPositive(g, all);
  }

  /**
   * The trend entries have distinct dates, every row has an entry for its
   * date, and the entries come in the order in which their dates first occur.
   */
  lemma TrendsCoverDates(recentRows: seq<FeedbackRow>)
    ensures var recent := Ratings(recentRows, DateOf);
      var t := Trends(GroupAll(recent));
      && (forall i, j :: 0 <= i < j < |t| ==> t[i].date != t[j].date)
      && (forall x :: x in recentRows ==> exists i :: 0 <= i < |t| && t[i].date == x.timestamp)
      && (forall i, j :: 0 <= i < j < |t| ==> FirstIndex(recent, t[i].date) < FirstIndex(recent, t[j].date))
  {
    var recent := Ratings(recentRows, DateOf);
    GroupAllDescribes(recent);
    GroupAllOrdered(recent);
    GroupAllCovers(recent);
    forall x | x in recentRows ensures exists i :: 0 <= i < |GroupAll(recent)| && GroupAll(recent)[i].key == x.timestamp {
      var m :| 0 <= m < |recentRows| && recentRows[m] == x;
      var i := Find(GroupAll(recent), recent[m].key);
      assert recent[m].key == x.timestamp && GroupAll(recent)[i].key == x.timestamp;
    }
  }

  /** Each trend entry counts and averages its date's rows, all dated no earlier than `weekAgo`. */
  lemma TrendsCount(recentRows: seq<FeedbackRow>, weekAgo: Day)
    requires forall x :: x in recentRows ==> x.timestamp >= weekAgo
    ensures var recent := Ratings(recentRows, DateOf);
      var t := Trends(GroupAll(recent));
      && SumCounts(GroupAll(recent)) == |recentRows|
      && (forall i :: 0 <= i < |t| ==> (t[i].count == CountKey(recent, t[i].date) > 0 && t[i].date >= weekAgo))
      && (forall i :: 0 <= i < |t| ==> t[i].average == Mean(SumKey(recent, t[i].date), t[i].count))
  {
    var recent := Ratings(recentRows, DateOf);
    GroupAllSums(recent);
    GroupAllDescribes(recent);
    var g := GroupAll(recent);
    DescribedCountsPositive(g, recent);
    forall i | 0 <= i < |g| ensures g[i].key >= weekAgo {
      var f := FirstIndex(recent, g[i].key);
      assert recent[f].key == recentRows[f].timestamp;
      assert recentRows[f] in recentRows;
    }
  }

  /**
   * The trend covers exactly the rows of the last seven days: one entry per
   * date, in order of first occurrence, each counting and averaging that
   * date's rows.
   */
  lemma StatsTrendsSpec(rows: seq<FeedbackRow>, range: Option<(Day, Day)>, weekAgo: Day)
    requires InRange(rows, range) != []
    ensures var recentRows := Since(InRange(rows, range), weekAgo);
      var recent := Ratings(recentRows, DateOf);
      var t := Stats(rows, range, weekAgo, false).recentTrends;
      && SumCounts(GroupAll(recent)) == |recentRows|
      && (forall i :: 0 <= i < |t| ==> (t[i].count == CountKey(recent, t[i].date) > 0 && t[i].date >= weekAgo))
      && (forall i :: 0 <= i < |t| ==> t[i].average == Mean(SumKey(recent, t[i].date), t[i].count))
      && (forall i, j :: 0 <= i < j < |t| ==> t[i].date != t[j].date)
      && (forall x :: x in recentRows ==> exists i :: 0 <= i < |t| && t[i].date == x.timestamp)
      && (forall i, j :: 0 <= i < j < |t| ==> FirstIndex(recent, t[i].date) < FirstIndex(recent, t[j].date))
  {
    var recentRows := Since(InRange(rows, range), weekAgo);
    assert Stats(rows, range, weekAgo, false).recentTrends == Trends(GroupAll(Ratings(recentRows, DateOf)));
    TrendsCount(recentRows, weekAgo);
    TrendsCoverDates(recentRows);
  }

  class FeedbackService {
    /** The `user_feedback` table. */
    var rows: seq<FeedbackRow>

    constructor ()
      ensures rows == []
    {
      rows := [];
    }

    /**
     * `submitFeedback`: an anonymous caller or a rating outside 1..5 is
     * refused before anything is written; `insertFails` is the database error.
     */
    method SubmitFeedback(user: Option<UserId>, feature: string, rating: int, text: Option<string>,
                          sessionId: Option<string>, now: Day, insertFails: bool) returns (result: SubmitResult)
      modifies this`rows
      ensures user.None? ==> result == SubmitResult(false, Some(NotAuthenticated)) && rows == old(rows)
      ensures user.Some? && !ValidRating(rating) ==> result == SubmitResult(false, Some(RatingOutOfRange)) && rows == old(rows)
      ensures user.Some? && ValidRating(rating) && insertFails ==> result == SubmitResult(false, Some(StoreFailed)) && rows == old(rows)
      ensures user.Some? && ValidRating(rating) && !insertFails ==>
        result == SubmitResult(true, None) && rows == old(rows) + [FeedbackRow(user.value, feature, rating, text, sessionId, now)]
    {
      if user.None? {
        return SubmitResult(false, Some(NotAuthenticated));
      }
      if rating < 1 || rating > 5 {
        return SubmitResult(false, Some(RatingOutOfRange));
      }
      if insertFails {
        return SubmitResult(false, Some(StoreFailed));
      }
      rows := rows + [FeedbackRow(user.value, feature, rating, text, sessionId, now)];
      result := SubmitResult(true, None);
    }

    /** `getFeedbackSummary(feature)`: the distribution is accumulated in a dictionary. */
    method GetFeedbackSummary(feature: string, failed: bool) returns (summary: Option<FeedbackSummary>)
      ensures summary == Summary(rows, feature, failed)
    {
      if failed {
        return None;
      }
      var data := NewestFirst(FeatureRows(rows, feature));
      if |data| == 0 {
        return Some(EmptySummary);
      }
      var items := Ratings(data, RatingOf);
      var distribution := GroupLoop(items);
      summary := Some(FeedbackSummary(Round2(SumValues(items) / |data| as real), |data|, Recent(data, feature), distribution));
    }

    /** `getFeedbackStats(timeRange)`: feature and date dictionaries, then the per-feature averages. */
    method GetFeedbackStats(range: Option<(Day, Day)>, weekAgo: Day, failed: bool) returns (stats: FeedbackStats)
      ensures stats == Stats(rows, range, weekAgo, failed)
    {
      var data := InRange(rows, range);
      if failed || |data| == 0 {
        return NoStats;
      }
      var all := Ratings(data, FeatureOf);
      var featureTotals := GroupLoop(all);
      var featureStats: seq<FeatureStat> := [];
      var i := 0;
      while i < |featureTotals|
        invariant 0 <= i <= |featureTotals|
        invariant featureStats == FeatureStats(featureTotals[..i])
      {
        var g := featureTotals[i];
        featureStats := featureStats + [FeatureStat(g.key, g.count, Mean(g.total, g.count))];
        i := i + 1;
      }
      assert featureTotals[..i] == featureTotals;
      var trends := GroupLoop(Ratings(Since(data, weekAgo), DateOf));
      stats := FeedbackStats(|data|, Round2(SumValues(all) / |data| as real), featureStats, Trends(trends));
    }
  }
}
