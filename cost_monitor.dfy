/**
 * The AI cost monitor: spend totals over the metrics table, limit alerts,
 * the anomaly check against the average day, severity bands, and the
 * adjustable limits.
 */
module CostMonitor {
  import opened Wrappers
  import opened Tables
  import opened Calendar
  import opened Grouping
  import opened JsNumbers

  /** One `ai_metrics` row as the cost queries see it. */
  datatype CostRow = CostRow(cost: real, day: Day, success: bool)

  const DefaultDailyLimit: real := 50.0
  const DefaultWeeklyLimit: real := 300.0
  const DefaultMonthlyLimit: real := 1000.0
  const AnomalyThreshold: real := 2.0

  // ----- getCostStats -----

  /** `.gte('timestamp', since).eq('success', true)` summed over `cost_estimate`. */
  function SumCosts(rows: seq<CostRow>, since: Day): real
    decreases |rows|
  {
    if rows == [] then 0.0
    else
      var r := rows[|rows| - 1];
      SumCosts(rows[..|rows| - 1], since) + (if r.success && r.day >= since then r.cost else 0.0)
  }

  /** The number of rows the same query returns. */
  function CountRows(rows: seq<CostRow>, since: Day): nat
    decreases |rows|
  {
    if rows == [] then 0
    else
      var r := rows[|rows| - 1];
      CountRows(rows[..|rows| - 1], since) + (if r.success && r.day >= since then 1 else 0)
  }

  predicate NonNegativeCosts(rows: seq<CostRow>) {
    forall i :: 0 <= i < |rows| ==> rows[i].cost >= 0.0
  }

  /** With no negative costs, a later start never sums to more. */
  lemma {:induction false} SumCostsAntitone(rows: seq<CostRow>, early: Day, late: Day)
    requires NonNegativeCosts(rows) && early <= late
    ensures 0.0 <= SumCosts(rows, late) <= SumCosts(rows, early)
    decreases |rows|
  {
    if rows != [] {
      var prev := rows[..|rows| - 1];
      assert NonNegativeCosts(prev) by {
        forall i | 0 <= i < |prev| ensures prev[i].cost >= 0.0 {
          assert prev[i] == rows[i];
        }
      }
      SumCostsAntitone(prev, early, late);
    }
  }

  /** The Sunday that starts `today`'s week, as a day number. */
  function StartOfWeek(today: Day, date: Moment): Day
    requires Valid(date)
  {
    today - Weekday(date)
  }

  /** The first of `today`'s month, as a day number. */
  function StartOfMonth(today: Day, date: Moment): Day {
    today - (date.day - 1)
  }

  datatype CostStats = CostStats(
    daily: real, weekly: real, monthly: real, totalRequests: nat,
    averageCostPerRequest: real, projectedMonthly: real)

  /** `getCostStats()` for the day `today` (calendar date `date`); `failed` is the `catch` path. */
  function GetCostStats(rows: seq<CostRow>, today: Day, date: Moment, failed: bool): CostStats
    requires Valid(date)
  {
    if failed then CostStats(0.0, 0.0, 0.0, 0, 0.0, 0.0)
    else
      var daily := SumCosts(rows, today);
      var monthly := SumCosts(rows, StartOfMonth(today, date));
      var n := CountRows(rows, StartOfMonth(today, date));
      CostStats(daily, SumCosts(rows, StartOfWeek(today, date)), monthly, n,
                if n > 0 then monthly / n as real else 0.0,
                daily * DaysInMonth(date.year, date.month) as real)
  }

  /**
   * Every stat is 0 on failure. Otherwise the average is 0 without requests
   * and multiplies back to the monthly total with them, the projection is
   * the day's spend times the days in the month, and with non-negative costs
   * the day's spend is at most the week's and the month's.
   */
  lemma GetCostStatsSpec(rows: seq<CostRow>, today: Day, date: Moment, failed: bool)
    requires Valid(date)
    ensures var s := GetCostStats(rows, today, date, failed);
      && (failed ==> s == CostStats(0.0, 0.0, 0.0, 0, 0.0, 0.0))
      && (!failed ==>
            && (s.totalRequests == 0 ==> s.averageCostPerRequest == 0.0)
            && (s.totalRequests > 0 ==> s.averageCostPerRequest * s.totalRequests as real == s.monthly)
            && s.projectedMonthly == s.daily * DaysInMonth(date.year, date.month) as real
            && (NonNegativeCosts(rows) ==> 0.0 <= s.daily <= s.weekly && s.daily <= s.monthly))
  {
    if !failed && NonNegativeCosts(rows) {
      SumCostsAntitone(rows, StartOfWeek(today, date), today);
      SumCostsAntitone(rows, StartOfMonth(today, date), today);
    }
  }

  // ----- alerts -----

  datatype AlertType = DailyLimit | WeeklyLimit | MonthlyLimit | Anomaly

  /** The position of each alert kind in `checkCosts`. */
  function Rank(t: AlertType): nat {
    match t
    case DailyLimit => 0
    case WeeklyLimit => 1
    case MonthlyLimit => 2
    case Anomaly => 3
  }

  /** A `CostAlert` without its id and timestamp; `resolved` is always false. */
  datatype CostAlert = CostAlert(alertType: AlertType, threshold: real, current: real, percentage: JsNumber)

  /** The alert for a spend over `limit`, with `percentage = current / threshold * 100`. */
  function LimitAlert(t: AlertType, current: real, limit: real): Option<CostAlert> {
    if current > limit then Some(CostAlert(t, limit, current, JsScale(JsDivide(current, limit), 100.0))) else None
  }

  datatype Severity = Low | Medium | High | Critical

  /** `getSeverity(percentage)`. */
  function GetSeverity(percentage: JsNumber): Severity {
    if JsAtLeast(percentage, 200.0) then Critical
    else if JsAtLeast(percentage, 150.0) then High
    else if JsAtLeast(percentage, 100.0) then Medium
    else Low
  }

  function SeverityRank(s: Severity): nat {
    match s
    case Low => 0
    case Medium => 1
    case High => 2
    case Critical => 3
  }

  /** The bands: critical from 200, high from 150, medium from 100; a higher percentage is never less severe. */
  lemma GetSeveritySpec(p: real, q: real)
    ensures GetSeverity(Finite(p)) == Critical <==> p >= 200.0
    ensures GetSeverity(Finite(p)) == High <==> 150.0 <= p < 200.0
    ensures GetSeverity(Finite(p)) == Medium <==> 100.0 <= p < 150.0
    ensures GetSeverity(Finite(p)) == Low <==> p < 100.0
    ensures p <= q ==> SeverityRank(GetSeverity(Finite(p))) <= SeverityRank(GetSeverity(Finite(q)))
    ensures GetSeverity(PositiveInfinity) == Critical && GetSeverity(NaN) == Low
  {
  }

  /**
   * A limit alert is raised exactly when the spend is strictly over the
   * limit; for a non-negative limit its severity is then at least medium
   * (a zero limit gives an infinite percentage, hence critical).
   */
  lemma {:induction false} LimitAlertSpec(t: AlertType, current: real, limit: real)
    ensures LimitAlert(t, current, limit).Some? <==> current > limit
    ensures LimitAlert(t, current, limit).Some? && limit > 0.0 ==>
      LimitAlert(t, current, limit).value.percentage == Finite(current / limit * 100.0)
    ensures LimitAlert(t, current, limit).Some? && limit >= 0.0 ==>
      GetSeverity(LimitAlert(t, current, limit).value.percentage) != Low
  {
    if current <= limit {
      assert LimitAlert(t, current, limit) == None;
    } else {
      assert LimitAlert(t, current, limit).Some?;
      if limit > 0.0 {
        RatioAboveOne(current, limit);
      }
    }
  }

  lemma RatioAboveOne(a: real, b: real)
    requires b > 0.0 && a > b
    ensures a / b * 100.0 > 100.0
  {
    var q := a / b;
    assert q * b == a;
    assert (q - 1.0) * b == a - b;
    assert (q - 1.0) * b > 0.0;
  }

  function OptionSeq(a: Option<CostAlert>): seq<CostAlert> {
    if a.Some? then [a.value] else []
  }

  /** The alerts of `checkCosts`, in its order: daily, weekly, monthly, anomaly. */
  function Alerts(dailyLimit: real, weeklyLimit: real, monthlyLimit: real, stats: CostStats, anomaly: Option<CostAlert>): seq<CostAlert> {
    OptionSeq(LimitAlert(DailyLimit, stats.daily, dailyLimit))
    + OptionSeq(LimitAlert(WeeklyLimit, stats.weekly, weeklyLimit))
    + OptionSeq(LimitAlert(MonthlyLimit, stats.monthly, monthlyLimit))
    + OptionSeq(anomaly)
  }

  /** The kinds of a list of alerts, in order. */
  function Kinds(alerts: seq<CostAlert>): (r: seq<AlertType>)
    ensures |r| == |alerts| && forall i :: 0 <= i < |r| ==> r[i] == alerts[i].alertType
  {
    seq(|alerts|, i requires 0 <= i < |alerts| => alerts[i].alertType)
  }

  /** Strictly increasing in `checkCosts` order. */
  predicate Ranked(kinds: seq<AlertType>) {
    forall i, j :: 0 <= i < j < |kinds| ==> Rank(kinds[i]) < Rank(kinds[j])
  }

  lemma RankedSnoc(kinds: seq<AlertType>, t: AlertType)
    requires Ranked(kinds) && forall k :: k in kinds ==> Rank(k) < Rank(t)
    ensures Ranked(kinds + [t])
  {
    var r := kinds + [t];
    forall i, j | 0 <= i < j < |r| ensures Rank(r[i]) < Rank(r[j]) {
      if j == |kinds| {
        assert r[i] == kinds[i] && kinds[i] in kinds;
      } else {
        assert r[i] == kinds[i] && r[j] == kinds[j];
      }
    }
  }

  function KindIf(b: bool, t: AlertType): seq<AlertType> {
    if b then [t] else []
  }

  lemma KindsAppend(alerts: seq<CostAlert>, more: seq<CostAlert>)
    ensures Kinds(alerts + more) == Kinds(alerts) + Kinds(more)
  {
  }

  /**
   * Each limit check is independent: its alert is present exactly when its
   * spend is over its limit, an anomaly is present exactly when one was
   * detected, and the alerts come in the order daily, weekly, monthly, anomaly.
   */
  lemma AlertsSpec(dailyLimit: real, weeklyLimit: real, monthlyLimit: real, stats: CostStats, anomaly: Option<CostAlert>)
    requires anomaly.Some? ==> anomaly.value.alertType == Anomaly
    ensures var kinds := Kinds(Alerts(dailyLimit, weeklyLimit, monthlyLimit, stats, anomaly));
      && kinds == KindIf(stats.daily > dailyLimit, DailyLimit) + KindIf(stats.weekly > weeklyLimit, WeeklyLimit)
                  + KindIf(stats.monthly > monthlyLimit, MonthlyLimit) + KindIf(anomaly.Some?, Anomaly)
      && (DailyLimit in kinds <==> stats.daily > dailyLimit)
      && (WeeklyLimit in kinds <==> stats.weekly > weeklyLimit)
      && (MonthlyLimit in kinds <==> stats.monthly > monthlyLimit)
      && (Anomaly in kinds <==> anomaly.Some?)
      && |kinds| <= 4
      && Ranked(kinds)
  {
    AlertKinds(dailyLimit, weeklyLimit, monthlyLimit, stats, anomaly);
    KindsRanked(stats.daily > dailyLimit, stats.weekly > weeklyLimit, stats.monthly > monthlyLimit, anomaly.Some?);
  }

  lemma AlertKinds(dailyLimit: real, weeklyLimit: real, monthlyLimit: real, stats: CostStats, anomaly: Option<CostAlert>)
    requires anomaly.Some? ==> anomaly.value.alertType == Anomaly
    ensures Kinds(Alerts(dailyLimit, weeklyLimit, monthlyLimit, stats, anomaly))
      == KindIf(stats.daily > dailyLimit, DailyLimit) + KindIf(stats.weekly > weeklyLimit, WeeklyLimit)
         + KindIf(stats.monthly > monthlyLimit, MonthlyLimit) + KindIf(anomaly.Some?, Anomaly)
  {
    var d := OptionSeq(LimitAlert(DailyLimit, stats.daily, dailyLimit));
    var w := OptionSeq(LimitAlert(WeeklyLimit, stats.weekly, weeklyLimit));
    var m := OptionSeq(LimitAlert(MonthlyLimit, stats.monthly, monthlyLimit));
    var a := OptionSeq(anomaly);
    KindsAppend(d, w);
    KindsAppend(d + w, m);
    KindsAppend(d + w + m, a);
  }

  lemma KindsRanked(b1: bool, b2: bool, b3: bool, b4: bool)
    ensures var kinds := KindIf(b1, DailyLimit) + KindIf(b2, WeeklyLimit) + KindIf(b3, MonthlyLimit) + KindIf(b4, Anomaly);
      && (DailyLimit in kinds <==> b1) && (WeeklyLimit in kinds <==> b2)
      && (MonthlyLimit in kinds <==> b3) && (Anomaly in kinds <==> b4)
      && |kinds| <= 4 && Ranked(kinds)
  {
    KindsMembers(b1, b2, b3, b4);
    KindsOrder(b1, b2, b3, b4);
  }

  lemma InKindIf(kinds: seq<AlertType>, b: bool, t: AlertType, x: AlertType)
    ensures x in kinds + KindIf(b, t) <==> x in kinds || (b && x == t)
  {
  }

  lemma KindsMembers(b1: bool, b2: bool, b3: bool, b4: bool)
    ensures var kinds := KindIf(b1, DailyLimit) + KindIf(b2, WeeklyLimit) + KindIf(b3, MonthlyLimit) + KindIf(b4, Anomaly);
      && (DailyLimit in kinds <==> b1) && (WeeklyLimit in kinds <==> b2)
      && (MonthlyLimit in kinds <==> b3) && (Anomaly in kinds <==> b4)
      && |kinds| <= 4
  {
    var k1 := KindIf(b1, DailyLimit);
    var k2 := k1 + KindIf(b2, WeeklyLimit);
    var k3 := k2 + KindIf(b3, MonthlyLimit);
    forall x: AlertType
      ensures x in k3 + KindIf(b4, Anomaly)
        <==> (b1 && x == DailyLimit) || (b2 && x == WeeklyLimit) || (b3 && x == MonthlyLimit) || (b4 && x == Anomaly)
    {
      InKindIf(k1, b2, WeeklyLimit, x);
      InKindIf(k2, b3, MonthlyLimit, x);
      InKindIf(k3, b4, Anomaly, x);
    }
  }

  lemma KindsOrder(b1: bool, b2: bool, b3: bool, b4: bool)
    ensures Ranked(KindIf(b1, DailyLimit) + KindIf(b2, WeeklyLimit) + KindIf(b3, MonthlyLimit) + KindIf(b4, Anomaly))
  {
    var k1 := KindIf(b1, DailyLimit);
    var k2 := k1 + KindIf(b2, WeeklyLimit);
    var k3 := k2 + KindIf(b3, MonthlyLimit);
    assert forall k :: k in k1 ==> Rank(k) <= Rank(DailyLimit);
    if b2 {
      RankedSnoc(k1, WeeklyLimit);
    }
    assert Ranked(k2);
    assert forall k :: k in k2 ==> Rank(k) <= Rank(WeeklyLimit);
    if b3 {
      RankedSnoc(k2, MonthlyLimit);
    }
    assert Ranked(k3);
    assert forall k :: k in k3 ==> Rank(k) <= Rank(MonthlyLimit);
    if b4 {
      RankedSnoc(k3, Anomaly);
    }
  }

  // ----- anomaly detection -----

  /** The last thirty days' successful rows as dictionary entries keyed by their UTC date. */
  function HistoryItems(rows: seq<CostRow>, since: Day): (items: seq<Item<Day, Day>>)
    ensures |items| == CountRows(rows, since)
    ensures SumValues(items) == SumCosts(rows, since)
    decreases |rows|
  {
    if rows == [] then []
    else
      var r := rows[|rows| - 1];
      var prev := HistoryItems(rows[..|rows| - 1], since);
      if r.success && r.day >= since then
        var items := prev + [Item(r.day, r.day, r.cost)];
        assert items[..|prev|] == prev;
        items
      else prev
  }

  /** `Object.values(dailyCosts)`: the per-day totals in order of first appearance. */
  function Totals(groups: seq<Group<Day, Day>>): (r: seq<real>)
    ensures |r| == |groups| && forall i :: 0 <= i < |r| ==> r[i] == groups[i].total
  {
    seq(|groups|, i requires 0 <= i < |groups| => groups[i].total)
  }

  function SumReals(xs: seq<real>): real
    decreases |xs|
  {
    if xs == [] then 0.0 else SumReals(xs[..|xs| - 1]) + xs[|xs| - 1]
  }

  lemma {:induction false} SumRealsTotals(groups: seq<Group<Day, Day>>)
    ensures SumReals(Totals(groups)) == SumTotals(groups)
    decreases |groups|
  {
    if groups != [] {
      var prev := groups[..|groups| - 1];
      SumRealsTotals(prev);
      assert Totals(groups)[..|groups| - 1] == Totals(prev);
    }
  }

  /**
   * `groupByDay`: one total per distinct date, each the sum of that date's
   * costs, and together they add up to all the costs.
   */
  lemma GroupByDaySpec(rows: seq<CostRow>, since: Day)
    ensures var items := HistoryItems(rows, since);
      var groups := GroupAll(items);
      && Describes(groups, items)
      && SumReals(Totals(groups)) == SumCosts(rows, since)
      && |groups| <= CountRows(rows, since)
      && (CountRows(rows, since) > 0 ==> |groups| > 0)
  {
    var items := HistoryItems(rows, since);
    var groups := GroupAll(items);
    GroupAllDescribes(items);
    GroupAllSums(items);
    SumRealsTotals(groups);
    SumCountsBound(groups);
  }

  /** Every dictionary entry was counted at least once. */
  lemma {:induction false} SumCountsBound(groups: seq<Group<Day, Day>>)
    requires forall i :: 0 <= i < |groups| ==> groups[i].count > 0
    ensures |groups| <= SumCounts(groups)
    ensures SumCounts(groups) > 0 ==> |groups| > 0
    decreases |groups|
  {
    if groups != [] {
      SumCountsBound(groups[..|groups| - 1]);
    }
  }

  /** `groupByDay` of the last thirty days' rows. */
  function DailyTotals(rows: seq<CostRow>, since: Day): seq<real> {
    Totals(GroupAll(HistoryItems(rows, since)))
  }

  lemma DailyTotalsSpec(rows: seq<CostRow>, since: Day)
    ensures SumReals(DailyTotals(rows, since)) == SumCosts(rows, since)
    ensures |DailyTotals(rows, since)| <= CountRows(rows, since)
    ensures CountRows(rows, since) > 0 ==> |DailyTotals(rows, since)| > 0
  {
    var items := HistoryItems(rows, since);
    GroupByDaySpec(rows, since);
  }

  function Average(xs: seq<real>): real
    requires |xs| > 0
  {
    SumReals(xs) / |xs| as real
  }

  /**
   * `detectCostAnomaly`: nothing with fewer than seven rows; otherwise an
   * alert when today's spend exceeds twice the average of the daily totals.
   */
  function AnomalyAlert(daily: real, rows: seq<CostRow>, since: Day): Option<CostAlert> {
    if CountRows(rows, since) < 7 then None
    else
      DailyTotalsSpec(rows, since);
      var threshold := Average(DailyTotals(rows, since)) * AnomalyThreshold;
      if daily > threshold then Some(CostAlert(Anomaly, threshold, daily, JsScale(JsDivide(daily, threshold), 100.0)))
      else None
  }

  lemma Describes1(groups: seq<Group<Day, Day>>, items: seq<Item<Day, Day>>)
    requires Describes(groups, items)
    ensures forall i :: 0 <= i < |groups| ==> groups[i].count > 0
  {
    forall i | 0 <= i < |groups| ensures groups[i].count > 0 {
      FirstIndexPresent(items, groups[i].key);
    }
  }

  /**
   * An anomaly is reported exactly when there are at least seven rows and
   * today's spend times the number of distinct days exceeds twice the total
   * spend of those days; the count of rows, not of days, is what must reach seven.
   */
  lemma {:induction false} AnomalyAlertSpec(daily: real, rows: seq<CostRow>, since: Day)
    ensures CountRows(rows, since) < 7 ==> AnomalyAlert(daily, rows, since).None?
    ensures CountRows(rows, since) >= 7 ==>
      var days := |DailyTotals(rows, since)|;
      && days > 0
      && (AnomalyAlert(daily, rows, since).Some? <==> daily * days as real > AnomalyThreshold * SumCosts(rows, since))
    ensures AnomalyAlert(daily, rows, since).Some? ==> AnomalyAlert(daily, rows, since).value.alertType == Anomaly
  {
    if CountRows(rows, since) >= 7 {
      var totals := DailyTotals(rows, since);
      DailyTotalsSpec(rows, since);
      var n := |totals| as real;
      var total := SumCosts(rows, since);
      ScaledComparison(daily, total, n);
    }
  }

  /** `daily > total / n * 2` exactly when `daily * n > 2 * total`, for a positive `n`. */
  lemma ScaledComparison(daily: real, total: real, n: real)
    requires n > 0.0
    ensures daily > total / n * AnomalyThreshold <==> daily * n > AnomalyThreshold * total
  {
    var threshold := total / n * AnomalyThreshold;
    assert threshold * n == AnomalyThreshold * total;
    if daily > threshold {
      assert (daily - threshold) * n > 0.0;
    } else {
      assert (threshold - daily) * n >= 0.0;
    }
  }

  /** A `system_alerts` row. */
  datatype StoredAlert = StoredAlert(alertType: AlertType, severity: Severity, threshold: real, current: real, percentage: JsNumber)

  function Stored(alerts: seq<CostAlert>): (r: seq<StoredAlert>)
    ensures |r| == |alerts|
  {
    seq(|alerts|, i requires 0 <= i < |alerts| =>
      StoredAlert(alerts[i].alertType, GetSeverity(alerts[i].percentage), alerts[i].threshold, alerts[i].current, alerts[i].percentage))
  }

  class Monitor {
    var dailyLimit: real
    var weeklyLimit: real
    var monthlyLimit: real
    /** The `system_alerts` table. */
    var systemAlerts: seq<StoredAlert>

    constructor ()
      ensures dailyLimit == DefaultDailyLimit && weeklyLimit == DefaultWeeklyLimit && monthlyLimit == DefaultMonthlyLimit
      ensures systemAlerts == []
    {
      dailyLimit := DefaultDailyLimit;
      weeklyLimit := DefaultWeeklyLimit;
      monthlyLimit := DefaultMonthlyLimit;
      systemAlerts := [];
    }

    /** `setLimits(daily, weekly, monthly)`. */
    method SetLimits(daily: real, weekly: real, monthly: real)
      modifies this`dailyLimit, this`weeklyLimit, this`monthlyLimit
      ensures dailyLimit == daily && weeklyLimit == weekly && monthlyLimit == monthly
    {
      dailyLimit := daily;
      weeklyLimit := weekly;
      monthlyLimit := monthly;
    }

    /** `getLimits()`. */
    method GetLimits() returns (daily: real, weekly: real, monthly: real)
      ensures daily == dailyLimit && weekly == weeklyLimit && monthly == monthlyLimit
    {
      return dailyLimit, weeklyLimit, monthlyLimit;
    }

    /** `groupByDay`: the per-date totals, accumulated in a dictionary. */
    method GroupByDay(rows: seq<CostRow>, since: Day) returns (totals: seq<real>)
      ensures totals == Totals(GroupAll(HistoryItems(rows, since)))
    {
      var dailyCosts := GroupLoop(HistoryItems(rows, since));
      totals := Totals(dailyCosts);
    }

    /** `dailyCosts.reduce((a, b) => a + b, 0)`. */
    method Total(dailyCosts: seq<real>) returns (sum: real)
      ensures sum == SumReals(dailyCosts)
    {
      sum := 0.0;
      var i := 0;
      while i < |dailyCosts|
        invariant 0 <= i <= |dailyCosts|
        invariant sum == SumReals(dailyCosts[..i])
      {
        assert dailyCosts[..i + 1][..i] == dailyCosts[..i];
        sum := sum + dailyCosts[i];
        i := i + 1;
      }
      assert dailyCosts[..i] == dailyCosts;
    }

    /** `detectCostAnomaly(stats)` over the rows of the last thirty days. */
    method DetectCostAnomaly(daily: real, rows: seq<CostRow>, since: Day) returns (alert: Option<CostAlert>)
      ensures alert == AnomalyAlert(daily, rows, since)
    {
      if CountRows(rows, since) < 7 {
        return None;
      }
      var dailyCosts := GroupByDay(rows, since);
      assert dailyCosts == DailyTotals(rows, since);
      DailyTotalsSpec(rows, since);
      var sum := Total(dailyCosts);
      var average := sum / |dailyCosts| as real;
      assert average == Average(DailyTotals(rows, since));
      var threshold := average * AnomalyThreshold;
      if daily > threshold {
        alert := Some(CostAlert(Anomaly, threshold, daily, JsScale(JsDivide(daily, threshold), 100.0)));
      } else {
        alert := None;
      }
    }

    /**
     * `checkCosts()` on the metrics rows for the day `today` (calendar date
     * `date`): the alerts, which are stored only when there is at least one.
     * `storeFailed` is an error of the `system_alerts` insert: it is only
     * logged, so the alerts are still returned but not stored.
     */
    method CheckCosts(rows: seq<CostRow>, today: Day, date: Moment, statsFailed: bool, storeFailed: bool) returns (alerts: seq<CostAlert>)
      requires Valid(date)
      modifies this`systemAlerts
      ensures var stats := GetCostStats(rows, today, date, statsFailed);
        alerts == Alerts(dailyLimit, weeklyLimit, monthlyLimit, stats, AnomalyAlert(stats.daily, rows, today - 30))
      ensures systemAlerts == old(systemAlerts) + (if |alerts| > 0 && !storeFailed then Stored(alerts) else [])
    {
      var stats := GetCostStats(rows, today, date, statsFailed);
      alerts := [];
      if stats.daily > dailyLimit {
        alerts := alerts + [CostAlert(DailyLimit, dailyLimit, stats.daily, JsScale(JsDivide(stats.daily, dailyLimit), 100.0))];
      }
      ghost var d := OptionSeq(LimitAlert(DailyLimit, stats.daily, dailyLimit));
      assert alerts == d;
      if stats.weekly > weeklyLimit {
        alerts := alerts + [CostAlert(WeeklyLimit, weeklyLimit, stats.weekly, JsScale(JsDivide(stats.weekly, weeklyLimit), 100.0))];
      }
      ghost var w := OptionSeq(LimitAlert(WeeklyLimit, stats.weekly, weeklyLimit));
      assert alerts == d + w;
      if stats.monthly > monthlyLimit {
        alerts := alerts + [CostAlert(MonthlyLimit, monthlyLimit, stats.monthly, JsScale(JsDivide(stats.monthly, monthlyLimit), 100.0))];
      }
      ghost var m := OptionSeq(LimitAlert(MonthlyLimit, stats.monthly, monthlyLimit));
      assert alerts == d + w + m;
      var anomaly := DetectCostAnomaly(stats.daily, rows, today - 30);
      if anomaly.Some? {
        alerts := alerts + [anomaly.value];
      }
      assert alerts == d + w + m + OptionSeq(anomaly);
      if |alerts| > 0 && !storeFailed {
        systemAlerts := systemAlerts + Stored(alerts);
      }
    }
  }
}
