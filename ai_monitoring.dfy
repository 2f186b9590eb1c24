/**
 * The edge functions' AI monitoring helper: the `ai_metrics` row built by
 * `trackMetric` and the character-based token estimate.
 */
module AIMonitoring {
  import opened Wrappers
  import AIMetrics

  /** A row posted to `ai_metrics`; `timestamp` is the start time it is derived from. */
  datatype MetricRow = MetricRow(
    functionName: string, userId: string, requestId: string, responseTimeMs: int,
    tokensIn: int, tokensOut: int, costEstimate: real, success: bool,
    errorType: Option<string>, errorMessage: Option<string>, modelUsed: string,
    cacheHit: bool, retryCount: int, contextSize: int, timestamp: int)

  datatype AIMetricData = AIMetricData(
    functionName: string, userId: string, requestId: string, startTime: int, endTime: int,
    tokensIn: int, tokensOut: int, success: bool, errorType: Option<string>, errorMessage: Option<string>,
    retryCount: Option<int>, contextSize: Option<int>)

  /** The record built in `trackMetric`; an absent (or zero) count becomes 0. */
  function RowFor(d: AIMetricData): MetricRow {
    MetricRow(d.functionName, d.userId, d.requestId, d.endTime - d.startTime, d.tokensIn, d.tokensOut,
              AIMetrics.CalculateCost(d.tokensIn, d.tokensOut), d.success, d.errorType, d.errorMessage,
              AIMetrics.ModelUsed, false, d.retryCount.GetOr(0), d.contextSize.GetOr(0), d.startTime)
  }

  /**
   * `trackMetric` on the `ai_metrics` table; `accepted` is whether the POST
   * succeeded. A rejected or failed write is only logged: there is no error
   * result, and the table is left as it was.
   */
  function TrackMetric(table: seq<MetricRow>, d: AIMetricData, accepted: bool): (r: seq<MetricRow>)
    ensures accepted ==> |r| == |table| + 1 && r[..|table|] == table
    ensures !accepted ==> r == table
  {
    if accepted then table + [RowFor(d)] else table
  }

  /**
   * The stored row's response time is the elapsed time, the model is the fixed
   * one, a cache hit is never recorded, absent counts are 0, and the
   * timestamp comes from the start time.
   */
  lemma TrackMetricSpec(table: seq<MetricRow>, d: AIMetricData)
    ensures var row := TrackMetric(table, d, true)[|table|];
      && d.startTime + row.responseTimeMs == d.endTime
      && row.modelUsed == AIMetrics.ModelUsed && !row.cacheHit
      && row.retryCount == (if d.retryCount.Some? then d.retryCount.value else 0)
      && row.contextSize == (if d.contextSize.Some? then d.contextSize.value else 0)
      && row.timestamp == d.startTime
      && (d.tokensIn >= 0 && d.tokensOut >= 0 ==> row.costEstimate >= 0.0)
  {
    AIMetrics.CalculateCostSpec(d.tokensIn, d.tokensOut, d.tokensIn, d.tokensOut);
  }

  /** The server-side row and the client-side `createMetric` agree on every measured field. */
  lemma RowMatchesClientMetric(d: AIMetricData, now: nat)
    ensures var row := RowFor(d);
      var m := AIMetrics.CreateMetric(d.functionName, d.userId, d.requestId, d.startTime, d.endTime, d.tokensIn,
                                      d.tokensOut, d.success, d.errorType, d.errorMessage, d.retryCount, d.contextSize, now);
      && row.responseTimeMs == m.responseTime && row.costEstimate == m.cost
      && row.modelUsed == m.modelUsed && m.cacheHit == Some(row.cacheHit)
      && row.retryCount == m.retryCount && row.contextSize == m.contextSize && row.timestamp == m.startTime
  {
  }

  /** `Math.ceil(text.length / 4)`. */
  function EstimateTokens(text: string): (t: nat)
    ensures 4 * t >= |text| && (|text| > 0 ==> |text| > 4 * (t - 1))
  {
    (|text| + 3) / 4
  }

  /** No text is no tokens, and a longer text never has a smaller estimate. */
  lemma EstimateTokensMonotone(a: string, b: string)
    ensures EstimateTokens([]) == 0
    ensures |a| <= |b| ==> EstimateTokens(a) <= EstimateTokens(b)
  {
  }
}
