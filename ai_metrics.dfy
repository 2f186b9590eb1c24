/**
 * The client-side AI metrics buffer: metrics are kept in a map keyed by id
 * (JavaScript `Map`, so insertion order is kept), flushed to the `ai_metrics`
 * table in batches, and put back when the write fails.
 */
module AIMetrics {
  import opened Wrappers
  import opened Text

  datatype AIMetric = AIMetric(
    id: string, functionName: string, userId: string, requestId: string,
    startTime: int, endTime: int, responseTime: int, tokensIn: int, tokensOut: int, cost: real,
    success: bool, errorType: Option<string>, errorMessage: Option<string>,
    modelUsed: string, cacheHit: Option<bool>, retryCount: int, contextSize: int)

  const BatchSize: nat := 50
  const ModelUsed: string := "google/gemini-2.5-flash"

  // ----- createMetric -----

  /** Price per token of the model: 0.075 per million in, 0.30 per million out. */
  function CalculateCost(tokensIn: int, tokensOut: int): real {
    tokensIn as real / 1000000.0 * 0.075 + tokensOut as real / 1000000.0 * 0.30
  }

  /** The cost is never negative for real token counts, and grows with each count. */
  lemma CalculateCostSpec(tokensIn: int, tokensOut: int, moreIn: int, moreOut: int)
    ensures tokensIn >= 0 && tokensOut >= 0 ==> CalculateCost(tokensIn, tokensOut) >= 0.0
    ensures tokensIn <= moreIn && tokensOut <= moreOut ==> CalculateCost(tokensIn, tokensOut) <= CalculateCost(moreIn, moreOut)
    ensures CalculateCost(0, 0) == 0.0
  {
  }

  /**
   * `createMetric`, with `now` standing for `Date.now()` and `None` for an
   * omitted optional argument (`retryCount` and `contextSize` default to 0).
   */
  function CreateMetric(functionName: string, userId: string, requestId: string, startTime: int, endTime: int,
                        tokensIn: int, tokensOut: int, success: bool, errorType: Option<string>,
                        errorMessage: Option<string>, retryCount: Option<int>, contextSize: Option<int>, now: nat): AIMetric
  {
    AIMetric(requestId + "_" + NatToString(now), functionName, userId, requestId, startTime, endTime,
             endTime - startTime, tokensIn, tokensOut, CalculateCost(tokensIn, tokensOut), success,
             errorType, errorMessage, ModelUsed, Some(false), retryCount.GetOr(0), contextSize.GetOr(0))
  }

  /**
   * The response time is the elapsed time, the model is the fixed one, a cache
   * hit is never recorded, the omitted counts are 0, and the id starts with
   * the request id followed by `_`.
   */
  lemma CreateMetricSpec(functionName: string, userId: string, requestId: string, startTime: int, endTime: int,
                         tokensIn: int, tokensOut: int, success: bool, errorType: Option<string>,
                         errorMessage: Option<string>, retryCount: Option<int>, contextSize: Option<int>, now: nat)
    ensures var m := CreateMetric(functionName, userId, requestId, startTime, endTime, tokensIn, tokensOut,
                                  success, errorType, errorMessage, retryCount, contextSize, now);
      && m.startTime + m.responseTime == m.endTime == endTime
      && m.modelUsed == ModelUsed && m.cacheHit == Some(false)
      && (retryCount.None? ==> m.retryCount == 0) && (retryCount.Some? ==> m.retryCount == retryCount.value)
      && (contextSize.None? ==> m.contextSize == 0) && (contextSize.Some? ==> m.contextSize == contextSize.value)
      && |m.id| > |requestId| && m.id[..|requestId|] == requestId && m.id[|requestId|] == '_'
      && (tokensIn >= 0 && tokensOut >= 0 ==> m.cost >= 0.0)
  {
    var m := CreateMetric(functionName, userId, requestId, startTime, endTime, tokensIn, tokensOut,
                          success, errorType, errorMessage, retryCount, contextSize, now);
    assert m.id == requestId + ("_" + NatToString(now));
  }

  // ----- analytics reported by collectMetric -----

  datatype AnalyticsEvent =
    | AIResponse(requestId: string, functionName: string, responseTime: int, tokensIn: int, tokensOut: int, succeeded: bool)
    | AIFailure(requestId: string, functionName: string, message: string, errorType: string, retryCount: int, succeeded: bool)

  /** The event reported for a metric: a response on success, a failure with 'Unknown error'/'unknown' defaults otherwise. */
  function EventFor(m: AIMetric): (e: AnalyticsEvent)
    ensures e.succeeded == m.success && e.requestId == m.requestId && e.functionName == m.functionName
  {
    if m.success then AIResponse(m.requestId, m.functionName, m.responseTime, m.tokensIn, m.tokensOut, true)
    else AIFailure(m.requestId, m.functionName, m.errorMessage.GetOr("Unknown error"),
                   m.errorType.GetOr("unknown"), m.retryCount, false)
  }

  // ----- the buffer -----

  /** `Map.set` on the key order: a new key goes last, an existing key keeps its place. */
  function SetKeys(keys: seq<string>, id: string): (r: seq<string>)
    ensures id in r && forall k :: k in r <==> k in keys || k == id
    ensures id in keys ==> r == keys
  {
    if id in keys then keys else keys + [id]
  }

  predicate Distinct(keys: seq<string>) {
    forall i, j :: 0 <= i < j < |keys| ==> keys[i] != keys[j]
  }

  /** `Array.from(map.values())`. */
  function Values(keys: seq<string>, metrics: map<string, AIMetric>): (r: seq<AIMetric>)
    requires forall k :: k in keys ==> k in metrics
    ensures |r| == |keys| && forall i :: 0 <= i < |r| ==> r[i] == metrics[keys[i]]
  {
    seq(|keys|, i requires 0 <= i < |keys| => metrics[keys[i]])
  }

  /** A duplicate-free key list has as many distinct keys as entries. */
  lemma {:induction false} DistinctCardinality(keys: seq<string>)
    requires Distinct(keys)
    ensures |set k | k in keys| == |keys|
    decreases |keys|
  {
    if keys != [] {
      var prev := keys[..|keys| - 1];
      var last := keys[|keys| - 1];
      assert Distinct(prev);
      DistinctCardinality(prev);
      assert (set k | k in keys) == (set k | k in prev) + {last};
      assert last !in (set k | k in prev);
    }
  }

  class AIMetricsCollector {
    /** The buffered metrics, keyed by id. */
    var metrics: map<string, AIMetric>
    /** The map's insertion order. */
    var keys: seq<string>
    var isFlushing: bool
    /** The rows written to the `ai_metrics` table. */
    var stored: seq<AIMetric>

    ghost predicate Valid()
      reads this
    {
      && Distinct(keys)
      && (forall k :: k in metrics <==> k in keys)
      && (forall k :: k in metrics ==> metrics[k].id == k)
    }

    constructor ()
      ensures Valid() && metrics == map[] && keys == [] && !isFlushing && stored == []
    {
      metrics := map[];
      keys := [];
      isFlushing := false;
      stored := [];
    }

    /** `this.metrics.set(metric.id, metric)`. */
    method Put(m: AIMetric)
      requires Valid()
      modifies this`metrics, this`keys
      ensures Valid()
      ensures metrics == old(metrics)[m.id := m] && keys == SetKeys(old(keys), m.id)
    {
      if m.id !in keys {
        keys := keys + [m.id];
      }
      metrics := metrics[m.id := m];
    }

    /** `getMetricsCount`: the map's size, which is the number of distinct buffered ids. */
    method GetMetricsCount() returns (count: nat)
      requires Valid()
      ensures count == |keys| && count == |metrics.Keys|
    {
      DistinctCardinality(keys);
      assert metrics.Keys == set k | k in keys;
      count := |metrics|;
    }

    /** The failed flush's `metricsArray.forEach(metric => this.metrics.set(metric.id, metric))`. */
    method Requeue(batch: seq<AIMetric>, ghost oldKeys: seq<string>, ghost oldMetrics: map<string, AIMetric>)
      requires metrics == map[] && keys == []
      requires Distinct(oldKeys) && (forall k :: k in oldMetrics <==> k in oldKeys)
      requires forall k :: k in oldMetrics ==> oldMetrics[k].id == k
      requires batch == Values(oldKeys, oldMetrics)
      modifies this`metrics, this`keys
      ensures Valid() && keys == oldKeys && metrics == oldMetrics
    {
      var i := 0;
      while i < |batch|
        invariant 0 <= i <= |batch|
        invariant Valid()
        invariant keys == oldKeys[..i]
        invariant forall k :: k in metrics ==> metrics[k] == oldMetrics[k]
      {
        RequeueStep(batch, oldKeys, oldMetrics, i);
        Put(batch[i]);
        i := i + 1;
      }
      assert keys == oldKeys;
      assert forall k :: k in metrics <==> k in oldMetrics;
    }

    /**
     * `flushMetrics`, with `storeFails` the outcome of the database write. An
     * empty buffer or a flush in progress makes it a no-op; otherwise the
     * buffer is emptied, and on failure every metric is put back in order.
     */
    method Flush(storeFails: bool)
      requires Valid()
      modifies this
      ensures Valid()
      ensures old(|keys|) == 0 || old(isFlushing) ==>
        metrics == old(metrics) && keys == old(keys) && isFlushing == old(isFlushing) && stored == old(stored)
      ensures old(|keys|) > 0 && !old(isFlushing) && storeFails ==>
        metrics == old(metrics) && keys == old(keys) && !isFlushing && stored == old(stored)
      ensures old(|keys|) > 0 && !old(isFlushing) && !storeFails ==>
        metrics == map[] && keys == [] && !isFlushing && stored == old(stored) + Values(old(keys), old(metrics))
    {
      if |keys| == 0 || isFlushing {
        return;
      }
      isFlushing := true;
      var batch := Values(keys, metrics);
      ghost var oldKeys, oldMetrics := keys, metrics;
      metrics, keys := map[], [];
      if !storeFails {
        stored := stored + batch;
      } else {
        Requeue(batch, oldKeys, oldMetrics);
      }
      isFlushing := false;
    }

    /**
     * `collectMetric`: buffer the metric under its id, report it to analytics,
     * and flush once the buffer holds a full batch.
     */
    method CollectMetric(m: AIMetric, storeFails: bool) returns (event: AnalyticsEvent)
      requires Valid()
      modifies this
      ensures Valid()
      ensures event == EventFor(m)
      ensures |SetKeys(old(keys), m.id)| < BatchSize ==>
        metrics == old(metrics)[m.id := m] && keys == SetKeys(old(keys), m.id) && stored == old(stored)
      ensures |SetKeys(old(keys), m.id)| >= BatchSize && !old(isFlushing) && !storeFails ==>
        metrics == map[] && keys == [] && stored == old(stored) + Values(SetKeys(old(keys), m.id), old(metrics)[m.id := m])
      ensures |SetKeys(old(keys), m.id)| >= BatchSize && !old(isFlushing) && storeFails ==>
        metrics == old(metrics)[m.id := m] && keys == SetKeys(old(keys), m.id) && stored == old(stored)
      ensures |SetKeys(old(keys), m.id)| >= BatchSize && old(isFlushing) ==>
        metrics == old(metrics)[m.id := m] && keys == SetKeys(old(keys), m.id) && stored == old(stored)
      ensures isFlushing == old(isFlushing)
    {
      Put(m);
      event := EventFor(m);
      var size := GetMetricsCount();
      if size >= BatchSize {
        Flush(storeFails);
      }
    }
  }

  /** The `i`-th re-added metric is the one stored under the `i`-th key, which is not yet back. */
  lemma RequeueStep(batch: seq<AIMetric>, oldKeys: seq<string>, oldMetrics: map<string, AIMetric>, i: nat)
    requires Distinct(oldKeys) && (forall k :: k in oldKeys ==> k in oldMetrics)
    requires forall k :: k in oldMetrics ==> oldMetrics[k].id == k
    requires batch == Values(oldKeys, oldMetrics) && i < |batch|
    ensures batch[i] == oldMetrics[oldKeys[i]] && batch[i].id == oldKeys[i]
    ensures oldKeys[i] !in oldKeys[..i] && SetKeys(oldKeys[..i], batch[i].id) == oldKeys[..i + 1]
  {
    assert oldKeys[..i + 1] == oldKeys[..i] + [oldKeys[i]];
  }

  /** A metric put into the buffer is found under its id, and nothing else is lost. */
  lemma PutKeeps(metrics: map<string, AIMetric>, keys: seq<string>, m: AIMetric)
    requires forall k :: k in keys ==> k in metrics
    ensures var r := Values(SetKeys(keys, m.id), metrics[m.id := m]);
      |r| == |keys| + (if m.id in keys then 0 else 1) && m in r
  {
    var ks := SetKeys(keys, m.id);
    var r := Values(ks, metrics[m.id := m]);
    var j :| 0 <= j < |ks| && ks[j] == m.id;
    assert r[j] == m;
  }
}
