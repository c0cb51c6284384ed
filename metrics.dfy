/**
 * The metrics collector (src/utils/metrics.ts).
 *
 * The collector keeps the most recent request records, at most 1000 of them,
 * and two cache counters. From the history it derives a summary (counts, rates,
 * response-time statistics, per-endpoint statistics), a health vote over the
 * last 50 records, and two views for debugging. Durations are integers of
 * milliseconds; rates and means are reals. The clock is a parameter `now`.
 */
module Metrics {
  import opened Wrappers
  import opened Js

  /** Number of records the history keeps. */
  const MaxHistorySize: nat := 1000
  /** Number of most recent records the health vote looks at. */
  const HealthWindowSize: nat := 50
  /** Default `limit` of the two debugging views. */
  const DefaultLimit: int := 10
  /** Health thresholds: error rate below 10%, mean response time below 5 s. */
  const MaxErrorRate: real := 0.1
  const MaxAverageTimeMs: real := 5000.0

  datatype RequestMetric = RequestMetric(
    endpoint: string,
    httpMethod: string,
    duration: int,
    success: bool,
    timestamp: int,
    requestId: Option<string>,
    errorCode: Option<int>)

  // Filters and folds over the history, written from the newest record back

  /** The failed records, in history order. */
  function Failed(rs: seq<RequestMetric>): (f: seq<RequestMetric>)
    ensures |f| <= |rs|
    ensures forall k | 0 <= k < |f| :: !f[k].success && f[k] in rs
  {
    if rs == [] then []
    else
      var last := rs[|rs| - 1];
      Failed(rs[..|rs| - 1]) + (if last.success then [] else [last])
  }

  /** The successful records, in history order. */
  function Succeeded(rs: seq<RequestMetric>): (f: seq<RequestMetric>)
    ensures |f| <= |rs|
    ensures forall k | 0 <= k < |f| :: f[k].success && f[k] in rs
  {
    if rs == [] then []
    else
      var last := rs[|rs| - 1];
      Succeeded(rs[..|rs| - 1]) + (if last.success then [last] else [])
  }

  function Durations(rs: seq<RequestMetric>): seq<int> {
    seq(|rs|, k requires 0 <= k < |rs| => rs[k].duration)
  }

  function Sum(s: seq<int>): int {
    if s == [] then 0 else Sum(s[..|s| - 1]) + s[|s| - 1]
  }

  function MinOf(s: seq<int>): (m: int)
    requires |s| > 0
    ensures m in s && forall x | x in s :: m <= x
  {
    if |s| == 1 then s[0]
    else
      var rest := MinOf(s[1..]);
      assert s == [s[0]] + s[1..];
      if s[0] <= rest then s[0] else rest
  }

  function MaxOf(s: seq<int>): (m: int)
    requires |s| > 0
    ensures m in s && forall x | x in s :: x <= m
  {
    if |s| == 1 then s[0]
    else
      var rest := MaxOf(s[1..]);
      assert s == [s[0]] + s[1..];
      if s[0] >= rest then s[0] else rest
  }

  // Sorting, as `Array.prototype.sort` with a numeric comparator

  predicate SortedBy<T>(s: seq<T>, key: T -> int) {
    forall i, j | 0 <= i < j < |s| :: key(s[i]) <= key(s[j])
  }

  function InsertBy<T>(x: T, s: seq<T>, key: T -> int): (r: seq<T>)
    requires SortedBy(s, key)
    ensures SortedBy(r, key)
    ensures multiset(r) == multiset(s) + multiset{x}
  {
    if s == [] || key(x) <= key(s[0]) then
      InsertFront(x, s, key);
      [x] + s
    else
      var rest := InsertBy(x, s[1..], key);
      InsertBehind(x, s, rest, key);
      [s[0]] + rest
  }

  lemma InsertFront<T>(x: T, s: seq<T>, key: T -> int)
    requires SortedBy(s, key)
    requires s == [] || key(x) <= key(s[0])
    ensures SortedBy([x] + s, key)
  {
    var r := [x] + s;
    forall i, j | 0 <= i < j < |r|
      ensures key(r[i]) <= key(r[j])
    {
      if i == 0 && j > 1 {
        assert key(s[0]) <= key(s[j - 1]);
      }
    }
  }

  lemma InsertBehind<T>(x: T, s: seq<T>, rest: seq<T>, key: T -> int)
    requires SortedBy(s, key) && s != [] && key(s[0]) < key(x)
    requires SortedBy(rest, key) && multiset(rest) == multiset(s[1..]) + multiset{x}
    ensures SortedBy([s[0]] + rest, key)
    ensures multiset([s[0]] + rest) == multiset(s) + multiset{x}
  {
    assert s == [s[0]] + s[1..];
    forall j | 0 <= j < |rest|
      ensures key(s[0]) <= key(rest[j])
    {
      assert rest[j] in multiset(rest);
      if rest[j] != x {
        assert rest[j] in s[1..];
        var i :| 0 <= i < |s[1..]| && s[1..][i] == rest[j];
        assert s[i + 1] == rest[j];
      }
    }
    var r := [s[0]] + rest;
    forall i, j | 0 <= i < j < |r|
      ensures key(r[i]) <= key(r[j])
    {
      if i > 0 {
        assert r[i] == rest[i - 1] && r[j] == rest[j - 1];
      } else {
        assert r[j] == rest[j - 1];
      }
    }
  }

  /** The elements of s in non-decreasing order of key. */
  function SortBy<T>(s: seq<T>, key: T -> int): (r: seq<T>)
    ensures SortedBy(r, key)
    ensures multiset(r) == multiset(s) && |r| == |s|
  {
    if s == [] then []
    else
      assert s == [s[0]] + s[1..];
      InsertBy(s[0], SortBy(s[1..], key), key)
  }

  // The summary

  datatype RequestCounts = RequestCounts(total: nat, successful: nat, failed: int, errorRate: real)
  datatype Performance = Performance(
    averageResponseTime: int,
    minResponseTime: int,
    maxResponseTime: int,
    p95ResponseTime: int)
  datatype CacheCounts = CacheCounts(hits: nat, misses: nat, hitRate: real)
  datatype EndpointStats = EndpointStats(count: nat, averageTime: real, errorCount: nat)
  datatype Summary = Summary(
    requests: RequestCounts,
    performance: Performance,
    cache: CacheCounts,
    endpoints: map<string, EndpointStats>,
    lastReset: int)

  function CountsOf(rs: seq<RequestMetric>): RequestCounts {
    var total := |rs|;
    var successful := |Succeeded(rs)|;
    var failed := total - successful;
    RequestCounts(total, successful, failed, if total > 0 then failed as real / total as real else 0.0)
  }

  /** The p95 index, `floor(0.95 * n)` computed exactly. */
  function P95Index(n: nat): (k: nat)
    ensures n > 0 ==> k < n
  {
    (95 * n) / 100
  }

  function PerformanceOf(rs: seq<RequestMetric>): Performance {
    var times := Durations(rs);
    if |times| == 0 then Performance(0, 0, 0, 0)
    else
      var sorted := SortBy(times, (x: int) => x);
      Performance(
        Round(Sum(times) as real / |times| as real),
        MinOf(times),
        MaxOf(times),
        sorted[P95Index(|times|)])
  }

  function CacheOf(hits: nat, misses: nat): CacheCounts {
    var total := hits + misses;
    CacheCounts(hits, misses, if total > 0 then hits as real / total as real else 0.0)
  }

  /** The key of a record in the per-endpoint statistics. */
  function Key(r: RequestMetric): string {
    r.httpMethod + " " + r.endpoint
  }

  const NoStats := EndpointStats(0, 0.0, 0)

  /** The running mean after its `count`-th value `d`, from the mean of the values before. */
  function UpdatedMean(average: real, count: nat, d: real): real
    requires count > 0
  {
    (average * (count - 1) as real + d) / count as real
  }

  /** One record folded into its endpoint's statistics: the running mean is updated incrementally. */
  function Record(st: EndpointStats, r: RequestMetric): EndpointStats {
    var count := st.count + 1;
    EndpointStats(
      count,
      UpdatedMean(st.averageTime, count, r.duration as real),
      if r.success then st.errorCount else st.errorCount + 1)
  }

  /** Per-endpoint statistics of a history, folded in history order. */
  function Tally(rs: seq<RequestMetric>): map<string, EndpointStats> {
    if rs == [] then map[]
    else
      var m := Tally(rs[..|rs| - 1]);
      var r := rs[|rs| - 1];
      var cur := if Key(r) in m then m[Key(r)] else NoStats;
      m[Key(r) := Record(cur, r)]
  }

  lemma TallySnoc(rs: seq<RequestMetric>, r: RequestMetric)
    ensures var m := Tally(rs);
      Tally(rs + [r]) == m[Key(r) := Record(if Key(r) in m then m[Key(r)] else NoStats, r)]
  {
    assert (rs + [r])[..|rs|] == rs;
  }

  /** One more record of a history folded in: the step of `getSummary`'s loop. */
  lemma TallyPrefix(rs: seq<RequestMetric>, i: nat)
    requires i < |rs|
    ensures var m := Tally(rs[..i]);
      Tally(rs[..i + 1]) == m[Key(rs[i]) := Record(if Key(rs[i]) in m then m[Key(rs[i])] else NoStats, rs[i])]
  {
    assert rs[..i + 1][..i] == rs[..i];
  }

  function SummaryOf(rs: seq<RequestMetric>, hits: nat, misses: nat, startTime: int): Summary {
    Summary(CountsOf(rs), PerformanceOf(rs), CacheOf(hits, misses), Tally(rs), startTime)
  }

  // The health vote

  datatype HealthStatus = Healthy | Degraded | Unhealthy
  datatype Checks = Checks(errorRate: bool, responseTime: bool, hasRecentActivity: bool)
  /** A detail line; the text around the numbers (`toFixed`) is not modelled. */
  datatype Detail = HighErrorRate(rate: real) | SlowResponseTime(averageMs: real) | NoRecentActivity
  datatype Health = Health(status: HealthStatus, checks: Checks, details: seq<Detail>)

  function FailedChecks(c: Checks): nat {
    (if c.errorRate then 0 else 1) + (if c.responseTime then 0 else 1) + (if c.hasRecentActivity then 0 else 1)
  }

  /** The share of failures in the window, 0 for an empty window. */
  function ErrorRateOf(recent: seq<RequestMetric>): real {
    if |recent| > 0 then |Failed(recent)| as real / |recent| as real else 0.0
  }

  /** The mean duration in the window, 0 for an empty window. */
  function AverageTimeOf(recent: seq<RequestMetric>): real {
    if |recent| > 0 then Sum(Durations(recent)) as real / |recent| as real else 0.0
  }

  /** The health of a history: the vote over its last 50 records. */
  function HealthOf(rs: seq<RequestMetric>): Health {
    WindowHealth(SliceFrom(rs, -(HealthWindowSize as int)))
  }

  /** The three checks over the window, the failing ones' details in order, and the vote. */
  function WindowHealth(recent: seq<RequestMetric>): Health {
    var n := |recent|;
    var rate := ErrorRateOf(recent);
    var average := AverageTimeOf(recent);
    var checks := Checks(rate < MaxErrorRate, average < MaxAverageTimeMs, n > 0);
    var details :=
      (if rate >= MaxErrorRate then [HighErrorRate(rate)] else [])
      + (if average >= MaxAverageTimeMs then [SlowResponseTime(average)] else [])
      + (if n == 0 then [NoRecentActivity] else []);
    var failedChecks := FailedChecks(checks);
    var status := if failedChecks == 0 then Healthy else if failedChecks == 1 then Degraded else Unhealthy;
    Health(status, checks, details)
  }

  // The two debugging views

  /** `getRecentErrors(limit)`: the last `limit` failures, newest first. */
  function RecentErrors(rs: seq<RequestMetric>, limit: int): seq<RequestMetric> {
    Reverse(SliceFrom(Failed(rs), -limit))
  }

  /** `getSlowestRequests(limit)`: a copy sorted by decreasing duration, cut to `limit`. */
  function SlowestRequests(rs: seq<RequestMetric>, limit: int): seq<RequestMetric> {
    Slice(SortBy(rs, (r: RequestMetric) => -r.duration), 0, limit)
  }

  class MetricsCollector {
    var requests: seq<RequestMetric>
    var cacheHits: nat
    var cacheMisses: nat
    var startTime: int
    /** Every record since the collector was created or last reset. */
    ghost var recorded: seq<RequestMetric>

    ghost predicate Valid()
      reads this
    {
      requests == Last(recorded, MaxHistorySize)
    }

    constructor(now: int)
      ensures Valid() && recorded == [] && requests == []
      ensures cacheHits == 0 && cacheMisses == 0 && startTime == now
    {
      requests := [];
      cacheHits := 0;
      cacheMisses := 0;
      startTime := now;
      recorded := [];
    }

    method RecordRequest(metric: RequestMetric)
      requires Valid()
      modifies this
      ensures Valid() && recorded == old(recorded) + [metric]
      ensures requests == Last(old(requests) + [metric], MaxHistorySize)
      ensures |requests| <= MaxHistorySize
      ensures cacheHits == old(cacheHits) && cacheMisses == old(cacheMisses) && startTime == old(startTime)
    {
      requests := requests + [metric];
      if |requests| > MaxHistorySize {
        SliceFromNegative(requests, MaxHistorySize);
        requests := SliceFrom(requests, -(MaxHistorySize as int));
      }
      recorded := recorded + [metric];
      LastAppend(old(recorded), metric, MaxHistorySize);
    }

    method RecordCacheHit()
      modifies this
      ensures cacheHits == old(cacheHits) + 1
      ensures requests == old(requests) && recorded == old(recorded)
      ensures cacheMisses == old(cacheMisses) && startTime == old(startTime)
    {
      cacheHits := cacheHits + 1;
    }

    method RecordCacheMiss()
      modifies this
      ensures cacheMisses == old(cacheMisses) + 1
      ensures requests == old(requests) && recorded == old(recorded)
      ensures cacheHits == old(cacheHits) && startTime == old(startTime)
    {
      cacheMisses := cacheMisses + 1;
    }

    method Reset(now: int)
      modifies this
      ensures Valid() && recorded == [] && requests == []
      ensures cacheHits == 0 && cacheMisses == 0 && startTime == now
    {
      requests := [];
      cacheHits := 0;
      cacheMisses := 0;
      startTime := now;
      recorded := [];
    }

    /** The summary; the per-endpoint statistics are built by one pass over the history. */
    method GetSummary() returns (s: Summary)
      ensures s == SummaryOf(requests, cacheHits, cacheMisses, startTime)
    {
      var endpointStats: map<string, EndpointStats> := map[];
      for i := 0 to |requests|
        invariant endpointStats == Tally(requests[..i])
      {
        var request := requests[i];
        var key := Key(request);
        // a missing entry starts from zero counts
        var st := if key in endpointStats then endpointStats[key] else EndpointStats(0, 0.0, 0);
        var count := st.count + 1;
        var averageTime := UpdatedMean(st.averageTime, count, request.duration as real);
        var errorCount := if request.success then st.errorCount else st.errorCount + 1;
        assert EndpointStats(count, averageTime, errorCount) == Record(st, request);
        endpointStats := endpointStats[key := EndpointStats(count, averageTime, errorCount)];
        TallyPrefix(requests, i);
      }
      assert requests[..|requests|] == requests;
      s := Summary(CountsOf(requests), PerformanceOf(requests), CacheOf(cacheHits, cacheMisses), endpointStats, startTime);
    }

    function GetHealthStatus(): Health
      reads this
    {
      HealthOf(requests)
    }

    function GetRecentErrors(limit: int := DefaultLimit): seq<RequestMetric>
      reads this
    {
      RecentErrors(requests, limit)
    }

    function GetSlowestRequests(limit: int := DefaultLimit): seq<RequestMetric>
      reads this
    {
      SlowestRequests(requests, limit)
    }
  }

  // Properties of the history

  /** The history is the last min(n, 1000) records, in the order they were recorded. */
  lemma HistoryIsRecentSuffix(recorded: seq<RequestMetric>)
    ensures |Last(recorded, MaxHistorySize)| <= MaxHistorySize
    ensures |recorded| <= MaxHistorySize ==> Last(recorded, MaxHistorySize) == recorded
    ensures |recorded| > MaxHistorySize ==> Last(recorded, MaxHistorySize) == recorded[|recorded| - MaxHistorySize..]
  {
  }

  // Properties of the summary

  lemma {:induction false} PartitionCount(rs: seq<RequestMetric>)
    ensures |Succeeded(rs)| + |Failed(rs)| == |rs|
  {
    if rs != [] {
      PartitionCount(rs[..|rs| - 1]);
    }
  }

  lemma RatioInUnit(a: nat, b: nat)
    requires a <= b && b > 0
    ensures 0.0 <= a as real / b as real <= 1.0
  {
    assert a as real / b as real * b as real == a as real;
  }

  /** successful + failed == total == n, failed counts the failures, and the error rate is a fraction. */
  lemma CountsAreConsistent(rs: seq<RequestMetric>)
    ensures var c := CountsOf(rs);
      && c.total == |rs| && c.successful + c.failed == c.total
      && c.failed == |Failed(rs)|
      && 0.0 <= c.errorRate <= 1.0
      && (c.total == 0 ==> c.errorRate == 0.0)
  {
    PartitionCount(rs);
    if |rs| > 0 {
      RatioInUnit(|Failed(rs)|, |rs|);
    }
  }

  /** The hit rate is a fraction, and zero when there were no cache requests. */
  lemma HitRateInUnit(hits: nat, misses: nat)
    ensures 0.0 <= CacheOf(hits, misses).hitRate <= 1.0
    ensures hits + misses == 0 ==> CacheOf(hits, misses).hitRate == 0.0
  {
    if hits + misses > 0 {
      RatioInUnit(hits, hits + misses);
    }
  }

  lemma {:induction false} SumBounds(s: seq<int>, lo: int, hi: int)
    requires forall x | x in s :: lo <= x <= hi
    ensures |s| * lo <= Sum(s) <= |s| * hi
  {
    if s != [] {
      var init := s[..|s| - 1];
      assert forall x | x in init :: x in s;
      SumBounds(init, lo, hi);
      var last := s[|s| - 1];
      assert last in s;
      assert Sum(s) == Sum(init) + last;
      MulSucc(|init|, lo);
      MulSucc(|init|, hi);
    }
  }

  lemma MulSucc(n: nat, c: int)
    ensures (n + 1) * c == n * c + c
  {
  }

  lemma MeanBetween(total: int, n: int, lo: int, hi: int)
    requires n > 0 && n * lo <= total <= n * hi
    ensures lo as real <= total as real / n as real <= hi as real
  {
    var mean := total as real / n as real;
    assert mean * n as real == total as real;
    assert (n * lo) as real == n as real * lo as real;
    assert (n * hi) as real == n as real * hi as real;
  }

  /** An empty history gives all-zero response-time statistics. */
  lemma EmptyPerformance()
    ensures PerformanceOf([]) == Performance(0, 0, 0, 0)
  {
  }

  /** For a non-empty history, min <= rounded mean <= max and min <= p95 <= max. */
  lemma PerformanceBounds(rs: seq<RequestMetric>)
    requires rs != []
    ensures var p := PerformanceOf(rs);
      && p.minResponseTime <= p.averageResponseTime <= p.maxResponseTime
      && p.minResponseTime <= p.p95ResponseTime <= p.maxResponseTime
      && p.minResponseTime in Durations(rs) && p.maxResponseTime in Durations(rs)
  {
    var times := Durations(rs);
    var lo, hi := MinOf(times), MaxOf(times);
    SumBounds(times, lo, hi);
    MeanBetween(Sum(times), |times|, lo, hi);
    var sorted := SortBy(times, (x: int) => x);
    var p95 := sorted[P95Index(|times|)];
    assert p95 in multiset(sorted);
    assert p95 in times;
  }

  // Per-endpoint statistics

  /** The records of one endpoint, in history order. */
  function OfKey(rs: seq<RequestMetric>, k: string): seq<RequestMetric> {
    if rs == [] then []
    else
      var last := rs[|rs| - 1];
      OfKey(rs[..|rs| - 1], k) + (if Key(last) == k then [last] else [])
  }

  /** The sum of the `count`s of a statistics map. */
  ghost function TotalCount(m: map<string, EndpointStats>): nat
    decreases |m|
  {
    if m == map[] then 0
    else
      var k := PickKey(m);
      m[k].count + TotalCount(m - {k})
  }

  ghost function PickKey(m: map<string, EndpointStats>): (k: string)
    requires m != map[]
    ensures k in m
  {
    assert m.Keys != {};
    var k :| k in m; k
  }

  lemma {:induction false} TotalCountRemove(m: map<string, EndpointStats>, k: string)
    requires k in m
    ensures TotalCount(m) == m[k].count + TotalCount(m - {k})
    decreases |m|
  {
    var j := PickKey(m);
    if j != k {
      TotalCountRemove(m - {j}, k);
      TotalCountRemove(m - {k}, j);
      assert m - {j} - {k} == m - {k} - {j};
    }
  }

  lemma MeanStep(total: real, c: nat, d: real)
    ensures c > 0 ==> ((total / c as real) * c as real + d) / (c + 1) as real == (total + d) / (c + 1) as real
    ensures c == 0 ==> (0.0 * c as real + d) / (c + 1) as real == d
  {
    if c > 0 {
      assert (total / c as real) * c as real == total;
    }
  }

  lemma DurationsAppend(rs: seq<RequestMetric>, r: RequestMetric)
    ensures Sum(Durations(rs + [r])) == Sum(Durations(rs)) + r.duration
  {
    assert Durations(rs + [r])[..|rs|] == Durations(rs);
  }

  /**
   * An endpoint has statistics iff it has records; then `count` is their number,
   * `errorCount` the number of failures among them, and the incrementally updated
   * `averageTime` is the arithmetic mean of their durations.
   */
  lemma {:induction false} TallyIsPerEndpoint(rs: seq<RequestMetric>, k: string)
    ensures k in Tally(rs) <==> |OfKey(rs, k)| > 0
    ensures k in Tally(rs) ==> StatsDescribe(Tally(rs)[k], OfKey(rs, k))
  {
    if rs != [] {
      var init, r := rs[..|rs| - 1], rs[|rs| - 1];
      TallyIsPerEndpoint(init, k);
      assert rs == init + [r];
      TallySnoc(init, r);
      if Key(r) == k {
        var m := Tally(init);
        RecordIsMean(if k in m then m[k] else NoStats, OfKey(init, k), r);
        assert OfKey(rs, k) == OfKey(init, k) + [r];
      } else {
        assert OfKey(rs, k) == OfKey(init, k);
      }
    }
  }

  /** The statistics of an endpoint agree with its records. */
  ghost predicate StatsDescribe(st: EndpointStats, recs: seq<RequestMetric>) {
    && |recs| > 0
    && st.count == |recs|
    && st.errorCount == |Failed(recs)|
    && st.averageTime == Sum(Durations(recs)) as real / |recs| as real
  }

  lemma RecordIsMean(cur: EndpointStats, recs: seq<RequestMetric>, r: RequestMetric)
    requires (recs == [] && cur == NoStats) || StatsDescribe(cur, recs)
    ensures StatsDescribe(Record(cur, r), recs + [r])
  {
    FailedAppend(recs, r);
    DurationsAppend(recs, r);
    RecordMean(cur, |recs|, Sum(Durations(recs)) as real, r);
  }

  lemma FailedAppend(recs: seq<RequestMetric>, r: RequestMetric)
    ensures |Failed(recs + [r])| == |Failed(recs)| + (if r.success then 0 else 1)
  {
    assert (recs + [r])[..|recs|] == recs;
  }

  /** The incremental update of a mean over n values with total `total`. */
  lemma RecordMean(cur: EndpointStats, n: nat, total: real, r: RequestMetric)
    requires cur.count == n
    requires n == 0 ==> cur.averageTime == 0.0 && total == 0.0
    requires n > 0 ==> cur.averageTime == total / n as real
    ensures Record(cur, r).averageTime == (total + r.duration as real) / (n + 1) as real
  {
    MeanStep(total, n, r.duration as real);
  }

  /** Within one endpoint, the error count never exceeds the count. */
  lemma ErrorCountAtMostCount(rs: seq<RequestMetric>, k: string)
    requires k in Tally(rs)
    ensures Tally(rs)[k].errorCount <= Tally(rs)[k].count
    ensures Tally(rs)[k].count > 0
  {
    TallyIsPerEndpoint(rs, k);
    assert StatsDescribe(Tally(rs)[k], OfKey(rs, k));
  }

  /** The per-endpoint counts add up to the number of records. */
  lemma {:induction false} EndpointCountsSum(rs: seq<RequestMetric>)
    ensures TotalCount(Tally(rs)) == |rs|
  {
    if rs != [] {
      var init, r := rs[..|rs| - 1], rs[|rs| - 1];
      EndpointCountsSum(init);
      var m := Tally(init);
      var k := Key(r);
      var cur := if k in m then m[k] else NoStats;
      var m' := m[k := Record(cur, r)];
      TotalCountRemove(m', k);
      assert m' - {k} == m - {k};
      if k in m {
        TotalCountRemove(m, k);
      } else {
        assert m - {k} == m;
      }
    }
  }

  // Properties of the health vote

  /** The vote looks at the last min(50, n) records. */
  lemma HealthWindow(rs: seq<RequestMetric>)
    ensures SliceFrom(rs, -(HealthWindowSize as int)) == Last(rs, HealthWindowSize)
  {
    SliceFromNegative(rs, HealthWindowSize);
  }

  /** 0, 1, or 2 and more failing checks give healthy, degraded, unhealthy; one detail per failing check. */
  lemma HealthVote(rs: seq<RequestMetric>)
    ensures var h := HealthOf(rs);
      && (h.status == Healthy <==> FailedChecks(h.checks) == 0)
      && (h.status == Degraded <==> FailedChecks(h.checks) == 1)
      && (h.status == Unhealthy <==> FailedChecks(h.checks) >= 2)
      && |h.details| == FailedChecks(h.checks)
      && ((exists d :: d in h.details && d.HighErrorRate?) <==> !h.checks.errorRate)
      && ((exists d :: d in h.details && d.SlowResponseTime?) <==> !h.checks.responseTime)
      && (NoRecentActivity in h.details <==> !h.checks.hasRecentActivity)
  {
    var h := HealthOf(rs);
    var recent := SliceFrom(rs, -(HealthWindowSize as int));
    var rate, average := ErrorRateOf(recent), AverageTimeOf(recent);
    var first := if rate >= MaxErrorRate then [HighErrorRate(rate)] else [];
    var second := if average >= MaxAverageTimeMs then [SlowResponseTime(average)] else [];
    var third := if |recent| == 0 then [NoRecentActivity] else [];
    assert h.details == first + second + third;
    if !h.checks.errorRate {
      assert HighErrorRate(rate) in h.details;
    }
    if !h.checks.responseTime {
      assert SlowResponseTime(average) in h.details;
    }
  }

  /** Only the last 50 records decide the health: cutting the history down to them changes nothing. */
  lemma HealthWindowDecides(rs: seq<RequestMetric>)
    ensures HealthOf(rs) == HealthOf(Last(rs, HealthWindowSize))
  {
    var w := Last(rs, HealthWindowSize);
    SliceFromNegative(rs, HealthWindowSize);
    SliceFromNegative(w, HealthWindowSize);
    assert SliceFrom(w, -(HealthWindowSize as int)) == SliceFrom(rs, -(HealthWindowSize as int));
  }

  /** An empty history is degraded, with the single detail "No recent activity". */
  lemma EmptyHistoryIsDegraded()
    ensures HealthOf([]) == Health(Degraded, Checks(true, true, false), [NoRecentActivity])
  {
  }

  lemma {:induction false} NoFailures(rs: seq<RequestMetric>)
    requires forall k | 0 <= k < |rs| :: rs[k].success
    ensures Failed(rs) == []
  {
    if rs != [] {
      NoFailures(rs[..|rs| - 1]);
    }
  }

  /** Recent activity that is all successful and all under 5 s is healthy. */
  lemma FastSuccessfulIsHealthy(rs: seq<RequestMetric>)
    requires rs != []
    requires forall k | 0 <= k < |rs| :: rs[k].success && rs[k].duration < 5000
    ensures HealthOf(rs).status == Healthy && HealthOf(rs).details == []
  {
    var recent := SliceFrom(rs, -(HealthWindowSize as int));
    HealthWindow(rs);
    WindowFastSuccessful(rs, recent);
    WindowHealthy(recent);
  }

  lemma WindowHealthy(recent: seq<RequestMetric>)
    requires recent != []
    requires forall k | 0 <= k < |recent| :: recent[k].success
    requires forall x | x in Durations(recent) :: x < 5000
    ensures ErrorRateOf(recent) == 0.0 && AverageTimeOf(recent) < MaxAverageTimeMs
  {
    NoFailures(recent);
    var times := Durations(recent);
    SumBelow(times, 5000);
    MeanBelow(Sum(times), |times|, 5000);
  }

  lemma WindowFastSuccessful(rs: seq<RequestMetric>, recent: seq<RequestMetric>)
    requires rs != [] && recent == Last(rs, HealthWindowSize)
    requires forall k | 0 <= k < |rs| :: rs[k].success && rs[k].duration < 5000
    ensures recent != []
    ensures forall k | 0 <= k < |recent| :: recent[k].success
    ensures forall x | x in Durations(recent) :: x < 5000
  {
    assert forall k | 0 <= k < |recent| :: recent[k] == rs[|rs| - |recent| + k];
  }

  lemma MeanBelow(total: int, n: nat, hi: int)
    requires n > 0 && total < n * hi
    ensures total as real / n as real < hi as real
  {
    var mean := total as real / n as real;
    assert mean * n as real == total as real;
    assert (n * hi) as real == n as real * hi as real;
  }

  lemma {:induction false} SumBelow(s: seq<int>, hi: int)
    requires s != []
    requires forall x | x in s :: x < hi
    ensures Sum(s) < |s| * hi
  {
    var init := s[..|s| - 1];
    assert s[|s| - 1] in s;
    if init != [] {
      assert forall x | x in init :: x in s;
      SumBelow(init, hi);
      assert |s| * hi == |init| * hi + hi;
    }
  }

  // Properties of the debugging views

  /** Only failures, newest first; `limit > 0` keeps the last `limit` of them, `limit == 0` keeps all. */
  lemma RecentErrorsAreNewestFailures(rs: seq<RequestMetric>, limit: int)
    ensures forall k | 0 <= k < |RecentErrors(rs, limit)| :: !RecentErrors(rs, limit)[k].success
    ensures limit > 0 ==> RecentErrors(rs, limit) == Reverse(Last(Failed(rs), limit))
    ensures limit > 0 ==> |RecentErrors(rs, limit)| <= limit
    ensures limit == 0 ==> RecentErrors(rs, limit) == Reverse(Failed(rs))
  {
    if limit >= 0 {
      SliceFromNegative(Failed(rs), limit);
    }
  }

  /** Non-increasing durations, min(limit, n) of them for a non-negative limit, all taken from the history. */
  lemma SlowestRequestsOrdered(rs: seq<RequestMetric>, limit: int)
    ensures var r := SlowestRequests(rs, limit);
      && (forall i, j | 0 <= i < j < |r| :: r[i].duration >= r[j].duration)
      && (limit >= 0 ==> |r| == if limit < |rs| then limit else |rs|)
      && multiset(r) <= multiset(rs)
  {
    var key := (r: RequestMetric) => -r.duration;
    var sorted := SortBy(rs, key);
    var r := SlowestRequests(rs, limit);
    assert r == sorted[..|r|];
    SortedPrefix(sorted, |r|, key);
    forall i, j | 0 <= i < j < |r|
      ensures r[i].duration >= r[j].duration
    {
      assert key(r[i]) <= key(r[j]);
    }
  }

  /** A prefix of a sorted sequence is sorted and drawn from it. */
  lemma SortedPrefix<T>(sorted: seq<T>, m: nat, key: T -> int)
    requires SortedBy(sorted, key) && m <= |sorted|
    ensures SortedBy(sorted[..m], key) && multiset(sorted[..m]) <= multiset(sorted)
  {
    assert sorted == sorted[..m] + sorted[m..];
  }

  /** The records left out by `getSlowestRequests` are no slower than those it returns. */
  lemma SlowestRequestsArePrefix(rs: seq<RequestMetric>, limit: int)
    ensures var r := SlowestRequests(rs, limit);
      forall x, y | x in multiset(rs) - multiset(r) && y in r :: x.duration <= y.duration
  {
    var key := (r: RequestMetric) => -r.duration;
    var sorted := SortBy(rs, key);
    var r := SlowestRequests(rs, limit);
    assert r == sorted[..|r|];
    PrefixComesFirst(sorted, |r|, key);
  }

  /** In a sequence sorted by key, nothing after the first m elements has a smaller key than those. */
  lemma PrefixComesFirst<T>(sorted: seq<T>, m: nat, key: T -> int)
    requires SortedBy(sorted, key) && m <= |sorted|
    ensures forall x, y | x in multiset(sorted) - multiset(sorted[..m]) && y in sorted[..m] :: key(y) <= key(x)
  {
    assert sorted == sorted[..m] + sorted[m..];
    assert multiset(sorted) - multiset(sorted[..m]) == multiset(sorted[m..]);
    forall x, y | x in multiset(sorted) - multiset(sorted[..m]) && y in sorted[..m]
      ensures key(y) <= key(x)
    {
      var j :| m <= j < |sorted| && sorted[j] == x by {
        assert x in sorted[m..];
      }
      var i :| 0 <= i < m && sorted[i] == y;
    }
  }
}
