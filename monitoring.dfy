// src/monitoring.py: per-batch metrics with derived rates, the alert
// thresholds, and the PipelineMonitor that records processing counts,
// closes a batch into its history and keeps running performance totals.
// Clock readings and the psutil resource samples are parameters; logging,
// the JSON files and the reports on disk are left out.
module Monitoring {
  import opened Wrappers

  /** What psutil reports for the process when a sample is taken. */
  datatype Usage = Usage(memoryMb: real, cpuPercent: real)

  /** BatchMetrics; times are seconds on one clock. */
  datatype BatchMetrics = BatchMetrics(
    batchId: string, pipelineName: string,
    startTime: real, endTime: Option<real>, processingTime: real,
    recordsProcessed: int, recordsSuccessful: int, recordsFailed: int, recordsSkipped: int,
    memoryUsageMb: real, cpuPercent: real,
    dataQualityScore: real, validationErrors: int, databaseErrors: int,
    tags: seq<string>)

  /** A fresh BatchMetrics: every counter and measure at zero. */
  function NewBatch(batchId: string, pipelineName: string, start: real, tags: seq<string>): (b: BatchMetrics)
    ensures b.recordsProcessed == 0 && b.endTime == None && b.tags == tags
  {
    BatchMetrics(batchId, pipelineName, start, None, 0.0, 0, 0, 0, 0, 0.0, 0.0, 0.0, 0, 0, tags)
  }

  /** `part / whole * 100`, and 0 when whole is 0. */
  function Percent(part: int, whole: int): (r: real)
    ensures whole == 0 ==> r == 0.0
    ensures whole != 0 ==> r * (whole as real) == 100.0 * (part as real)
  {
    if whole == 0 then 0.0 else (part as real) / (whole as real) * 100.0
  }

  /** A part between 0 and the whole is a percentage in [0, 100]. */
  lemma PercentBounds(part: int, whole: int)
    requires 0 <= part <= whole
    ensures 0.0 <= Percent(part, whole) <= 100.0
  {
    if whole != 0 {
      var p, s := whole as real, part as real;
      assert Percent(part, whole) * p <= 100.0 * p;
    }
  }

  /** Multiplying by a positive number is one-to-one. */
  lemma Cancel(a: real, b: real, p: real)
    requires p > 0.0 && a * p == b * p
    ensures a == b
  {
    assert (a - b) * p == 0.0;
  }

  lemma DivSub(p: real, q: real)
    requires p > 0.0
    ensures (p - q) / p == 1.0 - q / p
  {
    assert (p - q) / p * p == p - q;
    assert (1.0 - q / p) * p == p - q;
    Cancel((p - q) / p, 1.0 - q / p, p);
  }

  /** The percentages of a part and of the rest of a positive whole add up to 100. */
  lemma PercentComplement(part: int, whole: int)
    requires whole > 0
    ensures Percent(whole - part, whole) == 100.0 - Percent(part, whole)
  {
    var p, q := whole as real, part as real;
    assert (whole - part) as real == p - q;
    DivSub(p, q);
  }

  /** success_rate, a percentage; 0 when nothing was processed. */
  function SuccessRate(b: BatchMetrics): real
  {
    Percent(b.recordsSuccessful, b.recordsProcessed)
  }

  /** records_per_second, not scaled; 0 when no processing time was measured. */
  function RecordsPerSecond(b: BatchMetrics): (r: real)
    ensures b.processingTime == 0.0 ==> r == 0.0
    ensures b.processingTime != 0.0 ==> r * b.processingTime == b.recordsProcessed as real
  {
    if b.processingTime == 0.0 then 0.0 else (b.recordsProcessed as real) / b.processingTime
  }

  /** Failed records plus both kinds of error, the numerator of error_rate and of the quality score. */
  function Errors(b: BatchMetrics): int
  {
    b.recordsFailed + b.validationErrors + b.databaseErrors
  }

  /** error_rate, a percentage; 0 when nothing was processed. */
  function ErrorRate(b: BatchMetrics): real
  {
    Percent(Errors(b), b.recordsProcessed)
  }

  /** duration_seconds: the span from start to end, 0 while the batch is open. */
  function DurationSeconds(b: BatchMetrics): (r: real)
    ensures b.endTime.Some? ==> b.startTime + r == b.endTime.value
    ensures b.endTime.None? ==> r == 0.0
  {
    if b.endTime.Some? then b.endTime.value - b.startTime else 0.0
  }

  /** With no more successes than records, success_rate is a percentage in [0, 100]. */
  lemma SuccessRateBounds(b: BatchMetrics)
    requires 0 <= b.recordsSuccessful <= b.recordsProcessed
    ensures 0.0 <= SuccessRate(b) <= 100.0
  {
    PercentBounds(b.recordsSuccessful, b.recordsProcessed);
  }

  // ---------------------------------------------------------------------
  // add_tag.

  /** add_tag: append the tag unless it is already there. */
  function AddTag(tags: seq<string>, tag: string): (r: seq<string>)
    ensures tag in r && forall x :: x in r <==> x in tags || x == tag
  {
    if tag in tags then tags else tags + [tag]
  }

  predicate NoDuplicates(tags: seq<string>)
  {
    forall i, j :: 0 <= i < j < |tags| ==> tags[i] != tags[j]
  }

  /** Adding a tag twice is adding it once, and a list without duplicates keeps none. */
  lemma AddTagIdempotent(tags: seq<string>, tag: string)
    ensures AddTag(AddTag(tags, tag), tag) == AddTag(tags, tag)
    ensures NoDuplicates(tags) ==> NoDuplicates(AddTag(tags, tag))
  {
  }

  // ---------------------------------------------------------------------
  // record_processing.

  /** record_processing on an open batch. */
  function RecordProcessing(b: BatchMetrics, attempted: int, successful: int, skipped: int, validation: int, database: int): BatchMetrics
  {
    var c := b.(recordsProcessed := b.recordsProcessed + attempted,
                recordsSuccessful := b.recordsSuccessful + successful,
                recordsFailed := b.recordsFailed + (attempted - successful),
                recordsSkipped := b.recordsSkipped + skipped,
                validationErrors := b.validationErrors + validation,
                databaseErrors := b.databaseErrors + database);
    if c.recordsProcessed > 0 then
      c.(dataQualityScore := Percent(c.recordsProcessed - Errors(c), c.recordsProcessed))
    else c
  }

  /**
   * Every counter grows by its argument, with the failures growing by
   * attempted - successful; the quality score is 100 - error_rate once
   * something was processed, and is left alone otherwise.
   */
  lemma RecordProcessingSpec(b: BatchMetrics, attempted: int, successful: int, skipped: int, validation: int, database: int)
    ensures var c := RecordProcessing(b, attempted, successful, skipped, validation, database);
      c.recordsProcessed == b.recordsProcessed + attempted && c.recordsSuccessful == b.recordsSuccessful + successful
      && c.recordsFailed - b.recordsFailed == attempted - successful && c.recordsSkipped == b.recordsSkipped + skipped
      && c.validationErrors == b.validationErrors + validation && c.databaseErrors == b.databaseErrors + database
      && c.batchId == b.batchId && c.tags == b.tags && c.processingTime == b.processingTime
      && (c.recordsProcessed > 0 ==> c.dataQualityScore == 100.0 - ErrorRate(c))
      && (c.recordsProcessed <= 0 ==> c.dataQualityScore == b.dataQualityScore)
  {
    var c := RecordProcessing(b, attempted, successful, skipped, validation, database);
    if c.recordsProcessed > 0 {
      PercentComplement(Errors(c), c.recordsProcessed);
    }
  }

  /** Two recordings of non-negative counts add up to one recording of their sums. */
  lemma RecordProcessingAdds(b: BatchMetrics, a1: nat, s1: int, k1: int, v1: int, d1: int, a2: nat, s2: int, k2: int, v2: int, d2: int)
    requires b.recordsProcessed >= 0
    ensures RecordProcessing(RecordProcessing(b, a1, s1, k1, v1, d1), a2, s2, k2, v2, d2)
         == RecordProcessing(b, a1 + a2, s1 + s2, k1 + k2, v1 + v2, d1 + d2)
  {
  }

  // ---------------------------------------------------------------------
  // AlertManager.check_batch_alerts.

  /** The five alert_thresholds. */
  datatype Thresholds = Thresholds(successRateBelow: real, errorRateAbove: real, memoryUsageAbove: real,
                                   cpuUsageAbove: real, processingSpeedBelow: real)

  const DefaultThresholds := Thresholds(95.0, 5.0, 80.0, 85.0, 100.0)

  datatype AlertKind = LowSuccessRate | HighErrorRate | HighMemoryUsage | HighCpuUsage | SlowProcessingSpeed

  /** One alert text: its kind and the figure it quotes. */
  datatype Alert = Alert(kind: AlertKind, figure: real)

  /** An entry of alerts_triggered. */
  datatype AlertEntry = AlertEntry(timestamp: real, batchId: string, alert: Alert)

  /** The figures the alerts and the analysis read off a batch: its derived rates, resources and record count. */
  datatype Readings = Readings(successRate: real, errorRate: real, memoryMb: real, cpuPercent: real,
                               recordsPerSecond: real, recordsProcessed: int)

  function ReadingsOf(b: BatchMetrics): Readings
  {
    Readings(SuccessRate(b), ErrorRate(b), b.memoryUsageMb, b.cpuPercent, RecordsPerSecond(b), b.recordsProcessed)
  }

  /** The order in which check_batch_alerts tests the thresholds. */
  function KindRank(k: AlertKind): nat
  {
    match k
    case LowSuccessRate => 0
    case HighErrorRate => 1
    case HighMemoryUsage => 2
    case HighCpuUsage => 3
    case SlowProcessingSpeed => 4
  }

  /** The figure an alert of this kind quotes. */
  function Figure(m: Readings, k: AlertKind): real
  {
    match k
    case LowSuccessRate => m.successRate
    case HighErrorRate => m.errorRate
    case HighMemoryUsage => m.memoryMb
    case HighCpuUsage => m.cpuPercent
    case SlowProcessingSpeed => m.recordsPerSecond
  }

  /** Whether a threshold is crossed; the speed alert needs more than 1000 records. */
  predicate Fires(m: Readings, th: Thresholds, k: AlertKind)
  {
    match k
    case LowSuccessRate => m.successRate < th.successRateBelow
    case HighErrorRate => m.errorRate > th.errorRateAbove
    case HighMemoryUsage => m.memoryMb > th.memoryUsageAbove
    case HighCpuUsage => m.cpuPercent > th.cpuUsageAbove
    case SlowProcessingSpeed => m.recordsPerSecond < th.processingSpeedBelow && m.recordsProcessed > 1000
  }

  function AlertIf(m: Readings, th: Thresholds, k: AlertKind): seq<Alert>
  {
    if Fires(m, th, k) then [Alert(k, Figure(m, k))] else []
  }

  /** The alerts of one batch, in the order the thresholds are tested. */
  function Alerts(m: Readings, th: Thresholds): seq<Alert>
  {
    AlertIf(m, th, LowSuccessRate) + AlertIf(m, th, HighErrorRate) + AlertIf(m, th, HighMemoryUsage)
    + AlertIf(m, th, HighCpuUsage) + AlertIf(m, th, SlowProcessingSpeed)
  }

  /** How many alerts of kind k the list holds. */
  function Count(a: seq<Alert>, k: AlertKind): nat
  {
    if a == [] then 0 else Count(a[..|a| - 1], k) + (if a[|a| - 1].kind == k then 1 else 0)
  }

  /** Kinds in strictly increasing testing order. */
  predicate Ordered(a: seq<Alert>)
  {
    forall i, j :: 0 <= i < j < |a| ==> KindRank(a[i].kind) < KindRank(a[j].kind)
  }

  /** Every alert's threshold is crossed and it quotes the figure of its kind. */
  predicate Quoted(m: Readings, th: Thresholds, a: seq<Alert>)
  {
    forall i :: 0 <= i < |a| ==> Fires(m, th, a[i].kind) && a[i].figure == Figure(m, a[i].kind)
  }

  predicate Below(a: seq<Alert>, n: nat)
  {
    forall i :: 0 <= i < |a| ==> KindRank(a[i].kind) < n
  }

  /** One more threshold test, of a kind ranked after every alert so far. */
  lemma AlertStep(m: Readings, th: Thresholds, a: seq<Alert>, k: AlertKind)
    requires Ordered(a) && Quoted(m, th, a) && Below(a, KindRank(k))
    ensures var b := a + AlertIf(m, th, k);
      Ordered(b) && Quoted(m, th, b) && Below(b, KindRank(k) + 1)
  {
    var b := a + AlertIf(m, th, k);
    if Fires(m, th, k) {
      assert b[..|a|] == a;
    } else {
      assert b == a;
    }
  }

  /** One more threshold test adds one alert of kind k when it fires, and none of any other kind. */
  lemma CountStep(m: Readings, th: Thresholds, a: seq<Alert>, k: AlertKind, j: AlertKind)
    ensures Count(a + AlertIf(m, th, k), j) == Count(a, j) + (if j == k && Fires(m, th, k) then 1 else 0)
  {
    if Fires(m, th, k) {
      assert (a + AlertIf(m, th, k))[..|a|] == a;
    } else {
      assert a + AlertIf(m, th, k) == a;
    }
  }

  /** One alert per crossed threshold and none for the others, each quoting its figure, in testing order. */
  lemma AlertsSpec(m: Readings, th: Thresholds)
    ensures forall k :: Count(Alerts(m, th), k) == (if Fires(m, th, k) then 1 else 0)
    ensures Quoted(m, th, Alerts(m, th)) && Ordered(Alerts(m, th))
  {
    AlertsShape(m, th);
    forall k
      ensures Count(Alerts(m, th), k) == (if Fires(m, th, k) then 1 else 0)
    {
      AlertCount(m, th, k);
    }
  }

  /** The shape half of AlertsSpec. */
  lemma AlertsShape(m: Readings, th: Thresholds)
    ensures Quoted(m, th, Alerts(m, th)) && Ordered(Alerts(m, th))
  {
    var a0: seq<Alert> := [];
    AlertStep(m, th, a0, LowSuccessRate);
    var a1 := a0 + AlertIf(m, th, LowSuccessRate);
    AlertStep(m, th, a1, HighErrorRate);
    var a2 := a1 + AlertIf(m, th, HighErrorRate);
    AlertStep(m, th, a2, HighMemoryUsage);
    var a3 := a2 + AlertIf(m, th, HighMemoryUsage);
    AlertStep(m, th, a3, HighCpuUsage);
    var a4 := a3 + AlertIf(m, th, HighCpuUsage);
    AlertStep(m, th, a4, SlowProcessingSpeed);
    assert a0 + AlertIf(m, th, LowSuccessRate) == AlertIf(m, th, LowSuccessRate);
    assert a4 + AlertIf(m, th, SlowProcessingSpeed) == Alerts(m, th);
  }

  /** The count half of AlertsSpec, for one kind. */
  lemma AlertCount(m: Readings, th: Thresholds, k: AlertKind)
    ensures Count(Alerts(m, th), k) == (if Fires(m, th, k) then 1 else 0)
  {
    var a0: seq<Alert> := [];
    var a1 := a0 + AlertIf(m, th, LowSuccessRate);
    var a2 := a1 + AlertIf(m, th, HighErrorRate);
    var a3 := a2 + AlertIf(m, th, HighMemoryUsage);
    var a4 := a3 + AlertIf(m, th, HighCpuUsage);
    var a5 := a4 + AlertIf(m, th, SlowProcessingSpeed);
    assert a0 + AlertIf(m, th, LowSuccessRate) == AlertIf(m, th, LowSuccessRate);
    assert a5 == Alerts(m, th);
    CountStep(m, th, a0, LowSuccessRate, k);
    CountStep(m, th, a1, HighErrorRate, k);
    CountStep(m, th, a2, HighMemoryUsage, k);
    CountStep(m, th, a3, HighCpuUsage, k);
    CountStep(m, th, a4, SlowProcessingSpeed, k);
    assert Count(a0, k) == 0;
  }

  /** What is appended to alerts_triggered for a batch's alerts. */
  function Entries(now: real, batchId: string, alerts: seq<Alert>): (r: seq<AlertEntry>)
    ensures |r| == |alerts| && forall i :: 0 <= i < |r| ==> r[i] == AlertEntry(now, batchId, alerts[i])
  {
    seq(|alerts|, i requires 0 <= i < |alerts| => AlertEntry(now, batchId, alerts[i]))
  }

  class AlertManager {
    const thresholds: Thresholds
    var alertsTriggered: seq<AlertEntry>

    /** `alert_thresholds or {...}`: the defaults unless thresholds are given. */
    constructor (custom: Option<Thresholds>)
      ensures thresholds == (if custom.Some? then custom.value else DefaultThresholds)
      ensures alertsTriggered == []
    {
      thresholds := if custom.Some? then custom.value else DefaultThresholds;
      alertsTriggered := [];
    }

    /** check_batch_alerts: the batch's alerts, each recorded once, in order, at the end of alerts_triggered. */
    method CheckBatchAlerts(m: BatchMetrics, now: real) returns (alerts: seq<Alert>)
      modifies this
      ensures alerts == Alerts(ReadingsOf(m), thresholds)
      ensures alertsTriggered == old(alertsTriggered) + Entries(now, m.batchId, alerts)
    {
      alerts := Alerts(ReadingsOf(m), thresholds);
      RecordAlerts(now, m.batchId, alerts);
    }

    /** The loop of check_batch_alerts that appends one entry per alert. */
    method RecordAlerts(now: real, batchId: string, alerts: seq<Alert>)
      modifies this
      ensures alertsTriggered == old(alertsTriggered) + Entries(now, batchId, alerts)
    {
      var i := 0;
      while i < |alerts|
        invariant 0 <= i <= |alerts|
        invariant alertsTriggered == old(alertsTriggered) + Entries(now, batchId, alerts[..i])
      {
        assert Entries(now, batchId, alerts[..i + 1]) == Entries(now, batchId, alerts[..i]) + [AlertEntry(now, batchId, alerts[i])];
        alertsTriggered := alertsTriggered + [AlertEntry(now, batchId, alerts[i])];
        i := i + 1;
      }
      assert alerts[..i] == alerts;
    }
  }

  // ---------------------------------------------------------------------
  // _analyze_batch_performance and _generate_recommendations.

  datatype Rating = Excellent | Good | Fair | Poor

  /** The performance_rating for a success rate. */
  function RatingOf(rate: real): Rating
  {
    if rate >= 99.0 then Excellent else if rate >= 95.0 then Good else if rate >= 90.0 then Fair else Poor
  }

  function RatingRank(r: Rating): nat
  {
    match r
    case Poor => 0
    case Fair => 1
    case Good => 2
    case Excellent => 3
  }

  /** A higher success rate never earns a lower rating, and each band is where the thresholds put it. */
  lemma RatingMonotone(lo: real, hi: real)
    requires lo <= hi
    ensures RatingRank(RatingOf(lo)) <= RatingRank(RatingOf(hi))
    ensures RatingOf(hi) == Excellent <==> hi >= 99.0
    ensures RatingOf(lo) == Poor <==> lo < 90.0
  {
  }

  datatype Bottleneck = LowProcessingSpeed | HighMemory | HighCpu | HighErrors
  datatype Strength = ExcellentSuccessRate | HighProcessingSpeed | EfficientMemoryUsage

  datatype Analysis = Analysis(rating: Rating, bottlenecks: seq<Bottleneck>, strengths: seq<Strength>)

  function When<T>(c: bool, x: T): seq<T>
  {
    if c then [x] else []
  }

  /** Membership in up to four conditional entries. */
  lemma InWhens<T>(x: T, c1: bool, y1: T, c2: bool, y2: T, c3: bool, y3: T, c4: bool, y4: T)
    ensures x in When(c1, y1) + When(c2, y2) + When(c3, y3) + When(c4, y4)
      <==> (c1 && x == y1) || (c2 && x == y2) || (c3 && x == y3) || (c4 && x == y4)
    ensures |When(c1, y1) + When(c2, y2) + When(c3, y3) + When(c4, y4)| <= 4
  {
    assert x in When(c1, y1) <==> c1 && x == y1;
    assert x in When(c2, y2) <==> c2 && x == y2;
    assert x in When(c3, y3) <==> c3 && x == y3;
    assert x in When(c4, y4) <==> c4 && x == y4;
  }

  function Bottlenecks(b: Readings): seq<Bottleneck>
  {
    When(b.recordsPerSecond < 100.0, LowProcessingSpeed) + When(b.memoryMb > 500.0, HighMemory)
    + When(b.cpuPercent > 80.0, HighCpu) + When(b.errorRate > 5.0, HighErrors)
  }

  function Strengths(b: Readings): seq<Strength>
  {
    When(b.successRate > 99.0, ExcellentSuccessRate) + When(b.recordsPerSecond > 1000.0, HighProcessingSpeed)
    + When(b.memoryMb < 100.0, EfficientMemoryUsage)
  }

  /** The analysis of one batch's readings. */
  function AnalysisOf(b: Readings): Analysis
  {
    Analysis(RatingOf(b.successRate), Bottlenecks(b), Strengths(b))
  }

  /** _analyze_batch_performance; {} without a current batch. */
  function AnalyzeBatchPerformance(current: Option<BatchMetrics>): Option<Analysis>
  {
    if current.Some? then Some(AnalysisOf(ReadingsOf(current.value))) else None
  }

  /** Each bottleneck is listed exactly when its bound is crossed. */
  lemma BottlenecksSpec(b: Readings)
    ensures LowProcessingSpeed in Bottlenecks(b) <==> b.recordsPerSecond < 100.0
    ensures HighMemory in Bottlenecks(b) <==> b.memoryMb > 500.0
    ensures HighCpu in Bottlenecks(b) <==> b.cpuPercent > 80.0
    ensures HighErrors in Bottlenecks(b) <==> b.errorRate > 5.0
    ensures |Bottlenecks(b)| <= 4
  {
    var c1, c2, c3, c4 := b.recordsPerSecond < 100.0, b.memoryMb > 500.0, b.cpuPercent > 80.0, b.errorRate > 5.0;
    InWhens(LowProcessingSpeed, c1, LowProcessingSpeed, c2, HighMemory, c3, HighCpu, c4, HighErrors);
    InWhens(HighMemory, c1, LowProcessingSpeed, c2, HighMemory, c3, HighCpu, c4, HighErrors);
    InWhens(HighCpu, c1, LowProcessingSpeed, c2, HighMemory, c3, HighCpu, c4, HighErrors);
    InWhens(HighErrors, c1, LowProcessingSpeed, c2, HighMemory, c3, HighCpu, c4, HighErrors);
  }

  /**
   * Each strength is listed exactly when its bound is crossed; an
   * excellent success rate as a strength comes with the EXCELLENT rating,
   * and the speed is never both a bottleneck and a strength.
   */
  lemma StrengthsSpec(b: Readings)
    ensures ExcellentSuccessRate in Strengths(b) <==> b.successRate > 99.0
    ensures HighProcessingSpeed in Strengths(b) <==> b.recordsPerSecond > 1000.0
    ensures EfficientMemoryUsage in Strengths(b) <==> b.memoryMb < 100.0
    ensures ExcellentSuccessRate in Strengths(b) ==> RatingOf(b.successRate) == Excellent
    ensures !(LowProcessingSpeed in Bottlenecks(b) && HighProcessingSpeed in Strengths(b))
  {
    var c1, c2, c3 := b.successRate > 99.0, b.recordsPerSecond > 1000.0, b.memoryMb < 100.0;
    InWhens(ExcellentSuccessRate, c1, ExcellentSuccessRate, c2, HighProcessingSpeed, c3, EfficientMemoryUsage, false, EfficientMemoryUsage);
    assert Strengths(b) + When(false, EfficientMemoryUsage) == Strengths(b);
    InWhens(HighProcessingSpeed, c1, ExcellentSuccessRate, c2, HighProcessingSpeed, c3, EfficientMemoryUsage, false, EfficientMemoryUsage);
    InWhens(EfficientMemoryUsage, c1, ExcellentSuccessRate, c2, HighProcessingSpeed, c3, EfficientMemoryUsage, false, EfficientMemoryUsage);
    BottlenecksSpec(b);
  }

  datatype Recommendation = InvestigateFailures | OptimizeQueries | OptimizeMemory | ReviewValidation

  /** The recommendations for one batch's readings. */
  function RecommendationsOf(b: Readings): seq<Recommendation>
  {
    When(b.successRate < 95.0, InvestigateFailures) + When(b.recordsPerSecond < 100.0, OptimizeQueries)
    + When(b.memoryMb > 500.0, OptimizeMemory) + When(b.errorRate > 5.0, ReviewValidation)
  }

  /** _generate_recommendations; [] without a current batch. */
  function Recommendations(current: Option<BatchMetrics>): seq<Recommendation>
  {
    if current.Some? then RecommendationsOf(ReadingsOf(current.value)) else []
  }

  /**
   * A batch rated FAIR or POOR, and only such a batch, is told to
   * investigate its failures; the speed, memory and error advice come
   * exactly with the matching bottleneck.
   */
  lemma RecommendationsFollowAnalysis(b: Readings)
    ensures RatingOf(b.successRate) in {Fair, Poor} <==> InvestigateFailures in RecommendationsOf(b)
    ensures OptimizeQueries in RecommendationsOf(b) <==> LowProcessingSpeed in Bottlenecks(b)
    ensures OptimizeMemory in RecommendationsOf(b) <==> HighMemory in Bottlenecks(b)
    ensures ReviewValidation in RecommendationsOf(b) <==> HighErrors in Bottlenecks(b)
  {
    var c1, c2, c3, c4 := b.successRate < 95.0, b.recordsPerSecond < 100.0, b.memoryMb > 500.0, b.errorRate > 5.0;
    InWhens(InvestigateFailures, c1, InvestigateFailures, c2, OptimizeQueries, c3, OptimizeMemory, c4, ReviewValidation);
    InWhens(OptimizeQueries, c1, InvestigateFailures, c2, OptimizeQueries, c3, OptimizeMemory, c4, ReviewValidation);
    InWhens(OptimizeMemory, c1, InvestigateFailures, c2, OptimizeQueries, c3, OptimizeMemory, c4, ReviewValidation);
    InWhens(ReviewValidation, c1, InvestigateFailures, c2, OptimizeQueries, c3, OptimizeMemory, c4, ReviewValidation);
    BottlenecksSpec(b);
  }

  // ---------------------------------------------------------------------
  // Totals over the history.

  function Processed(b: BatchMetrics): int { b.recordsProcessed }
  function Successful(b: BatchMetrics): int { b.recordsSuccessful }
  function Time(b: BatchMetrics): real { b.processingTime }
  function Memory(b: BatchMetrics): real { b.memoryUsageMb }
  function Cpu(b: BatchMetrics): real { b.cpuPercent }
  function Rate(b: BatchMetrics): real { SuccessRate(b) }

  /** `sum(f(b) for b in h)` over integers. */
  function Total(h: seq<BatchMetrics>, f: BatchMetrics -> int): int
  {
    if h == [] then 0 else Total(h[..|h| - 1], f) + f(h[|h| - 1])
  }

  /** `sum(f(b) for b in h)` over floats. */
  function TotalReal(h: seq<BatchMetrics>, f: BatchMetrics -> real): real
  {
    if h == [] then 0.0 else TotalReal(h[..|h| - 1], f) + f(h[|h| - 1])
  }

  /** The running maximum the peak statistics keep, starting from 0.0. */
  function Peak(h: seq<BatchMetrics>, f: BatchMetrics -> real): real
  {
    if h == [] then 0.0
    else var p := Peak(h[..|h| - 1], f); if f(h[|h| - 1]) > p then f(h[|h| - 1]) else p
  }

  /** The peak is the largest value seen, or 0.0 when none was larger. */
  lemma {:induction false} PeakIsMaximum(h: seq<BatchMetrics>, f: BatchMetrics -> real)
    ensures Peak(h, f) >= 0.0 && forall i :: 0 <= i < |h| ==> f(h[i]) <= Peak(h, f)
    ensures Peak(h, f) == 0.0 || exists i :: 0 <= i < |h| && f(h[i]) == Peak(h, f)
  {
    if h != [] {
      var init := h[..|h| - 1];
      PeakIsMaximum(init, f);
      assert forall i :: 0 <= i < |init| ==> h[i] == init[i];
      if Peak(init, f) != 0.0 && f(h[|h| - 1]) <= Peak(init, f) {
        var i :| 0 <= i < |init| && f(init[i]) == Peak(init, f);
        assert f(h[i]) == Peak(h, f);
      }
    }
  }

  /** Bounds on every term bound the sum. */
  lemma {:induction false} TotalBounds(h: seq<BatchMetrics>, f: BatchMetrics -> int, g: BatchMetrics -> int)
    requires forall i :: 0 <= i < |h| ==> 0 <= f(h[i]) <= g(h[i])
    ensures 0 <= Total(h, f) <= Total(h, g)
  {
    if h != [] {
      assert forall i :: 0 <= i < |h| - 1 ==> h[..|h| - 1][i] == h[i];
      TotalBounds(h[..|h| - 1], f, g);
    }
  }

  /** Bounds on every term bound the sum. */
  lemma {:induction false} TotalRealBounds(h: seq<BatchMetrics>, f: BatchMetrics -> real, lo: real, hi: real)
    requires forall i :: 0 <= i < |h| ==> lo <= f(h[i]) <= hi
    ensures lo * (|h| as real) <= TotalReal(h, f) <= hi * (|h| as real)
  {
    if h != [] {
      assert forall i :: 0 <= i < |h| - 1 ==> h[..|h| - 1][i] == h[i];
      TotalRealBounds(h[..|h| - 1], f, lo, hi);
    }
  }

  // ---------------------------------------------------------------------
  // get_overall_stats.

  datatype Trend = Improving | Stable

  datatype OverallStats = OverallStats(
    totalBatchesProcessed: nat, totalRecordsProcessed: int, totalSuccessfulRecords: int, totalFailedRecords: int,
    overallSuccessRate: real, recentSuccessRate: real, averageProcessingSpeed: real, totalProcessingTime: real,
    averageMemoryUsageMb: real, averageCpuPercent: real, performanceTrend: Trend)

  /** The last ten batches, or all of them when there are fewer. */
  function Recent(h: seq<BatchMetrics>): (r: seq<BatchMetrics>)
    ensures |r| == (if |h| >= 10 then 10 else |h|) && r == h[|h| - |r|..]
  {
    if |h| >= 10 then h[|h| - 10..] else h
  }

  /** `sum(f(b) for b in h) / len(h)`. */
  function Mean(h: seq<BatchMetrics>, f: BatchMetrics -> real): real
    requires h != []
  {
    TotalReal(h, f) / (|h| as real)
  }

  /** average_processing_speed: records over seconds, 0 without measured time. */
  function Speed(records: int, time: real): (r: real)
    ensures time > 0.0 ==> r * time == records as real
    ensures time <= 0.0 ==> r == 0.0
  {
    if time > 0.0 then (records as real) / time else 0.0
  }

  /** get_overall_stats; {} for an empty history. */
  function OverallStatsOf(h: seq<BatchMetrics>): Option<OverallStats>
  {
    if h == [] then None
    else
      var records, successful, time := Total(h, Processed), Total(h, Successful), TotalReal(h, Time);
      var recent := Recent(h);
      Some(OverallStats(|h|, records, successful, records - successful,
        if records > 0 then Percent(successful, records) else 0.0,
        Mean(recent, Rate), Speed(records, time), time, Mean(h, Memory), Mean(h, Cpu),
        if |recent| > 1 && SuccessRate(recent[|recent| - 1]) > SuccessRate(recent[0]) then Improving else Stable))
  }

  /** Bounds on every term bound the mean. */
  lemma MeanBounds(h: seq<BatchMetrics>, f: BatchMetrics -> real, lo: real, hi: real)
    requires h != [] && forall i :: 0 <= i < |h| ==> lo <= f(h[i]) <= hi
    ensures lo <= Mean(h, f) <= hi
  {
    TotalRealBounds(h, f, lo, hi);
    var n := |h| as real;
    var m := Mean(h, f);
    assert m * n == TotalReal(h, f);
    ScaleBack(lo, m, n);
    ScaleBack(m, hi, n);
  }

  /** Dividing both sides by a positive factor keeps an inequality. */
  lemma ScaleBack(x: real, y: real, n: real)
    requires n > 0.0 && x * n <= y * n
    ensures x <= y
  {
  }

  /**
   * With every batch's successes between 0 and its record count, the
   * failed total is what remains of the records, and both success rates
   * are percentages in [0, 100].
   */
  lemma OverallStatsBounds(h: seq<BatchMetrics>)
    requires h != []
    requires forall i :: 0 <= i < |h| ==> 0 <= h[i].recordsSuccessful <= h[i].recordsProcessed
    ensures var s := OverallStatsOf(h).value;
      s.totalBatchesProcessed == |h| && s.totalFailedRecords == s.totalRecordsProcessed - s.totalSuccessfulRecords
      && 0 <= s.totalFailedRecords && 0 <= s.totalSuccessfulRecords
      && 0.0 <= s.overallSuccessRate <= 100.0 && 0.0 <= s.recentSuccessRate <= 100.0
  {
    TotalBounds(h, Successful, Processed);
    PercentBounds(Total(h, Successful), Total(h, Processed));
    RecentRateBounds(h);
  }

  lemma RecentRateBounds(h: seq<BatchMetrics>)
    requires h != []
    requires forall i :: 0 <= i < |h| ==> 0 <= h[i].recordsSuccessful <= h[i].recordsProcessed
    ensures 0.0 <= Mean(Recent(h), Rate) <= 100.0
  {
    var recent := Recent(h);
    forall i | 0 <= i < |recent|
      ensures 0.0 <= Rate(recent[i]) <= 100.0
    {
      assert recent[i] == h[|h| - |recent| + i];
      SuccessRateBounds(recent[i]);
    }
    MeanBounds(recent, Rate, 0.0, 100.0);
  }

  // ---------------------------------------------------------------------
  // PipelineMonitor.

  /** performance_stats. */
  datatype PerformanceStats = PerformanceStats(totalBatches: int, totalRecordsProcessed: int, totalProcessingTime: real,
                                               peakMemoryUsage: real, peakCpuUsage: real)

  /** _update_performance_stats for a closed batch. */
  function UpdatePerformanceStats(s: PerformanceStats, b: BatchMetrics): (r: PerformanceStats)
    ensures r.totalBatches == s.totalBatches + 1 && r.totalRecordsProcessed == s.totalRecordsProcessed + b.recordsProcessed
    ensures r.totalProcessingTime == s.totalProcessingTime + b.processingTime
    ensures r.peakMemoryUsage >= s.peakMemoryUsage && r.peakMemoryUsage >= b.memoryUsageMb
    ensures r.peakMemoryUsage == s.peakMemoryUsage || r.peakMemoryUsage == b.memoryUsageMb
    ensures r.peakCpuUsage >= s.peakCpuUsage && r.peakCpuUsage >= b.cpuPercent
    ensures r.peakCpuUsage == s.peakCpuUsage || r.peakCpuUsage == b.cpuPercent
  {
    PerformanceStats(s.totalBatches + 1, s.totalRecordsProcessed + b.recordsProcessed,
      s.totalProcessingTime + b.processingTime,
      if b.memoryUsageMb > s.peakMemoryUsage then b.memoryUsageMb else s.peakMemoryUsage,
      if b.cpuPercent > s.peakCpuUsage then b.cpuPercent else s.peakCpuUsage)
  }

  /** The statistics performance_stats holds for a history of closed batches: one update per batch, from zero. */
  function StatsOf(h: seq<BatchMetrics>): PerformanceStats
  {
    if h == [] then PerformanceStats(0, 0, 0.0, 0.0, 0.0)
    else UpdatePerformanceStats(StatsOf(h[..|h| - 1]), h[|h| - 1])
  }

  /** The running statistics are the batch count, the totals and the peaks of the history. */
  lemma {:induction false} StatsOfTotals(h: seq<BatchMetrics>)
    ensures StatsOf(h) == PerformanceStats(|h|, Total(h, Processed), TotalReal(h, Time), Peak(h, Memory), Peak(h, Cpu))
  {
    if h != [] {
      StatsOfTotals(h[..|h| - 1]);
    }
  }

  /** A resource sample lands on the open batch. */
  function Captured(b: BatchMetrics, sample: Option<Usage>): BatchMetrics
  {
    if sample.Some? then b.(memoryUsageMb := sample.value.memoryMb, cpuPercent := sample.value.cpuPercent) else b
  }

  /** The batch end_batch closes at time `now`: end time, processing time and the last resource sample set. */
  function Closed(b: BatchMetrics, now: real, sample: Option<Usage>): (c: BatchMetrics)
    ensures c.endTime == Some(now) && c.processingTime == DurationSeconds(c) && c.processingTime == now - b.startTime
    ensures c.recordsProcessed == b.recordsProcessed && c.recordsSuccessful == b.recordsSuccessful && c.batchId == b.batchId
  {
    var e := b.(endTime := Some(now));
    Captured(e.(processingTime := DurationSeconds(e)), sample)
  }

  class PipelineMonitor {
    const pipelineName: string
    const alertManager: AlertManager
    var metricsHistory: seq<BatchMetrics>
    var currentBatch: Option<BatchMetrics>
    var performanceStats: PerformanceStats

    /** performance_stats always summarises metrics_history. */
    ghost predicate Valid()
      reads this
    {
      performanceStats == StatsOf(metricsHistory)
    }

    constructor (pipelineName: string)
      ensures Valid() && fresh(alertManager)
      ensures this.pipelineName == pipelineName && alertManager.thresholds == DefaultThresholds && alertManager.alertsTriggered == []
      ensures metricsHistory == [] && currentBatch == None
    {
      this.pipelineName := pipelineName;
      alertManager := new AlertManager(None);
      metricsHistory := [];
      currentBatch := None;
      performanceStats := PerformanceStats(0, 0, 0.0, 0.0, 0.0);
    }

    /** start_batch: a fresh batch (replacing any open one) with the first resource sample. */
    method StartBatch(batchId: string, tags: seq<string>, now: real, sample: Option<Usage>)
      modifies this
      ensures currentBatch == Some(Captured(NewBatch(batchId, pipelineName, now, tags), sample))
      ensures metricsHistory == old(metricsHistory) && performanceStats == old(performanceStats)
    {
      currentBatch := Some(Captured(NewBatch(batchId, pipelineName, now, tags), sample));
    }

    /** record_processing: nothing without an open batch. */
    method RecordProcessingResults(attempted: int, successful: int, skipped: int, validation: int, database: int)
      modifies this
      ensures currentBatch == if old(currentBatch).None? then None
        else Some(RecordProcessing(old(currentBatch).value, attempted, successful, skipped, validation, database))
      ensures metricsHistory == old(metricsHistory) && performanceStats == old(performanceStats)
    {
      if currentBatch.Some? {
        currentBatch := Some(RecordProcessing(currentBatch.value, attempted, successful, skipped, validation, database));
      }
    }

    /** _update_performance_stats: the next batch's totals and peaks. */
    method UpdateStats()
      modifies this
      ensures performanceStats == if currentBatch.None? then old(performanceStats) else UpdatePerformanceStats(old(performanceStats), currentBatch.value)
      ensures metricsHistory == old(metricsHistory) && currentBatch == old(currentBatch)
    {
      if currentBatch.Some? {
        var b := currentBatch.value;
        var s := performanceStats;
        var peakMemory := s.peakMemoryUsage;
        if b.memoryUsageMb > peakMemory {
          peakMemory := b.memoryUsageMb;
        }
        var peakCpu := s.peakCpuUsage;
        if b.cpuPercent > peakCpu {
          peakCpu := b.cpuPercent;
        }
        performanceStats := PerformanceStats(s.totalBatches + 1, s.totalRecordsProcessed + b.recordsProcessed,
                                             s.totalProcessingTime + b.processingTime, peakMemory, peakCpu);
      }
    }

    /**
     * end_batch: without an open batch nothing changes; otherwise the batch
     * is closed, its alerts recorded, it joins the history and the totals,
     * and current_batch is cleared.
     */
    method EndBatch(now: real, sample: Option<Usage>) returns (alerts: seq<Alert>)
      requires Valid()
      modifies this, alertManager
      ensures Valid() && currentBatch == None
      ensures old(currentBatch).None? ==>
        metricsHistory == old(metricsHistory) && alerts == [] && alertManager.alertsTriggered == old(alertManager.alertsTriggered)
      ensures old(currentBatch).Some? ==>
        var closed := Closed(old(currentBatch).value, now, sample);
        metricsHistory == old(metricsHistory) + [closed] && alerts == Alerts(ReadingsOf(closed), alertManager.thresholds)
        && alertManager.alertsTriggered == old(alertManager.alertsTriggered) + Entries(now, closed.batchId, alerts)
    {
      if currentBatch.None? {
        return [];
      }
      var closed := Closed(currentBatch.value, now, sample);
      currentBatch := Some(closed);
      alerts := alertManager.CheckBatchAlerts(closed, now);
      ghost var h := metricsHistory;
      metricsHistory := metricsHistory + [closed];
      UpdateStats();
      assert metricsHistory[..|metricsHistory| - 1] == h;
      currentBatch := None;
    }

    /** get_overall_stats. */
    function OverallStats(): Option<OverallStats>
      reads this
    {
      OverallStatsOf(metricsHistory)
    }
  }

  /** The overall statistics agree with performance_stats on batch and record counts, and a peak bounds every batch. */
  lemma OverallAgreesWithPerformance(h: seq<BatchMetrics>)
    requires h != []
    ensures OverallStatsOf(h).value.totalBatchesProcessed == StatsOf(h).totalBatches
    ensures OverallStatsOf(h).value.totalRecordsProcessed == StatsOf(h).totalRecordsProcessed
    ensures OverallStatsOf(h).value.totalProcessingTime == StatsOf(h).totalProcessingTime
    ensures forall i :: 0 <= i < |h| ==> h[i].memoryUsageMb <= StatsOf(h).peakMemoryUsage && h[i].cpuPercent <= StatsOf(h).peakCpuUsage
  {
    StatsOfTotals(h);
    PeakIsMaximum(h, Memory);
    PeakIsMaximum(h, Cpu);
  }

  /** The module's own run: 1000 attempted, 950 successful, 30 validation and 10 database errors. */
  lemma ExampleRun(b: BatchMetrics)
    requires b.recordsProcessed == 0 && b.recordsSuccessful == 0 && b.recordsFailed == 0
    requires b.validationErrors == 0 && b.databaseErrors == 0
    ensures var c := RecordProcessing(b, 1000, 950, 10, 30, 10);
      c.recordsFailed == 50 && SuccessRate(c) == 95.0 && ErrorRate(c) == 9.0 && c.dataQualityScore == 91.0
      && RatingOf(SuccessRate(c)) == Good
      && Fires(ReadingsOf(c), DefaultThresholds, HighErrorRate) && !Fires(ReadingsOf(c), DefaultThresholds, LowSuccessRate)
      && !Fires(ReadingsOf(c), DefaultThresholds, SlowProcessingSpeed)
  {
    var c := RecordProcessing(b, 1000, 950, 10, 30, 10);
    RecordProcessingSpec(b, 1000, 950, 10, 30, 10);
    assert Errors(c) == 90;
  }
}
