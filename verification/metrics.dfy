/**
 * Validation metrics (semgrepai/metrics.py): a counters record with derived
 * rates and averages, and the collector that updates it as findings and
 * cache lookups are recorded.
 *
 * The clock is an argument (`now`); the resource-monitor thread is modelled
 * as one sampling step, and writing the session file is not modelled.
 */
module Metrics {
  import opened Common
  import Validator

  /** `sum(xs)`. */
  function Sum(xs: seq<real>): real {
    if xs == [] then 0.0 else Sum(xs[..|xs| - 1]) + xs[|xs| - 1]
  }

  /** The average of a list, 0 for an empty one (`average_time_per_finding`, `average_memory_usage`, `average_cpu_usage`). */
  function Mean(xs: seq<real>): (m: real)
    ensures xs == [] ==> m == 0.0
    ensures xs != [] ==> m * |xs| as real == Sum(xs)
  {
    if xs == [] then 0.0 else Sum(xs) / |xs| as real
  }

  lemma {:induction false} SumBounds(xs: seq<real>, lo: real, hi: real)
    requires forall i :: 0 <= i < |xs| ==> lo <= xs[i] <= hi
    ensures |xs| as real * lo <= Sum(xs) <= |xs| as real * hi
  {
    if xs != [] {
      SumBounds(xs[..|xs| - 1], lo, hi);
    }
  }

  /** The mean of values that all lie in `[lo, hi]` lies there too. */
  lemma MeanBounds(xs: seq<real>, lo: real, hi: real)
    requires xs != [] && forall i :: 0 <= i < |xs| ==> lo <= xs[i] <= hi
    ensures lo <= Mean(xs) <= hi
  {
    SumBounds(xs, lo, hi);
    var n := |xs| as real;
    var m := Mean(xs);
    assert m * n == Sum(xs);
  }

  /**
   * `part / (part + other) * 100`, and 0 when both are 0 (`cache_hit_rate`
   * with hits and misses, `true_positive_rate` with true and false positives).
   */
  function Rate(part: nat, other: nat): (r: real)
    ensures part + other == 0 ==> r == 0.0
    ensures part + other > 0 ==> r * (part + other) as real == part as real * 100.0
    ensures 0.0 <= r <= 100.0
    ensures other == 0 && part > 0 ==> r == 100.0
  {
    if part + other == 0 then 0.0 else (part as real / (part + other) as real) * 100.0
  }

  /** The keys of `to_dict`. */
  const MetricKeys: set<string> := {
    "total_findings", "processed_findings", "cache_hits", "cache_misses", "true_positives",
    "false_positives", "errors", "total_time", "average_time_per_finding", "cache_hit_rate",
    "true_positive_rate", "average_memory_usage", "average_cpu_usage"}

  class ValidationMetrics {
    var totalFindings: nat
    var processedFindings: nat
    var cacheHits: nat
    var cacheMisses: nat
    var truePositives: nat
    var falsePositives: nat
    var errors: nat
    var startTime: real
    var endTime: Option<real>
    var processingTimes: seq<real>
    var memoryUsage: seq<real>
    var cpuUsage: seq<real>

    /** A fresh record: every counter 0, started at `now`, not ended, no samples. */
    constructor(now: real)
      ensures totalFindings == 0 && processedFindings == 0 && cacheHits == 0 && cacheMisses == 0
      ensures truePositives == 0 && falsePositives == 0 && errors == 0
      ensures startTime == now && endTime == None
      ensures processingTimes == [] && memoryUsage == [] && cpuUsage == []
      ensures Balanced()
    {
      totalFindings := 0;
      processedFindings := 0;
      cacheHits := 0;
      cacheMisses := 0;
      truePositives := 0;
      falsePositives := 0;
      errors := 0;
      startTime := now;
      endTime := None;
      processingTimes := [];
      memoryUsage := [];
      cpuUsage := [];
    }

    /** Every processed finding was counted once as a true positive, a false positive or an error, and timed once. */
    ghost predicate Balanced()
      reads this
    {
      processedFindings == truePositives + falsePositives + errors && |processingTimes| == processedFindings
    }

    /** `total_time`: up to the end time once it is set (and non-zero), up to `now` before. */
    function TotalTime(now: real): (t: real)
      reads this
      ensures endTime.Some? && endTime.value != 0.0 ==> t == endTime.value - startTime
      ensures endTime.None? ==> t == now - startTime
    {
      if endTime.Some? && endTime.value != 0.0 then endTime.value - startTime else now - startTime
    }

    function AverageTimePerFinding(): real
      reads this
    {
      Mean(processingTimes)
    }

    function CacheHitRate(): real
      reads this
    {
      Rate(cacheHits, cacheMisses)
    }

    function TruePositiveRate(): real
      reads this
    {
      Rate(truePositives, falsePositives)
    }

    /** `to_dict`: the thirteen named metrics. */
    function ToDict(now: real): (d: Dict)
      reads this
      ensures d.Keys == MetricKeys
      ensures d["processed_findings"] == VInt(processedFindings)
      ensures d["cache_hit_rate"] == VReal(CacheHitRate()) && d["true_positive_rate"] == VReal(TruePositiveRate())
    {
      map[
        "total_findings" := VInt(totalFindings),
        "processed_findings" := VInt(processedFindings),
        "cache_hits" := VInt(cacheHits),
        "cache_misses" := VInt(cacheMisses),
        "true_positives" := VInt(truePositives),
        "false_positives" := VInt(falsePositives),
        "errors" := VInt(errors),
        "total_time" := VReal(TotalTime(now)),
        "average_time_per_finding" := VReal(AverageTimePerFinding()),
        "cache_hit_rate" := VReal(CacheHitRate()),
        "true_positive_rate" := VReal(TruePositiveRate()),
        "average_memory_usage" := VReal(Mean(memoryUsage)),
        "average_cpu_usage" := VReal(Mean(cpuUsage))]
    }
  }

  /** How `record_finding` classifies a finding. */
  datatype Verdict = TruePositive | FalsePositive | NoValidation | NotADict

  /**
   * `'ai_validation' in finding`, then `validation.get('is_true_positive')`:
   * a truthy flag is a true positive, anything else a false positive, a
   * missing validation an error; a validation that is not a dict has no `get`.
   */
  function Classify(finding: Dict): (c: Verdict)
    ensures c == NoValidation <==> "ai_validation" !in finding
    ensures c == NotADict <==> "ai_validation" in finding && !finding["ai_validation"].VDict?
    ensures c == TruePositive <==>
      ("ai_validation" in finding && finding["ai_validation"].VDict? &&
       Truthy(Get(finding["ai_validation"].entries, "is_true_positive", VNull)))
  {
    if "ai_validation" !in finding then NoValidation
    else if !finding["ai_validation"].VDict? then NotADict
    else if Truthy(Get(finding["ai_validation"].entries, "is_true_positive", VNull)) then TruePositive
    else FalsePositive
  }

  /**
   * The records `_validate_single_finding` writes carry `is_valid`, not
   * `is_true_positive`: every validated finding is counted as a false positive.
   */
  lemma ValidatedCountsAsFalsePositive(f: Dict, v: Validator.Validation)
    requires "ai_validation" in f && f["ai_validation"] == Validator.ValidationValue(v)
    ensures Classify(f) == FalsePositive
  {
    assert |"is_true_positive"| == 16;
    assert "is_true_positive" !in Validator.ValidationValue(v).entries;
  }

  class MetricsCollector {
    const current: ValidationMetrics

    constructor(now: real)
      ensures fresh(current) && current.Balanced()
      ensures current.processedFindings == 0 && current.cacheHits == 0 && current.cacheMisses == 0
    {
      current := new ValidationMetrics(now);
    }

    /**
     * `record_finding`: one more processed finding and its time, then exactly
     * one of the three counters; a validation that is not a dict raises after
     * the first two updates.
     */
    method RecordFinding(finding: Dict, processingTime: real) returns (raised: bool)
      modifies current
      ensures raised <==> Classify(finding) == NotADict
      ensures current.processedFindings == old(current.processedFindings) + 1
      ensures current.processingTimes == old(current.processingTimes) + [processingTime]
      ensures current.truePositives == old(current.truePositives) + (if Classify(finding) == TruePositive then 1 else 0)
      ensures current.falsePositives == old(current.falsePositives) + (if Classify(finding) == FalsePositive then 1 else 0)
      ensures current.errors == old(current.errors) + (if Classify(finding) == NoValidation then 1 else 0)
      ensures current.totalFindings == old(current.totalFindings)
      ensures current.cacheHits == old(current.cacheHits) && current.cacheMisses == old(current.cacheMisses)
      ensures current.startTime == old(current.startTime) && current.endTime == old(current.endTime)
      ensures current.memoryUsage == old(current.memoryUsage) && current.cpuUsage == old(current.cpuUsage)
      ensures old(current.Balanced()) && !raised ==> current.Balanced()
    {
      current.processedFindings := current.processedFindings + 1;
      current.processingTimes := current.processingTimes + [processingTime];
      if "ai_validation" in finding {
        var validation := finding["ai_validation"];
        if !validation.VDict? {
          return true;
        }
        if Truthy(Get(validation.entries, "is_true_positive", VNull)) {
          current.truePositives := current.truePositives + 1;
        } else {
          current.falsePositives := current.falsePositives + 1;
        }
      } else {
        current.errors := current.errors + 1;
      }
      raised := false;
    }

    /** `record_cache_hit`: one more hit, nothing else. */
    method RecordCacheHit()
      modifies current
      ensures current.cacheHits == old(current.cacheHits) + 1
      ensures current.cacheMisses == old(current.cacheMisses)
      ensures current.processedFindings == old(current.processedFindings) && current.totalFindings == old(current.totalFindings)
      ensures current.truePositives == old(current.truePositives) && current.falsePositives == old(current.falsePositives)
      ensures current.errors == old(current.errors) && current.processingTimes == old(current.processingTimes)
      ensures current.startTime == old(current.startTime) && current.endTime == old(current.endTime)
      ensures current.memoryUsage == old(current.memoryUsage) && current.cpuUsage == old(current.cpuUsage)
    {
      current.cacheHits := current.cacheHits + 1;
    }

    /** `record_cache_miss`: one more miss, nothing else. */
    method RecordCacheMiss()
      modifies current
      ensures current.cacheMisses == old(current.cacheMisses) + 1
      ensures current.cacheHits == old(current.cacheHits)
      ensures current.processedFindings == old(current.processedFindings) && current.totalFindings == old(current.totalFindings)
      ensures current.truePositives == old(current.truePositives) && current.falsePositives == old(current.falsePositives)
      ensures current.errors == old(current.errors) && current.processingTimes == old(current.processingTimes)
      ensures current.startTime == old(current.startTime) && current.endTime == old(current.endTime)
      ensures current.memoryUsage == old(current.memoryUsage) && current.cpuUsage == old(current.cpuUsage)
    {
      current.cacheMisses := current.cacheMisses + 1;
    }

    /** One pass of the monitor thread: stop once the session has ended, otherwise append one sample of each. */
    method MonitorTick(memory: real, cpu: real) returns (stop: bool)
      modifies current
      ensures stop <==> current.endTime.Some? && current.endTime.value != 0.0
      ensures stop ==> current.memoryUsage == old(current.memoryUsage) && current.cpuUsage == old(current.cpuUsage)
      ensures !stop ==> current.memoryUsage == old(current.memoryUsage) + [memory]
      ensures !stop ==> current.cpuUsage == old(current.cpuUsage) + [cpu]
      ensures current.processedFindings == old(current.processedFindings) && current.endTime == old(current.endTime)
      ensures current.cacheHits == old(current.cacheHits) && current.cacheMisses == old(current.cacheMisses)
      ensures current.truePositives == old(current.truePositives) && current.falsePositives == old(current.falsePositives)
      ensures current.errors == old(current.errors) && current.processingTimes == old(current.processingTimes)
    {
      if current.endTime.Some? && current.endTime.value != 0.0 {
        return true;
      }
      current.memoryUsage := current.memoryUsage + [memory];
      current.cpuUsage := current.cpuUsage + [cpu];
      stop := false;
    }

    /** `complete_session`: the end time is set; the counters are left as they are. */
    method CompleteSession(now: real)
      modifies current
      ensures current.endTime == Some(now)
      ensures current.processedFindings == old(current.processedFindings) && current.cacheHits == old(current.cacheHits)
      ensures current.cacheMisses == old(current.cacheMisses) && current.processingTimes == old(current.processingTimes)
      ensures current.truePositives == old(current.truePositives) && current.falsePositives == old(current.falsePositives)
      ensures current.errors == old(current.errors) && current.startTime == old(current.startTime)
    {
      current.endTime := Some(now);
    }
  }

  /** Recording findings one after another keeps the three outcome counters summing to the processed count. */
  method RecordAll(c: MetricsCollector, findings: seq<Dict>, times: seq<real>)
    requires |times| == |findings| && c.current.Balanced()
    requires forall i :: 0 <= i < |findings| ==> Classify(findings[i]) != NotADict
    modifies c.current
    ensures c.current.Balanced()
    ensures c.current.processedFindings == old(c.current.processedFindings) + |findings|
    ensures c.current.processingTimes == old(c.current.processingTimes) + times
  {
    for i := 0 to |findings|
      invariant c.current.Balanced()
      invariant c.current.processedFindings == old(c.current.processedFindings) + i
      invariant c.current.processingTimes == old(c.current.processingTimes) + times[..i]
    {
      var raised := c.RecordFinding(findings[i], times[i]);
      assert times[..i + 1] == times[..i] + [times[i]];
    }
    assert times[..|findings|] == times;
  }
}
