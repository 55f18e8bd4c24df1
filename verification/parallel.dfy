/**
 * The thread-pool batch processor (semgrepai/parallel.py): every input gets a
 * `WorkItem` that records the function's result or the exception it raised,
 * and the finding processor turns the finished work items back into findings.
 *
 * The pool itself is not modelled: the items are processed one after the
 * other, and the order in which they reach the completion queue is an input
 * (`completion`, a permutation of the indices). The clock is an input too.
 */
module Parallel {
  import opened Common
  import Validator

  /** What the processing function did with one input: returned a value, or raised. */
  datatype Outcome = Returned(value: Value) | Raised(message: string)

  /** A timestamp as Python's `if t:` reads it: set and non-zero. */
  predicate Stamped(t: Option<real>) {
    t.Some? && t.value != 0.0
  }

  /** The state of a finished work item, as `process_findings` reads it. */
  datatype Work = Work(input: Dict, result: Value, error: Option<string>, time: real)

  class WorkItem {
    const input: Dict
    var result: Value
    var error: Option<string>
    var startTime: Option<real>
    var endTime: Option<real>

    /** `WorkItem(item)`: nothing recorded yet. */
    constructor(input: Dict)
      ensures this.input == input && result == VNull && error == None
      ensures startTime == None && endTime == None
    {
      this.input := input;
      result := VNull;
      error := None;
      startTime := None;
      endTime := None;
    }

    /** `processing_time`: the elapsed time once both timestamps are set, 0 otherwise; never negative for a clock that does not go back. */
    function ProcessingTime(): (t: real)
      reads this
      ensures Stamped(startTime) && Stamped(endTime) ==> t == endTime.value - startTime.value
      ensures !(Stamped(startTime) && Stamped(endTime)) ==> t == 0.0
      ensures startTime.Some? && endTime.Some? && startTime.value <= endTime.value ==> t >= 0.0
    {
      if Stamped(startTime) && Stamped(endTime) then endTime.value - startTime.value else 0.0
    }

    function Snapshot(): (w: Work)
      reads this
      ensures w.input == input && w.result == result && w.error == error && w.time == ProcessingTime()
    {
      Work(input, result, error, ProcessingTime())
    }

    /** `process_item`: both timestamps, and either the returned value or the captured exception. */
    method Process(func: Dict -> Outcome, start: real, end: real)
      requires result == VNull && error == None
      modifies this
      ensures startTime == Some(start) && endTime == Some(end)
      ensures error.Some? <==> func(input).Raised?
      ensures func(input).Raised? ==> error == Some(func(input).message) && result == VNull
      ensures func(input).Returned? ==> result == func(input).value
      ensures Snapshot() == Ran(input, func, start, end)
    {
      startTime := Some(start);
      match func(input) {
        case Returned(v) => result := v;
        case Raised(m) => error := Some(m);
      }
      endTime := Some(end);
    }
  }

  /** The finished work item for `input` processed between `start` and `end`. */
  function Ran(input: Dict, func: Dict -> Outcome, start: real, end: real): (w: Work)
    ensures w.input == input
    ensures w.error.Some? <==> func(input).Raised?
    ensures start <= end ==> w.time >= 0.0
  {
    var time := if start != 0.0 && end != 0.0 then end - start else 0.0;
    match func(input)
    case Returned(v) => Work(input, v, None, time)
    case Raised(m) => Work(input, VNull, Some(m), time)
  }

  // ---------------------------------------------------------------- the wait loop

  /** The order in which the work items reach the completion queue: each index exactly once. */
  predicate Permutation(order: seq<nat>, n: nat) {
    Validator.IsOrder(order, n) && NoDuplicates(order)
  }

  /**
   * The indices still waiting after the inputs at `done` came off the queue:
   * the loop deletes every future whose input equals a completed one's.
   */
  function Pending(items: seq<Dict>, done: seq<nat>): (r: set<nat>)
    ensures forall i :: i in r ==> i < |items|
  {
    set i | 0 <= i < |items| && forall j :: 0 <= j < |done| && done[j] < |items| ==> items[i] != items[done[j]]
  }

  lemma PendingSnoc(items: seq<Dict>, done: seq<nat>, c: nat)
    requires c < |items|
    ensures Pending(items, done + [c]) == set i | i in Pending(items, done) && items[i] != items[c]
  {
    var d := done + [c];
    forall i | i in Pending(items, d)
      ensures i in Pending(items, done) && items[i] != items[c]
    {
      assert d[|done|] == c;
      forall j | 0 <= j < |done| && done[j] < |items|
        ensures items[i] != items[done[j]]
      {
        assert d[j] == done[j];
      }
    }
    forall i | i in Pending(items, done) && items[i] != items[c]
      ensures i in Pending(items, d)
    {
      forall j | 0 <= j < |d| && d[j] < |items|
        ensures items[i] != items[d[j]]
      {
        if j < |done| { assert d[j] == done[j]; }
      }
    }
  }

  /** A still-pending index has not yet come off the queue. */
  lemma PendingNotDone(items: seq<Dict>, completion: seq<nat>, k: nat, p: nat)
    requires Permutation(completion, |items|) && k <= |items|
    requires p in Pending(items, completion[..k])
    ensures exists m :: k <= m < |items| && completion[m] == p
  {
    assert p in completion;
    var m :| 0 <= m < |completion| && completion[m] == p;
  }

  /**
   * `process_batch`: one work item per input, in input order, each processed;
   * the progress bar is advanced once per queue read until no future is
   * pending, which is never more than once per input.
   */
  method ProcessBatch(items: seq<Dict>, func: Dict -> Outcome, startAt: nat -> real, endAt: nat -> real,
                      completion: seq<nat>)
    returns (ws: seq<WorkItem>, advances: nat)
    requires Permutation(completion, |items|)
    ensures |ws| == |items|
    ensures forall i :: 0 <= i < |ws| ==> fresh(ws[i])
    ensures forall i, j :: 0 <= i < j < |ws| ==> ws[i] != ws[j]
    ensures forall i :: 0 <= i < |ws| ==> ws[i].input == items[i]
    ensures forall i :: 0 <= i < |ws| ==> ws[i].Snapshot() == Ran(items[i], func, startAt(i), endAt(i))
    ensures advances <= |items|
    ensures Pending(items, completion[..advances]) == {}
    ensures forall k :: 0 <= k < advances ==> Pending(items, completion[..k]) != {}
  {
    ws := SubmitAll(items, func, startAt, endAt);
    advances := WaitAll(items, completion);
  }

  /** The submissions: a fresh work item per input, run through `process_item`. */
  method SubmitAll(items: seq<Dict>, func: Dict -> Outcome, startAt: nat -> real, endAt: nat -> real)
    returns (ws: seq<WorkItem>)
    ensures |ws| == |items|
    ensures forall i :: 0 <= i < |ws| ==> fresh(ws[i])
    ensures forall i, j :: 0 <= i < j < |ws| ==> ws[i] != ws[j]
    ensures forall i :: 0 <= i < |ws| ==> ws[i].input == items[i]
    ensures forall i :: 0 <= i < |ws| ==> ws[i].Snapshot() == Ran(items[i], func, startAt(i), endAt(i))
  {
    ws := [];
    for i := 0 to |items|
      invariant |ws| == i
      invariant forall j :: 0 <= j < i ==> fresh(ws[j])
      invariant forall j, l :: 0 <= j < l < i ==> ws[j] != ws[l]
      invariant forall j :: 0 <= j < i ==> ws[j].input == items[j]
      invariant forall j :: 0 <= j < i ==> ws[j].Snapshot() == Ran(items[j], func, startAt(j), endAt(j))
    {
      var w := new WorkItem(items[i]);
      w.Process(func, startAt(i), endAt(i));
      ws := ws + [w];
    }
  }

  /** The wait loop: reads the queue, advances the bar, and deletes the futures with the same input, until none is left. */
  method WaitAll(items: seq<Dict>, completion: seq<nat>) returns (advances: nat)
    requires Permutation(completion, |items|)
    ensures advances <= |items|
    ensures Pending(items, completion[..advances]) == {}
    ensures forall k :: 0 <= k < advances ==> Pending(items, completion[..k]) != {}
  {
    assert completion[..0] == [];
    var pending := Pending(items, []);
    advances := 0;
    while pending != {}
      invariant advances <= |items|
      invariant pending == Pending(items, completion[..advances])
      invariant forall k :: 0 <= k < advances ==> Pending(items, completion[..k]) != {}
      decreases |items| - advances
    {
      var p :| p in pending;
      PendingNotDone(items, completion, advances, p);
      var c := completion[advances];
      PendingSnoc(items, completion[..advances], c);
      assert completion[..advances + 1] == completion[..advances] + [c];
      pending := set f | f in pending && items[f] != items[c];
      advances := advances + 1;
    }
  }

  /** With distinct inputs the loop reads the queue once per input. */
  lemma DistinctInputsAdvanceEach(items: seq<Dict>, completion: seq<nat>, k: nat)
    requires Permutation(completion, |items|) && NoDuplicates(items)
    requires k < |items|
    ensures completion[k] in Pending(items, completion[..k])
  {
    var c := completion[k];
    var d := completion[..k];
    forall j | 0 <= j < |d| && d[j] < |items|
      ensures items[c] != items[d[j]]
    {
      assert d[j] == completion[j];
    }
  }

  /** With distinct inputs the loop cannot stop before it has read every input off the queue. */
  lemma DistinctInputsAdvanceAll(items: seq<Dict>, completion: seq<nat>, advances: nat)
    requires Permutation(completion, |items|) && NoDuplicates(items)
    requires advances <= |items| && Pending(items, completion[..advances]) == {}
    ensures advances == |items|
  {
    if advances < |items| {
      DistinctInputsAdvanceEach(items, completion, advances);
    }
  }

  /** Two equal inputs: the first completion clears both futures, so the bar advances once, not twice. */
  lemma EqualInputsAdvanceOnce(f: Dict)
    ensures Pending([f, f], []) != {}
    ensures Pending([f, f], [0]) == {}
  {
    assert 0 in Pending([f, f], []);
    var items, done := [f, f], [0];
    assert forall i :: 0 <= i < |items| ==> items[i] == items[done[0]];
  }

  // ---------------------------------------------------------------- collecting findings

  /** `finding['rule_id']` for the console line; a missing key raises. */
  function RuleIdLookup(finding: Dict): Result<Value, string> {
    if "rule_id" in finding then Ok(finding["rule_id"]) else Err("KeyError: 'rule_id'")
  }

  /** The finding a successful work item gives: its result as `ai_validation`, and its processing time. */
  function Annotated(w: Work): (f: Dict)
    ensures f.Keys == w.input.Keys + {"ai_validation", "processing_time"}
    ensures f["ai_validation"] == w.result && f["processing_time"] == VReal(w.time)
    ensures forall k :: k in w.input && k != "ai_validation" && k != "processing_time" ==> f[k] == w.input[k]
  {
    w.input["ai_validation" := w.result]["processing_time" := VReal(w.time)]
  }

  /** One work item through the collection loop, as the status lookup is evidently meant to behave. */
  function CollectOne(w: Work): (r: Result<Dict, string>)
    ensures r.Err? <==> "rule_id" !in w.input
    ensures r.Ok? && w.error.Some? ==> r.value == w.input
    ensures r.Ok? && w.error.None? ==> r.value == Annotated(w)
  {
    match RuleIdLookup(w.input)
    case Err(e) => Err(e)
    case Ok(_) => if w.error.Some? then Ok(w.input) else Ok(Annotated(w))
  }

  /** The collection loop over all work items: the findings, or the first exception raised. */
  function Collected(ws: seq<Work>): (r: Result<seq<Dict>, string>)
  {
    if ws == [] then Ok([])
    else
      match Collected(ws[..|ws| - 1])
      case Err(e) => Err(e)
      case Ok(prefix) => (
        match CollectOne(ws[|ws| - 1])
        case Err(e) => Err(e)
        case Ok(f) => Ok(prefix + [f]))
  }

  /**
   * `process_findings` collects every finding when each has a `rule_id`, in
   * order: an errored one unchanged, a successful one with `ai_validation`
   * and `processing_time` added and its other keys kept.
   */
  lemma {:induction false} CollectedFindings(ws: seq<Work>)
    ensures Collected(ws).Ok? <==> forall i :: 0 <= i < |ws| ==> "rule_id" in ws[i].input
    ensures Collected(ws).Ok? ==> |Collected(ws).value| == |ws|
    ensures Collected(ws).Ok? ==> forall i :: 0 <= i < |ws| ==>
      var f := Collected(ws).value[i];
      && (ws[i].error.Some? ==> f == ws[i].input)
      && (ws[i].error.None? ==> f == Annotated(ws[i]))
  {
    if ws != [] {
      var init := ws[..|ws| - 1];
      CollectedFindings(init);
      var last := ws[|ws| - 1];
      if Collected(init).Ok? && CollectOne(last).Ok? {
        var r := Collected(ws).value;
        assert r == Collected(init).value + [CollectOne(last).value];
        forall i | 0 <= i < |ws|
          ensures "rule_id" in ws[i].input
        {
          if i < |ws| - 1 { assert ws[i] == init[i]; }
        }
      } else if Collected(init).Err? {
        var i :| 0 <= i < |init| && "rule_id" !in init[i].input;
        assert ws[i] == init[i];
      }
    }
  }

  /** An error raised at some point ends the loop: later items do not change the outcome. */
  lemma {:induction false} CollectedErrSticks(ws: seq<Work>, k: nat)
    requires k <= |ws| && Collected(ws[..k]).Err?
    ensures Collected(ws) == Collected(ws[..k])
    decreases |ws| - k
  {
    if k < |ws| {
      assert ws[..k + 1][..k] == ws[..k];
      CollectedErrSticks(ws, k + 1);
    } else {
      assert ws[..k] == ws;
    }
  }

  /** The finished work items' states, in order. */
  function Snapshots(ws: seq<WorkItem>): (r: seq<Work>)
    reads set w | w in ws
    ensures |r| == |ws|
    ensures forall i :: 0 <= i < |ws| ==> r[i] == ws[i].Snapshot()
  {
    if ws == [] then [] else Snapshots(ws[..|ws| - 1]) + [ws[|ws| - 1].Snapshot()]
  }

  /** `ValidationBatchProcessor.process_findings`, after its `process_batch` call: the collection loop. */
  method ProcessFindings(ws: seq<WorkItem>) returns (r: Result<seq<Dict>, string>)
    ensures r == Collected(Snapshots(ws))
  {
    var works := Snapshots(ws);
    var out: seq<Dict> := [];
    for i := 0 to |ws|
      invariant Collected(works[..i]) == Ok(out)
    {
      var w := ws[i].Snapshot();
      assert works[..i + 1][..i] == works[..i];
      assert works[..i + 1][i] == w;
      if "rule_id" !in w.input {
        r := Err("KeyError: 'rule_id'");
        CollectedErrSticks(works, i + 1);
        return;
      }
      if w.error.Some? {
        out := out + [w.input];
      } else {
        out := out + [Annotated(w)];
      }
    }
    assert works[..|ws|] == works;
    r := Ok(out);
  }

  // ---------------------------------------------------------------- the status lookup as written

  /** `work_item.result['is_true_positive']`: only a dict that has the key can be read. */
  function StatusLookup(result: Value): Result<Value, string> {
    if result.VDict? && "is_true_positive" in result.entries then Ok(result.entries["is_true_positive"])
    else if result.VDict? then Err("KeyError: 'is_true_positive'")
    else Err("TypeError: object is not subscriptable")
  }

  /** One work item through the loop as written: a successful item's status lookup comes before its `rule_id` lookup. */
  function CollectOneAsWritten(w: Work): (r: Result<Dict, string>)
    ensures w.error.None? && StatusLookup(w.result).Err? ==> r.Err?
    ensures StatusLookup(w.result).Ok? || w.error.Some? ==> r == CollectOne(w)
  {
    if w.error.Some? then CollectOne(w)
    else match StatusLookup(w.result)
      case Err(e) => Err(e)
      case Ok(_) => CollectOne(w)
  }

  function CollectedAsWritten(ws: seq<Work>): (r: Result<seq<Dict>, string>)
  {
    if ws == [] then Ok([])
    else
      match CollectedAsWritten(ws[..|ws| - 1])
      case Err(e) => Err(e)
      case Ok(prefix) => (
        match CollectOneAsWritten(ws[|ws| - 1])
        case Err(e) => Err(e)
        case Ok(f) => Ok(prefix + [f]))
  }

  /** The work items of a batch once every future has run, item `i` started at `startAt(i)` and ended at `endAt(i)`. */
  function RunAll(findings: seq<Dict>, func: Dict -> Outcome, startAt: nat -> real, endAt: nat -> real): (ws: seq<Work>)
    ensures |ws| == |findings|
    ensures forall i :: 0 <= i < |findings| ==> ws[i] == Ran(findings[i], func, startAt(i), endAt(i))
  {
    seq(|findings|, i requires 0 <= i < |findings| => Ran(findings[i], func, startAt(i), endAt(i)))
  }

  /** The processing function of the finding processor: `_validate_single_finding`, which never raises. */
  function ValidationFunc(prepare: Dict -> Dict, show: Value -> string, llm: Dict -> Validator.Reply,
                          elapsed: Dict -> real): Dict -> Outcome {
    f => Returned(VDict(Validator.ValidateSingleFinding(f, prepare, show, llm, elapsed(f))))
  }

  lemma StatusKeyNotAdded()
    ensures "is_true_positive" !in Validator.ContextKeys
    ensures "is_true_positive" != "ai_validation" && "is_true_positive" != "processing_time"
  {
    assert |"is_true_positive"| == 16;
  }

  /** The finding `_validate_single_finding` returns has no top-level `is_true_positive` unless the prepared one had it. */
  lemma ValidatedLacksStatus(f: Dict, prepare: Dict -> Dict, show: Value -> string,
                             llm: Dict -> Validator.Reply, elapsed: real)
    requires "is_true_positive" !in Validator.Prepared(f, prepare)
    ensures "is_true_positive" !in Validator.ValidateSingleFinding(f, prepare, show, llm, elapsed)
  {
    Validator.SingleFindingKeys(f, prepare, show, llm, elapsed);
    StatusKeyNotAdded();
  }

  /** As written, a first work item that succeeded with a dict lacking `is_true_positive` makes the whole loop raise. */
  lemma StatusRaisesFirst(ws: seq<Work>)
    requires |ws| > 0 && ws[0].error.None? && ws[0].result.VDict? && "is_true_positive" !in ws[0].result.entries
    ensures CollectedAsWritten(ws) == Err("KeyError: 'is_true_positive'")
  {
    assert ws[..1][..0] == [];
    assert ws[..1][0] == ws[0];
    assert CollectedAsWritten(ws[..1]) == Err("KeyError: 'is_true_positive'");
    AsWrittenErrSticks(ws, 1);
  }

  /**
   * As written, `process_findings` raises as soon as it meets a validated
   * finding: the validated finding has no top-level `is_true_positive` key.
   */
  lemma ValidatedFindingRaises(findings: seq<Dict>, prepare: Dict -> Dict, show: Value -> string,
                               llm: Dict -> Validator.Reply, elapsed: Dict -> real,
                               startAt: nat -> real, endAt: nat -> real)
    requires |findings| > 0 && "is_true_positive" !in Validator.Prepared(findings[0], prepare)
    ensures CollectedAsWritten(RunAll(findings, ValidationFunc(prepare, show, llm, elapsed), startAt, endAt))
         == Err("KeyError: 'is_true_positive'")
  {
    var func := ValidationFunc(prepare, show, llm, elapsed);
    var ws := RunAll(findings, func, startAt, endAt);
    var f := findings[0];
    var r := Validator.ValidateSingleFinding(f, prepare, show, llm, elapsed(f));
    ValidatedLacksStatus(f, prepare, show, llm, elapsed(f));
    assert func(f) == Returned(VDict(r));
    assert ws[0] == Ran(f, func, startAt(0), endAt(0));
    StatusRaisesFirst(ws);
  }

  lemma {:induction false} AsWrittenErrSticks(ws: seq<Work>, k: nat)
    requires k <= |ws| && CollectedAsWritten(ws[..k]).Err?
    ensures CollectedAsWritten(ws) == CollectedAsWritten(ws[..k])
    decreases |ws| - k
  {
    if k < |ws| {
      assert ws[..k + 1][..k] == ws[..k];
      AsWrittenErrSticks(ws, k + 1);
    } else {
      assert ws[..k] == ws;
    }
  }

  /** The corrected loop, on the same validated findings, returns one annotated finding per input. */
  lemma ValidatedFindingsCollected(findings: seq<Dict>, prepare: Dict -> Dict, show: Value -> string,
                                   llm: Dict -> Validator.Reply, elapsed: Dict -> real,
                                   startAt: nat -> real, endAt: nat -> real)
    requires forall i :: 0 <= i < |findings| ==> "rule_id" in findings[i]
    ensures var ws := RunAll(findings, ValidationFunc(prepare, show, llm, elapsed), startAt, endAt);
      && Collected(ws).Ok? && |Collected(ws).value| == |findings|
      && forall i :: 0 <= i < |findings| ==> "ai_validation" in Collected(ws).value[i]
  {
    var func := ValidationFunc(prepare, show, llm, elapsed);
    var ws := RunAll(findings, func, startAt, endAt);
    forall i | 0 <= i < |findings|
      ensures ws[i].error.None?
    {
      assert func(findings[i]).Returned?;
      assert ws[i] == Ran(findings[i], func, startAt(i), endAt(i));
    }
    CollectedFindings(ws);
  }
}
