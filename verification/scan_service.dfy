/**
 * The background scan run of the web API (`ScanService.run_scan`): a pending
 * scan is started, the scanner's results are processed, the findings are
 * validated and stored, and every step is broadcast to the scan's WebSocket
 * clients.  The scanner, the validator and the clock are inputs.
 */
module ScanService {
  import opened Common
  import opened ApiModels
  import Scanner
  import Progress

  // ------------------------------------------------------------ messages

  /** `{**data, "scan_id": scan_id, "timestamp": stamp}`. */
  function BroadcastMessage(scanId: string, data: Dict, stamp: string): Dict {
    data + map["scan_id" := VStr(scanId), "timestamp" := VStr(stamp)]
  }

  /** The message keeps the data and adds `scan_id` and `timestamp`, which win over same-named data keys. */
  lemma BroadcastOverrides(scanId: string, data: Dict, stamp: string)
    ensures var m := BroadcastMessage(scanId, data, stamp);
      && m.Keys == data.Keys + {"scan_id", "timestamp"}
      && m["scan_id"] == VStr(scanId) && m["timestamp"] == VStr(stamp)
      && (forall k :: k in data && k != "scan_id" && k != "timestamp" ==> m[k] == data[k])
  {
  }

  /** What a run reports, step by step. */
  datatype Event =
    | Started
    | NothingDetected
    | ScanError(message: string)
    | FoundIssues(count: nat)
    | Progressed(update: Progress.ProgressUpdate)
    | Done(count: nat)
    | ValidationError(message: string)

  function Message(kind: string, status: string, text: string): Dict {
    map["type" := VStr(kind), "status" := VStr(status), "message" := VStr(text)]
  }

  function ScanErrorText(m: string): string { "Semgrep scan failed: " + m }

  function ValidationErrorText(m: string): string { "AI validation failed: " + m }

  /** The data dictionary handed to `_broadcast_progress` for an event. */
  function EventData(e: Event): Dict {
    match e
    case Started => Message("started", "running", "Scan started")
    case NothingDetected => Message("complete", "completed", "No findings detected")["total_findings" := VInt(0)]
    case ScanError(m) => Message("error", "failed", ScanErrorText(m))
    case FoundIssues(n) =>
      Message("progress", "running", "Found " + NatToString(n) + " potential issues, starting AI validation")
        ["total" := VInt(n)]["processed" := VInt(0)]
    case Progressed(u) =>
      map["type" := VStr("progress"), "status" := VStr("running"),
          "total" := VInt(u.total), "processed" := VInt(u.processed),
          "percentage" := VReal(u.Percentage()),
          "current_finding" := (if u.currentItem.Some? then VDict(u.currentItem.value) else VNull),
          "metrics" := VDict(map k | k in u.metrics :: VInt(u.metrics[k]))]
    case Done(n) => Message("complete", "completed", "Scan completed successfully")["total_findings" := VInt(n)]
    case ValidationError(m) => Message("error", "failed", ValidationErrorText(m))
  }

  /** One call of `_broadcast_progress`: the scan, the event and the time stamp. */
  datatype Sent = Sent(scanId: string, event: Event, stamp: string) {
    /** The message handed to the connection manager. */
    function Message(): Dict {
      BroadcastMessage(scanId, EventData(event), stamp)
    }
  }

  /** The broadcasts of a run's events. */
  function Stamped(scanId: string, es: seq<Event>, stamp: string): (ms: seq<Sent>)
    ensures |ms| == |es|
    ensures forall i :: 0 <= i < |es| ==> ms[i] == Sent(scanId, es[i], stamp)
  {
    seq(|es|, i requires 0 <= i < |es| => Sent(scanId, es[i], stamp))
  }

  // ------------------------------------------------------------ the scanner phase

  /** What `scanner.scan` did. */
  datatype ScannerRun = ScannerRaised(message: string) | ScannerReturned(results: Dict)

  /** The scanner phase's three ways out. */
  datatype ScanPhase = NothingFound | Found(findings: seq<Dict>) | ScanFailed(message: string)

  /**
   * `not results or not results.get("json", {}).get("results")`, then
   * `_process_results`; a failure anywhere in the phase ends it.
   */
  function ScanPhaseOf(run: ScannerRun, disk: Scanner.Disk): (p: ScanPhase)
    ensures run.ScannerRaised? ==> p == ScanFailed(run.message)
    ensures run.ScannerReturned? && (run.results == map[] || "json" !in run.results) ==> p == NothingFound
    ensures run.ScannerReturned? && "json" in run.results && run.results["json"].VDict?
            && Truthy(Get(run.results["json"].entries, "results", VNull)) ==>
              match Scanner.ProcessRawResults(run.results, disk)
              case Ok(fs) => p == Found(fs)
              case Err(e) => p == ScanFailed(e)
  {
    match run
    case ScannerRaised(m) => ScanFailed(m)
    case ScannerReturned(results) =>
      var json := Get(results, "json", VDict(map[]));
      if results == map[] then NothingFound
      else if !json.VDict? then ScanFailed(Scanner.NoGet)
      else if !Truthy(Get(json.entries, "results", VNull)) then NothingFound
      else match Scanner.ProcessRawResults(results, disk)
        case Ok(fs) => Found(fs)
        case Err(e) => ScanFailed(e)
  }

  // ------------------------------------------------------------ the validation phase

  /** The validator's progress updates, in order, and how it ended. */
  datatype ValidationRun = ValidationRun(updates: seq<Progress.ProgressUpdate>, outcome: Result<seq<Dict>, string>)

  /** The findings stored, and the conversion error that stopped the storing, if any. */
  datatype Conversion = Conversion(stored: seq<Finding>, error: Option<string>)

  /**
   * `Finding.from_scan_finding` over the validated findings, in order; the
   * i-th gets id `newId(i)`.  A failing conversion stops the loop.
   */
  function Stored(scanId: string, vs: seq<Dict>, newId: nat -> string, now: real): (c: Conversion)
    ensures |c.stored| <= |vs|
    ensures forall i :: 0 <= i < |c.stored| ==> FromScanFinding(newId(i), scanId, vs[i], now) == Ok(c.stored[i])
    ensures c.error.None? ==> |c.stored| == |vs|
    ensures c.error.Some? ==> |c.stored| < |vs| && FromScanFinding(newId(|c.stored|), scanId, vs[|c.stored|], now) == Err(c.error.value)
    ensures c.error.None? <==> forall i :: 0 <= i < |vs| ==> FromScanFinding(newId(i), scanId, vs[i], now).Ok?
  {
    if vs == [] then Conversion([], None)
    else
      var front := Stored(scanId, vs[..|vs| - 1], newId, now);
      if front.error.Some? then front
      else match FromScanFinding(newId(|vs| - 1), scanId, vs[|vs| - 1], now)
        case Err(e) => Conversion(front.stored, Some(e))
        case Ok(f) => Conversion(front.stored + [f], None)
  }

  /** `validated_findings` after the progress callbacks: the last update's processed count. */
  function LastProcessed(updates: seq<Progress.ProgressUpdate>, before: int): (n: int)
    ensures updates == [] ==> n == before
    ensures updates != [] ==> n == updates[|updates| - 1].processed
  {
    if updates == [] then before else updates[|updates| - 1].processed
  }

  // ------------------------------------------------------------ the run

  /** How the validation phase closes a scan record that has its counts. */
  function ClosingScan(counted: Scan, v: ValidationRun, c: Conversion, now: real): Scan {
    match v.outcome
    case Err(m) => counted.(status := Failed, completedAt := Some(now), errorMessage := Some(ValidationErrorText(m)))
    case Ok(vs) =>
      if c.error.Some? then counted.(status := Failed, completedAt := Some(now), errorMessage := Some(ValidationErrorText(c.error.value)))
      else counted.(validatedFindings := |vs|, status := Completed, completedAt := Some(now))
  }

  /** The scan record at the end of a run started from the pending record `s0`. */
  function FinalScan(s0: Scan, phase: ScanPhase, v: ValidationRun, c: Conversion, now: real): Scan
  {
    var started := s0.(status := Running, startedAt := Some(now));
    match phase
    case NothingFound => started.(status := Completed, completedAt := Some(now), totalFindings := 0)
    case ScanFailed(m) => started.(status := Failed, completedAt := Some(now), errorMessage := Some(ScanErrorText(m)))
    case Found(fs) =>
      ClosingScan(started.(totalFindings := |fs|, validatedFindings := LastProcessed(v.updates, s0.validatedFindings)), v, c, now)
  }

  /**
   * A run always ends COMPLETED or FAILED, started and finished at `now`, and
   * keeps the scan's identity and inputs; each way out sets the counts and
   * the error message as below.
   */
  lemma FinalScanOutcomes(s0: Scan, phase: ScanPhase, v: ValidationRun, c: Conversion, now: real)
    ensures var s := FinalScan(s0, phase, v, c, now);
      && (s.status == Completed || s.status == Failed)
      && s.startedAt == Some(now) && s.completedAt == Some(now)
      && s.id == s0.id && s.name == s0.name && s.targetPath == s0.targetPath
      && s.rulesPath == s0.rulesPath && s.createdAt == s0.createdAt
      && (phase == NothingFound ==>
            s.status == Completed && s.totalFindings == 0 && s.errorMessage == s0.errorMessage)
      && (phase.ScanFailed? ==>
            s.status == Failed && s.errorMessage == Some(ScanErrorText(phase.message))
            && s.totalFindings == s0.totalFindings)
      && (phase.Found? ==> s.totalFindings == |phase.findings|)
      && (phase.Found? && v.outcome.Err? ==>
            s.status == Failed && s.errorMessage == Some(ValidationErrorText(v.outcome.error))
            && s.validatedFindings == LastProcessed(v.updates, s0.validatedFindings))
      && (phase.Found? && v.outcome.Ok? && c.error.None? ==>
            s.status == Completed && s.validatedFindings == |v.outcome.value| && s.errorMessage == s0.errorMessage)
      && (phase.Found? && v.outcome.Ok? && c.error.Some? ==>
            s.status == Failed && s.errorMessage == Some(ValidationErrorText(c.error.value))
            && s.validatedFindings == LastProcessed(v.updates, s0.validatedFindings))
  {
  }

  /** A run's final record stays under the scan's id. */
  lemma FinalScanKeepsId(s0: Scan, phase: ScanPhase, v: ValidationRun, c: Conversion, now: real)
    ensures FinalScan(s0, phase, v, c, now).id == s0.id
  {
  }

  /** The broadcasts of a run are the `Started` message followed by the rest. */
  lemma RunEventsStamped(before: seq<Sent>, scanId: string, phase: ScanPhase, v: ValidationRun, c: Conversion, stamp: string)
    ensures before + Stamped(scanId, [Started], stamp) + Stamped(scanId, RunEvents(phase, v, c)[1..], stamp)
         == before + Stamped(scanId, RunEvents(phase, v, c), stamp)
  {
    var es := RunEvents(phase, v, c);
    assert es == [Started] + es[1..];
    StampedAppend(before, scanId, [Started], es[1..], stamp);
  }

  /** Broadcasting two runs of events one after the other is broadcasting their concatenation. */
  lemma StampedAppend(before: seq<Sent>, scanId: string, a: seq<Event>, b: seq<Event>, stamp: string)
    ensures before + Stamped(scanId, a, stamp) + Stamped(scanId, b, stamp) == before + Stamped(scanId, a + b, stamp)
  {
    StampedConcat(scanId, a, b, stamp);
    AppendAssoc(before, Stamped(scanId, a, stamp), Stamped(scanId, b, stamp));
  }

  /** The findings converted during a run: only a scan that found issues and validated them stores any. */
  function RunConversion(scanId: string, phase: ScanPhase, v: ValidationRun, newId: nat -> string, now: real): Conversion {
    if phase.Found? && v.outcome.Ok? then Stored(scanId, v.outcome.value, newId, now) else Conversion([], None)
  }

  /** The findings a run adds: those stored before the run ended. */
  function AddedFindings(phase: ScanPhase, v: ValidationRun, c: Conversion): (r: seq<Finding>)
    ensures !phase.Found? || v.outcome.Err? ==> r == []
  {
    if phase.Found? && v.outcome.Ok? then c.stored else []
  }

  /** The events of the progress callbacks. */
  function UpdateEvents(updates: seq<Progress.ProgressUpdate>): (es: seq<Event>)
    ensures |es| == |updates|
  {
    seq(|updates|, i requires 0 <= i < |updates| => Progressed(updates[i]))
  }

  /** The event that closes the validation phase. */
  function ClosingEvent(v: ValidationRun, c: Conversion): Event {
    match v.outcome
    case Err(m) => ValidationError(m)
    case Ok(vs) => if c.error.Some? then ValidationError(c.error.value) else Done(|vs|)
  }

  /** The events of a run: it opens with `Started` and closes with one completion or error event. */
  function RunEvents(phase: ScanPhase, v: ValidationRun, c: Conversion): (es: seq<Event>)
    ensures |es| >= 2 && es[0] == Started
    ensures es[|es| - 1].NothingDetected? || es[|es| - 1].ScanError? || es[|es| - 1].Done? || es[|es| - 1].ValidationError?
  {
    match phase
    case NothingFound => [Started, NothingDetected]
    case ScanFailed(m) => [Started, ScanError(m)]
    case Found(fs) => [Started, FoundIssues(|fs|)] + UpdateEvents(v.updates) + [ClosingEvent(v, c)]
  }

  lemma {:induction false} StampedConcat(scanId: string, a: seq<Event>, b: seq<Event>, stamp: string)
    ensures Stamped(scanId, a + b, stamp) == Stamped(scanId, a, stamp) + Stamped(scanId, b, stamp)
  {
    var l := Stamped(scanId, a + b, stamp);
    var r := Stamped(scanId, a, stamp) + Stamped(scanId, b, stamp);
    forall i | 0 <= i < |l|
      ensures l[i] == r[i]
    {
      if i >= |a| {
        assert (a + b)[i] == b[i - |a|];
      }
    }
  }

  /** Every finding a successful run stores belongs to the scan and comes from its validated findings. */
  lemma {:induction false} StoredBelongToScan(scanId: string, vs: seq<Dict>, newId: nat -> string, now: real)
    ensures forall f :: f in Stored(scanId, vs, newId, now).stored ==> f.scanId == scanId && f.triage == Untriaged
  {
    var c := Stored(scanId, vs, newId, now);
    forall f | f in c.stored
      ensures f.scanId == scanId && f.triage == Untriaged
    {
      var i :| 0 <= i < |c.stored| && c.stored[i] == f;
      assert FromScanFinding(newId(i), scanId, vs[i], now) == Ok(f);
    }
  }

  class ScanService {
    const db: Database
    /** The broadcasts made, in order. */
    var sent: seq<Sent>

    constructor(db: Database)
      ensures this.db == db && sent == []
    {
      this.db := db;
      sent := [];
    }

    /** `_broadcast_progress`. */
    method Broadcast(scanId: string, e: Event, stamp: string)
      modifies this`sent
      ensures sent == old(sent) + Stamped(scanId, [e], stamp)
    {
      sent := sent + [Sent(scanId, e, stamp)];
    }

    /** Commit a scan record. */
    method Save(s: Scan)
      modifies db`scans
      ensures db.scans == old(db.scans)[s.id := s]
    {
      db.scans := db.scans[s.id := s];
    }

    /** The progress callbacks: each update is broadcast, then its processed count is committed. */
    method ReportProgress(scan: Scan, updates: seq<Progress.ProgressUpdate>, stamp: string) returns (s: Scan)
      modifies db`scans, this`sent
      ensures s == scan.(validatedFindings := LastProcessed(updates, scan.validatedFindings))
      ensures db.scans == old(db.scans)[scan.id := s]
      ensures sent == old(sent) + Stamped(scan.id, UpdateEvents(updates), stamp)
    {
      s := scan;
      db.scans := db.scans[scan.id := s];
      var i := 0;
      while i < |updates|
        invariant 0 <= i <= |updates|
        invariant s == scan.(validatedFindings := LastProcessed(updates[..i], scan.validatedFindings))
        invariant db.scans == old(db.scans)[scan.id := s]
        invariant sent == old(sent) + Stamped(scan.id, UpdateEvents(updates[..i]), stamp)
      {
        Broadcast(scan.id, Progressed(updates[i]), stamp);
        StampedConcat(scan.id, UpdateEvents(updates[..i]), [Progressed(updates[i])], stamp);
        assert UpdateEvents(updates[..i + 1]) == UpdateEvents(updates[..i]) + [Progressed(updates[i])];
        s := s.(validatedFindings := updates[i].processed);
        Save(s);
        i := i + 1;
      }
      assert updates[..i] == updates;
    }

    /** `for finding_dict in validated_findings: db.add(Finding.from_scan_finding(...))`. */
    method StoreFindings(scanId: string, vs: seq<Dict>, newId: nat -> string, now: real) returns (error: Option<string>)
      modifies db`findings
      ensures db.findings == old(db.findings) + Stored(scanId, vs, newId, now).stored
      ensures error == Stored(scanId, vs, newId, now).error
    {
      var j := 0;
      error := None;
      while j < |vs|
        invariant 0 <= j <= |vs|
        invariant Stored(scanId, vs[..j], newId, now).error == None
        invariant db.findings == old(db.findings) + Stored(scanId, vs[..j], newId, now).stored
      {
        match FromScanFinding(newId(j), scanId, vs[j], now)
        case Err(e) =>
          error := Some(e);
          StoredStops(scanId, vs, j, newId, now);
          return;
        case Ok(f) =>
          StoredStep(scanId, vs, j, newId, now, f);
          AppendAssoc(old(db.findings), Stored(scanId, vs[..j], newId, now).stored, [f]);
          db.findings := db.findings + [f];
          j := j + 1;
      }
      assert vs[..j] == vs;
    }

    /** The end of the validation phase: store the findings, then complete or fail. */
    method CloseValidation(scan: Scan, v: ValidationRun, newId: nat -> string, now: real, stamp: string)
      modifies db`scans, db`findings, this`sent
      ensures var c := if v.outcome.Ok? then Stored(scan.id, v.outcome.value, newId, now) else Conversion([], None);
              && db.scans == old(db.scans)[scan.id := ClosingScan(scan, v, c, now)]
              && db.findings == old(db.findings) + (if v.outcome.Ok? then c.stored else [])
              && sent == old(sent) + Stamped(scan.id, [ClosingEvent(v, c)], stamp)
    {
      match v.outcome {
        case Err(m) =>
          Save(ClosingScan(scan, v, Conversion([], None), now));
          Broadcast(scan.id, ClosingEvent(v, Conversion([], None)), stamp);
        case Ok(vs) =>
          var c := Stored(scan.id, vs, newId, now);
          var error := StoreFindings(scan.id, vs, newId, now);
          Save(ClosingScan(scan, v, c, now));
          Broadcast(scan.id, ClosingEvent(v, c), stamp);
      }
    }

    /** The scanner phase found findings: record their number, report progress, validate. */
    method Validate(scan: Scan, fs: seq<Dict>, v: ValidationRun, newId: nat -> string, now: real, stamp: string)
      modifies db`scans, db`findings, this`sent
      ensures var c := if v.outcome.Ok? then Stored(scan.id, v.outcome.value, newId, now) else Conversion([], None);
              var counted := scan.(totalFindings := |fs|, validatedFindings := LastProcessed(v.updates, scan.validatedFindings));
              && db.scans == old(db.scans)[scan.id := ClosingScan(counted, v, c, now)]
              && db.findings == old(db.findings) + (if v.outcome.Ok? then c.stored else [])
              && sent == old(sent) + Stamped(scan.id, [FoundIssues(|fs|)] + UpdateEvents(v.updates) + [ClosingEvent(v, c)], stamp)
    {
      ghost var scans0, sent0 := db.scans, sent;
      var s := scan.(totalFindings := |fs|);
      Save(s);
      Broadcast(scan.id, FoundIssues(|fs|), stamp);
      var counted := ReportProgress(s, v.updates, stamp);
      MapOverwrite(scans0, scan.id, s, counted);
      StampedAppend(sent0, scan.id, [FoundIssues(|fs|)], UpdateEvents(v.updates), stamp);
      CloseValidation(counted, v, newId, now, stamp);
      ghost var c := if v.outcome.Ok? then Stored(scan.id, v.outcome.value, newId, now) else Conversion([], None);
      MapOverwrite(scans0, scan.id, counted, ClosingScan(counted, v, c, now));
      StampedAppend(sent0, scan.id, [FoundIssues(|fs|)] + UpdateEvents(v.updates), [ClosingEvent(v, c)], stamp);
    }

    /**
     * `run_scan`: nothing happens unless the scan exists and is pending;
     * otherwise the record ends as `FinalScan` says, the stored findings are
     * added, and the run's messages are broadcast in order.
     */
    method RunScan(scanId: string, scanner: ScannerRun, disk: Scanner.Disk, v: ValidationRun,
                   newId: nat -> string, now: real, stamp: string)
      requires db.Valid()
      modifies db`scans, db`findings, this`sent
      ensures db.Valid()
      ensures scanId !in old(db.scans) || old(db.scans[scanId]).status != Pending ==>
                db.scans == old(db.scans) && db.findings == old(db.findings) && sent == old(sent)
      ensures scanId in old(db.scans) && old(db.scans[scanId]).status == Pending ==>
                var phase := ScanPhaseOf(scanner, disk);
                var c := RunConversion(scanId, phase, v, newId, now);
                && db.scans == old(db.scans)[scanId := FinalScan(old(db.scans[scanId]), phase, v, c, now)]
                && db.findings == old(db.findings) + AddedFindings(phase, v, c)
                && sent == old(sent) + Stamped(scanId, RunEvents(phase, v, c), stamp)
    {
      if scanId !in db.scans || db.scans[scanId].status != Pending {
        return;
      }
      ghost var sent0 := sent;
      var s0 := db.scans[scanId];
      Save(s0.(status := Running, startedAt := Some(now)));
      Broadcast(scanId, Started, stamp);
      var phase := ScanPhaseOf(scanner, disk);
      FinishRun(s0, phase, v, newId, now, stamp);
      ghost var c := RunConversion(scanId, phase, v, newId, now);
      FinalScanKeepsId(s0, phase, v, c, now);
      RunEventsStamped(sent0, scanId, phase, v, c, stamp);
    }

    /** Everything after the scan is marked running, for a given scanner phase. */
    method FinishRun(s0: Scan, phase: ScanPhase, v: ValidationRun, newId: nat -> string, now: real, stamp: string)
      modifies db`scans, db`findings, this`sent
      ensures var c := RunConversion(s0.id, phase, v, newId, now);
              && db.scans == old(db.scans)[s0.id := FinalScan(s0, phase, v, c, now)]
              && db.findings == old(db.findings) + AddedFindings(phase, v, c)
              && sent == old(sent) + Stamped(s0.id, RunEvents(phase, v, c)[1..], stamp)
    {
      var c := RunConversion(s0.id, phase, v, newId, now);
      var scan := s0.(status := Running, startedAt := Some(now));
      match phase {
        case NothingFound =>
          Save(FinalScan(s0, phase, v, c, now));
          Broadcast(s0.id, NothingDetected, stamp);
        case ScanFailed(m) =>
          Save(FinalScan(s0, phase, v, c, now));
          Broadcast(s0.id, ScanError(m), stamp);
        case Found(fs) =>
          Validate(scan, fs, v, newId, now, stamp);
          assert RunEvents(phase, v, c)[1..] == [FoundIssues(|fs|)] + UpdateEvents(v.updates) + [ClosingEvent(v, c)];
      }
    }
  }

  /** A good conversion at position `j`, after `j` good ones, extends the stored findings by one. */
  lemma StoredStep(scanId: string, vs: seq<Dict>, j: nat, newId: nat -> string, now: real, f: Finding)
    requires j < |vs| && Stored(scanId, vs[..j], newId, now).error == None
    requires FromScanFinding(newId(j), scanId, vs[j], now) == Ok(f)
    ensures Stored(scanId, vs[..j + 1], newId, now) == Conversion(Stored(scanId, vs[..j], newId, now).stored + [f], None)
  {
    assert vs[..j + 1][..j] == vs[..j];
  }

  /** A conversion error at position `j`, after `j` good ones, is the error `Stored` reports. */
  lemma StoredStops(scanId: string, vs: seq<Dict>, j: nat, newId: nat -> string, now: real)
    requires j < |vs| && Stored(scanId, vs[..j], newId, now).error == None
    requires FromScanFinding(newId(j), scanId, vs[j], now).Err?
    ensures Stored(scanId, vs, newId, now).stored == Stored(scanId, vs[..j], newId, now).stored
    ensures Stored(scanId, vs, newId, now).error == Some(FromScanFinding(newId(j), scanId, vs[j], now).error)
  {
    var front := Stored(scanId, vs[..j], newId, now);
    assert vs[..j + 1][..j] == vs[..j];
    assert Stored(scanId, vs[..j + 1], newId, now) ==
      Conversion(front.stored, Some(FromScanFinding(newId(j), scanId, vs[j], now).error));
    StoredErrorStays(scanId, vs, j + 1, newId, now);
  }

  /** Once a prefix has failed, the longer prefixes report the same conversion. */
  lemma {:induction false} StoredErrorStays(scanId: string, vs: seq<Dict>, m: nat, newId: nat -> string, now: real)
    requires m <= |vs| && Stored(scanId, vs[..m], newId, now).error.Some?
    ensures Stored(scanId, vs, newId, now) == Stored(scanId, vs[..m], newId, now)
    decreases |vs| - m
  {
    if m < |vs| {
      assert vs[..m + 1][..m] == vs[..m];
      StoredErrorStays(scanId, vs, m + 1, newId, now);
    } else {
      assert vs[..m] == vs;
    }
  }
}
