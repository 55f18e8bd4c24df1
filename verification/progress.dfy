/**
 * Progress tracking for a validation run (semgrepai/async_utils/progress.py).
 *
 * A tracker holds a counter of processed items out of a total, one of five
 * statuses, the item being worked on, a map of integer metrics, and a list of
 * callbacks. Every mutator changes the fields, then hands one snapshot of
 * the new state to every callback in list order; a callback that raises is
 * ignored and the remaining callbacks still run.
 *
 * Callbacks are identified by numbers. Whether a callback raises on a given
 * snapshot is outside the tracker, so it is a parameter (`Raises`). What the
 * callbacks received is kept in the `deliveries` log.
 */
module Progress {
  import opened Common

  datatype ProgressStatus = Pending | Running | Completed | Failed | Cancelled

  /** The six counters a new tracker starts with. */
  const MetricNames: set<string> :=
    {"cache_hits", "cache_misses", "true_positives", "false_positives", "needs_review", "errors"}

  /** A snapshot of a tracker (`ProgressUpdate`). Timestamps are clock ticks. */
  datatype ProgressUpdate = ProgressUpdate(
    total: int,
    processed: int,
    status: ProgressStatus,
    currentItem: Option<Dict>,
    metrics: map<string, int>,
    startedAt: Option<nat>,
    errorMessage: Option<string>)
  {
    /** `processed / total * 100`, or 0 for an empty run; never clamped. */
    function Percentage(): (p: real)
      ensures total == 0 ==> p == 0.0
      ensures total != 0 ==> p * (total as real) == (processed as real) * 100.0
    {
      if total == 0 then 0.0 else (processed as real) / (total as real) * 100.0
    }

    /** COMPLETED, FAILED and CANCELLED are the terminal statuses. */
    predicate IsComplete() {
      status == Completed || status == Failed || status == Cancelled
    }
  }

  /** The state of a tracker created for `total` items. */
  function Initial(total: int): ProgressUpdate {
    ProgressUpdate(total, 0, Pending, None, map m | m in MetricNames :: 0, None, None)
  }

  /** State after `start()` at time `now`. */
  function AfterStart(u: ProgressUpdate, now: nat): (r: ProgressUpdate)
    ensures r.status == Running && r.startedAt == Some(now)
    ensures r.(status := u.status, startedAt := u.startedAt) == u
  {
    u.(status := Running, startedAt := Some(now))
  }

  /**
   * State after `update(processed, increment, current_item, metrics_update)`:
   * an absolute count wins over the increment, an absent item keeps the old
   * one, and the metric update overwrites its own keys only.
   */
  function AfterUpdate(u: ProgressUpdate, processed: Option<int>, increment: int,
                       item: Option<Dict>, metricsUpdate: map<string, int>): (r: ProgressUpdate)
    ensures processed.Some? ==> r.processed == processed.value
    ensures processed.None? ==> r.processed == u.processed + increment
    ensures r.currentItem == if item.Some? then item else u.currentItem
    ensures r.metrics.Keys == u.metrics.Keys + metricsUpdate.Keys
    ensures forall k :: k in metricsUpdate ==> r.metrics[k] == metricsUpdate[k]
    ensures forall k :: k in u.metrics && k !in metricsUpdate ==> r.metrics[k] == u.metrics[k]
    ensures r.total == u.total && r.status == u.status
    ensures r.startedAt == u.startedAt && r.errorMessage == u.errorMessage
  {
    var p := if processed.Some? then processed.value else u.processed + increment;
    var cur := if item.Some? then item else u.currentItem;
    var ms := if metricsUpdate != map[] then u.metrics + metricsUpdate else u.metrics;
    u.(processed := p, currentItem := cur, metrics := ms)
  }

  /** State after `increment_metric(name, amount)`: a missing counter starts at `amount`. */
  function AfterIncrement(u: ProgressUpdate, name: string, amount: int): (r: ProgressUpdate)
    ensures name in r.metrics
    ensures r.metrics[name] == (if name in u.metrics then u.metrics[name] else 0) + amount
    ensures r.metrics.Keys == u.metrics.Keys + {name}
    ensures forall k :: k in u.metrics && k != name ==> r.metrics[k] == u.metrics[k]
    ensures r.(metrics := u.metrics) == u
  {
    if name in u.metrics then u.(metrics := u.metrics[name := u.metrics[name] + amount])
    else u.(metrics := u.metrics[name := amount])
  }

  /** State after `complete()`. */
  function AfterComplete(u: ProgressUpdate): ProgressUpdate {
    u.(status := Completed, processed := u.total, currentItem := None)
  }

  /** State after `fail(message)`. */
  function AfterFail(u: ProgressUpdate, message: string): ProgressUpdate {
    u.(status := Failed, errorMessage := Some(message), currentItem := None)
  }

  /** State after `cancel()`. */
  function AfterCancel(u: ProgressUpdate): ProgressUpdate {
    u.(status := Cancelled, currentItem := None)
  }

  /** Whether callback `cb` raises when handed snapshot `u`. */
  type Raises = (nat, ProgressUpdate) -> bool

  /** One call of a callback: who was called, with which snapshot, and whether it raised. */
  datatype Delivery = Delivery(callback: nat, update: ProgressUpdate, raised: bool)

  /** The calls `_notify_callbacks` makes: every callback in list order, all with the same snapshot. */
  function Notified(callbacks: seq<nat>, u: ProgressUpdate, raises: Raises): (r: seq<Delivery>)
    ensures |r| == |callbacks|
    ensures forall i :: 0 <= i < |r| ==> r[i].callback == callbacks[i] && r[i].update == u
  {
    if callbacks == [] then []
    else
      var last := callbacks[|callbacks| - 1];
      Notified(callbacks[..|callbacks| - 1], u, raises) + [Delivery(last, u, raises(last, u))]
  }

  /** A new tracker has counted nothing, is not finished and has every named metric at 0. */
  lemma InitialState(total: int)
    ensures Initial(total).processed == 0 && Initial(total).status == Pending
    ensures !Initial(total).IsComplete()
    ensures Initial(total).metrics.Keys == MetricNames
    ensures forall m :: m in MetricNames ==> Initial(total).metrics[m] == 0
    ensures total == 0 ==> Initial(total).Percentage() == 0.0
  {
  }

  /** Progress inside the run stays within 0..100 percent, and a full count is exactly 100. */
  lemma PercentageRange(u: ProgressUpdate)
    requires 0 <= u.processed <= u.total && u.total > 0
    ensures 0.0 <= u.Percentage() <= 100.0
    ensures u.processed == u.total ==> u.Percentage() == 100.0
  {
    var t, p := u.total as real, u.processed as real;
    assert u.Percentage() * t == p * 100.0;
    assert p * 100.0 <= t * 100.0;
  }

  /** The percentage is not clamped: counting past the total reports more than 100. */
  lemma PercentageNotClamped(u: ProgressUpdate)
    requires u.total > 0 && u.processed > u.total
    ensures u.Percentage() > 100.0
  {
    var t, p := u.total as real, u.processed as real;
    assert u.Percentage() * t == p * 100.0;
    assert p * 100.0 > t * 100.0;
  }

  /**
   * complete/fail/cancel all end in a terminal status and clear the current
   * item; complete fills the count, fail keeps it and records the message.
   * None of them checks the previous status, so fail and cancel overwrite a
   * completed run.
   */
  lemma TerminalTransitions(u: ProgressUpdate, message: string)
    ensures AfterComplete(u).IsComplete() && AfterFail(u, message).IsComplete() && AfterCancel(u).IsComplete()
    ensures AfterComplete(u).processed == u.total && AfterComplete(u).currentItem == None
    ensures u.total != 0 ==> AfterComplete(u).Percentage() == 100.0
    ensures AfterFail(u, message).processed == u.processed && AfterFail(u, message).errorMessage == Some(message)
    ensures AfterCancel(u).processed == u.processed && AfterCancel(u).currentItem == None
    ensures AfterFail(AfterComplete(u), message).status == Failed
    ensures AfterCancel(AfterComplete(u)).status == Cancelled
  {
    if u.total != 0 {
      FullPercentage(AfterComplete(u));
    }
  }

  /** A count equal to a non-zero total is exactly 100 percent. */
  lemma FullPercentage(u: ProgressUpdate)
    requires u.total != 0 && u.processed == u.total
    ensures u.Percentage() == 100.0
  {
    var t := u.total as real;
    assert u.Percentage() * t == t * 100.0;
    assert (u.Percentage() - 100.0) * t == 0.0;
  }

  /** An absolute count may move the counter backwards. */
  lemma AbsoluteCountMayDecrease(u: ProgressUpdate, n: int)
    requires n < u.processed
    ensures AfterUpdate(u, Some(n), 1, None, map[]).processed < u.processed
  {
  }

  /** Two increments of one metric add up. */
  lemma {:induction false} IncrementsAdd(u: ProgressUpdate, name: string, a: int, b: int)
    ensures AfterIncrement(AfterIncrement(u, name, a), name, b) == AfterIncrement(u, name, a + b)
  {
    var once := AfterIncrement(u, name, a + b);
    var twice := AfterIncrement(AfterIncrement(u, name, a), name, b);
    assert twice.metrics == once.metrics;
  }

  class AsyncProgressTracker {
    var total: int
    var processed: int
    var status: ProgressStatus
    var currentItem: Option<Dict>
    var metrics: map<string, int>
    var startedAt: Option<nat>
    var errorMessage: Option<string>
    var callbacks: seq<nat>
    /** What the callbacks have been handed so far. */
    var deliveries: seq<Delivery>

    /** `current_update`: a snapshot whose metrics map is a copy (maps are values here). */
    function Snapshot(): ProgressUpdate
      reads this
    {
      ProgressUpdate(total, processed, status, currentItem, metrics, startedAt, errorMessage)
    }

    constructor(total: int)
      ensures Snapshot() == Initial(total)
      ensures callbacks == [] && deliveries == []
    {
      this.total := total;
      processed := 0;
      status := Pending;
      currentItem := None;
      metrics := map m | m in MetricNames :: 0;
      startedAt := None;
      errorMessage := None;
      callbacks := [];
      deliveries := [];
    }

    method AddCallback(cb: nat)
      modifies this`callbacks
      ensures callbacks == old(callbacks) + [cb]
    {
      callbacks := callbacks + [cb];
    }

    /** Removes the first registration of `cb`; an unknown callback is ignored. */
    method RemoveCallback(cb: nat)
      modifies this`callbacks
      ensures callbacks == RemoveFirst(old(callbacks), cb)
    {
      if cb in callbacks {
        callbacks := RemoveFirst(callbacks, cb);
      }
    }

    /** `_notify_callbacks`: one snapshot, every callback in order, failures swallowed. */
    method NotifyCallbacks(raises: Raises)
      modifies this`deliveries
      ensures deliveries == old(deliveries) + Notified(callbacks, Snapshot(), raises)
    {
      var update := Snapshot();
      var i := 0;
      while i < |callbacks|
        invariant 0 <= i <= |callbacks|
        invariant deliveries == old(deliveries) + Notified(callbacks[..i], update, raises)
      {
        var cb := callbacks[i];
        var raised := raises(cb, update);
        // the exception, if any, is caught and the loop goes on
        deliveries := deliveries + [Delivery(cb, update, raised)];
        assert callbacks[..i + 1][..i] == callbacks[..i];
        i := i + 1;
      }
      assert callbacks[..i] == callbacks;
    }

    method Start(now: nat, raises: Raises)
      modifies this
      ensures Snapshot() == AfterStart(old(Snapshot()), now)
      ensures callbacks == old(callbacks)
      ensures deliveries == old(deliveries) + Notified(callbacks, Snapshot(), raises)
    {
      status := Running;
      startedAt := Some(now);
      NotifyCallbacks(raises);
    }

    method Update(newProcessed: Option<int>, increment: int, item: Option<Dict>,
                  metricsUpdate: map<string, int>, raises: Raises)
      modifies this
      ensures Snapshot() == AfterUpdate(old(Snapshot()), newProcessed, increment, item, metricsUpdate)
      ensures callbacks == old(callbacks)
      ensures deliveries == old(deliveries) + Notified(callbacks, Snapshot(), raises)
    {
      if newProcessed.Some? {
        processed := newProcessed.value;
      } else {
        processed := processed + increment;
      }
      if item.Some? {
        currentItem := item;
      }
      if metricsUpdate != map[] {
        metrics := metrics + metricsUpdate;
      }
      NotifyCallbacks(raises);
    }

    method IncrementMetric(name: string, amount: int, raises: Raises)
      modifies this
      ensures Snapshot() == AfterIncrement(old(Snapshot()), name, amount)
      ensures callbacks == old(callbacks)
      ensures deliveries == old(deliveries) + Notified(callbacks, Snapshot(), raises)
    {
      if name in metrics {
        metrics := metrics[name := metrics[name] + amount];
      } else {
        metrics := metrics[name := amount];
      }
      NotifyCallbacks(raises);
    }

    method Complete(raises: Raises)
      modifies this
      ensures Snapshot() == AfterComplete(old(Snapshot()))
      ensures callbacks == old(callbacks)
      ensures deliveries == old(deliveries) + Notified(callbacks, Snapshot(), raises)
    {
      status := Completed;
      processed := total;
      currentItem := None;
      NotifyCallbacks(raises);
    }

    method Fail(message: string, raises: Raises)
      modifies this
      ensures Snapshot() == AfterFail(old(Snapshot()), message)
      ensures callbacks == old(callbacks)
      ensures deliveries == old(deliveries) + Notified(callbacks, Snapshot(), raises)
    {
      status := Failed;
      errorMessage := Some(message);
      currentItem := None;
      NotifyCallbacks(raises);
    }

    method Cancel(raises: Raises)
      modifies this
      ensures Snapshot() == AfterCancel(old(Snapshot()))
      ensures callbacks == old(callbacks)
      ensures deliveries == old(deliveries) + Notified(callbacks, Snapshot(), raises)
    {
      status := Cancelled;
      currentItem := None;
      NotifyCallbacks(raises);
    }
  }

  /** Trackers for several scans, keyed by scan id. */
  class MultiProgressTracker {
    var trackers: map<string, AsyncProgressTracker>

    constructor()
      ensures trackers == map[]
    {
      trackers := map[];
    }

    /** A fresh tracker replaces whatever was registered under `scanId`. */
    method CreateTracker(scanId: string, total: int) returns (t: AsyncProgressTracker)
      modifies this
      ensures fresh(t) && t.Snapshot() == Initial(total) && t.callbacks == [] && t.deliveries == []
      ensures trackers == old(trackers)[scanId := t]
    {
      t := new AsyncProgressTracker(total);
      trackers := trackers[scanId := t];
    }

    function GetTracker(scanId: string): (r: Option<AsyncProgressTracker>)
      reads this
      ensures r.Some? <==> scanId in trackers
      ensures r.Some? ==> r.value == trackers[scanId]
    {
      if scanId in trackers then Some(trackers[scanId]) else None
    }

    /** `pop(scan_id, None)`: removing an unknown id changes nothing. */
    method RemoveTracker(scanId: string)
      modifies this
      ensures trackers == old(trackers) - {scanId}
      ensures scanId !in old(trackers) ==> trackers == old(trackers)
    {
      trackers := trackers - {scanId};
    }

    function GetAllUpdates(): (r: map<string, ProgressUpdate>)
      reads this, trackers.Values
      ensures r.Keys == trackers.Keys
      ensures forall id :: id in r ==> r[id] == trackers[id].Snapshot()
    {
      map id | id in trackers :: trackers[id].Snapshot()
    }
  }
}
