/**
 * The registry of WebSocket clients watching scans (`ConnectionManager`): a
 * dictionary from scan id to the list of that scan's connections.  Sending
 * is an input: `raises(i)` says whether the send to the i-th connection of
 * the list raised.
 */
module WebSocketManager {
  import opened Common

  /** A client connection, compared by identity. */
  type Socket = int

  /** One attempted send of a broadcast. */
  datatype Delivery = Delivery(socket: Socket, message: Dict, raised: bool)

  /** The connections whose send raised, in the order they were tried. */
  function Failed(conns: seq<Socket>, raises: nat -> bool): (r: seq<Socket>)
    ensures |r| <= |conns|
    ensures multiset(r) <= multiset(conns)
  {
    if conns == [] then []
    else
      var n := |conns| - 1;
      assert conns == conns[..n] + [conns[n]];
      Failed(conns[..n], raises) + (if raises(n) then [conns[n]] else [])
  }

  /** The cleanup loop: each failed connection is removed once, if still present. */
  function RemoveEach(s: seq<Socket>, gone: seq<Socket>): (r: seq<Socket>)
    ensures multiset(r) == multiset(s) - multiset(gone)
    decreases |gone|
  {
    if gone == [] then s
    else
      assert gone == [gone[0]] + gone[1..];
      RemoveEach(RemoveFirst(s, gone[0]), gone[1..])
  }

  /** Send outcomes that depend only on the socket. */
  function PerSocket(conns: seq<Socket>, fails: Socket -> bool): nat -> bool {
    (i: nat) => i < |conns| && fails(conns[i])
  }

  /** How many times `c` occurs among the failed connections when sends fail per socket. */
  lemma FailedCount(conns: seq<Socket>, fails: Socket -> bool, c: Socket)
    ensures var failed := Failed(conns, PerSocket(conns, fails));
      multiset(failed)[c] == (if fails(c) then multiset(conns)[c] else 0)
  {
    FailedCountBy(conns, PerSocket(conns, fails), fails, c);
  }

  /** The same count for any outcomes that agree with `fails` on each position's socket. */
  lemma {:induction false} FailedCountBy(conns: seq<Socket>, raises: nat -> bool, fails: Socket -> bool, c: Socket)
    requires forall i :: 0 <= i < |conns| ==> raises(i) == fails(conns[i])
    ensures multiset(Failed(conns, raises))[c] == (if fails(c) then multiset(conns)[c] else 0)
  {
    if conns != [] {
      var n := |conns| - 1;
      var front := conns[..n];
      FailedCountBy(front, raises, fails, c);
      assert conns == front + [conns[n]];
      assert Failed(conns, raises) == Failed(front, raises) + (if raises(n) then [conns[n]] else []);
    }
  }

  /** `Failed` depends only on the outcomes of the positions it looks at. */
  lemma {:induction false} FailedSameOutcomes(conns: seq<Socket>, a: nat -> bool, b: nat -> bool)
    requires forall i :: 0 <= i < |conns| ==> a(i) == b(i)
    ensures Failed(conns, a) == Failed(conns, b)
  {
    if conns != [] {
      FailedSameOutcomes(conns[..|conns| - 1], a, b);
    }
  }

  /**
   * When whether a send raises depends only on the socket, the cleanup leaves
   * exactly the connections that did not fail, each as often as before.
   */
  lemma FailingSocketsRemoved(conns: seq<Socket>, fails: Socket -> bool)
    ensures var left := RemoveEach(conns, Failed(conns, PerSocket(conns, fails)));
      && (forall c :: c in left ==> !fails(c))
      && (forall c :: !fails(c) ==> multiset(left)[c] == multiset(conns)[c])
  {
    var failed := Failed(conns, PerSocket(conns, fails));
    var left := RemoveEach(conns, failed);
    forall c
      ensures c in left ==> !fails(c)
      ensures !fails(c) ==> multiset(left)[c] == multiset(conns)[c]
    {
      FailedCount(conns, fails, c);
    }
  }

  /** `active_connections.get(scan_id, [])`. */
  function ListOf(active: map<string, seq<Socket>>, scanId: string): seq<Socket> {
    if scanId in active then active[scanId] else []
  }

  class ConnectionManager {
    /** `active_connections`. */
    var active: map<string, seq<Socket>>

    constructor()
      ensures active == map[]
    {
      active := map[];
    }

    /** `get_connection_count`: 0 for an unknown scan, else the length of its list. */
    function Count(scanId: string): (n: nat)
      reads this
      ensures scanId !in active ==> n == 0
      ensures scanId in active ==> n == |active[scanId]|
    {
      if scanId in active then |active[scanId]| else 0
    }

    /** `connect`: the socket is appended to its scan's list, created if absent. */
    method Connect(ws: Socket, scanId: string)
      modifies this
      ensures scanId in active && active[scanId] == (if scanId in old(active) then old(active)[scanId] else []) + [ws]
      ensures forall other :: other != scanId ==> ListOf(active, other) == ListOf(old(active), other)
      ensures active.Keys == old(active).Keys + {scanId}
      ensures Count(scanId) == old(Count(scanId)) + 1
    {
      if scanId !in active {
        active := active[scanId := []];
      }
      active := active[scanId := active[scanId] + [ws]];
    }

    /** `disconnect`: one occurrence is removed, and an emptied list is deleted. */
    method Disconnect(ws: Socket, scanId: string)
      modifies this
      ensures scanId !in old(active) ==> active == old(active)
      ensures scanId in old(active) ==>
                var rest := RemoveFirst(old(active)[scanId], ws);
                active == (if rest == [] then old(active) - {scanId} else old(active)[scanId := rest])
      ensures ws in ListOf(old(active), scanId) ==> Count(scanId) == old(Count(scanId)) - 1
      ensures scanId in active ==> active[scanId] != []
    {
      if scanId in active {
        var conns := active[scanId];
        var rest := RemoveFirst(conns, ws);
        if ws in conns {
          conns := rest;
        }
        if conns == [] {
          active := active - {scanId};
        } else {
          active := active[scanId := conns];
        }
      }
    }

    /**
     * `broadcast_to_scan`: every connection of the scan is sent the message,
     * then those whose send raised are removed.  The list stays even if it
     * empties, and no other scan's list changes.
     */
    method BroadcastToScan(scanId: string, message: Dict, raises: nat -> bool) returns (deliveries: seq<Delivery>)
      modifies this
      ensures var conns := ListOf(old(active), scanId);
        && |deliveries| == |conns|
        && (forall i :: 0 <= i < |conns| ==> deliveries[i] == Delivery(conns[i], message, raises(i)))
      ensures scanId !in old(active) ==> active == old(active)
      ensures scanId in old(active) ==>
                var conns := old(active)[scanId];
                active == old(active)[scanId := RemoveEach(conns, Failed(conns, raises))]
      ensures scanId in old(active) ==>
                multiset(active[scanId]) == multiset(old(active)[scanId]) - multiset(Failed(old(active)[scanId], raises))
    {
      var conns := ListOf(active, scanId);
      var disconnected;
      deliveries, disconnected := SendAll(conns, message, raises);
      if scanId in active {
        var left := conns;
        if disconnected != [] {
          left := Cleaned(conns, disconnected);
        }
        assert left == RemoveEach(conns, disconnected);
        active := active[scanId := left];
      }
    }

  }

  /**
   * The cleanup loop of `broadcast_to_scan` on the scan's list: each failed
   * connection is removed once, if still there.  Nothing else runs in
   * between, so the list is edited on its own and stored back.
   */
  method Cleaned(conns: seq<Socket>, disconnected: seq<Socket>) returns (r: seq<Socket>)
    ensures r == RemoveEach(conns, disconnected)
  {
    r := conns;
    for j := 0 to |disconnected|
      invariant r == RemoveEach(conns, disconnected[..j])
    {
      var conn := disconnected[j];
      RemoveEachPrefix(conns, disconnected, j);
      if conn in r {
        r := RemoveFirst(r, conn);
      }
    }
    assert disconnected[..|disconnected|] == disconnected;
  }

  /** The send loop of `broadcast_to_scan`: every connection is tried, the failures collected. */
  method SendAll(conns: seq<Socket>, message: Dict, raises: nat -> bool) returns (deliveries: seq<Delivery>, disconnected: seq<Socket>)
    ensures |deliveries| == |conns|
    ensures forall i :: 0 <= i < |conns| ==> deliveries[i] == Delivery(conns[i], message, raises(i))
    ensures disconnected == Failed(conns, raises)
  {
    disconnected := [];
    deliveries := [];
    var i := 0;
    while i < |conns|
      invariant 0 <= i <= |conns|
      invariant disconnected == Failed(conns[..i], raises)
      invariant |deliveries| == i
      invariant forall k :: 0 <= k < i ==> deliveries[k] == Delivery(conns[k], message, raises(k))
    {
      FailedPrefix(conns, raises, i);
      DeliveriesSnoc(deliveries, Delivery(conns[i], message, raises(i)), conns, message, raises);
      deliveries := deliveries + [Delivery(conns[i], message, raises(i))];
      if raises(i) {
        disconnected := disconnected + [conns[i]];
      }
      i := i + 1;
    }
    assert conns[..i] == conns;
  }

  /** One more attempted send, recorded after the first ones. */
  lemma DeliveriesSnoc(ds: seq<Delivery>, d: Delivery, conns: seq<Socket>, message: Dict, raises: nat -> bool)
    requires |ds| < |conns| && d == Delivery(conns[|ds|], message, raises(|ds|))
    requires forall k :: 0 <= k < |ds| ==> ds[k] == Delivery(conns[k], message, raises(k))
    ensures forall k :: 0 <= k < |ds| + 1 ==> (ds + [d])[k] == Delivery(conns[k], message, raises(k))
  {
    forall k | 0 <= k < |ds| + 1
      ensures (ds + [d])[k] == Delivery(conns[k], message, raises(k))
    {
      if k < |ds| {
        assert (ds + [d])[k] == ds[k];
      }
    }
  }

  /** The failures among the first i+1 connections extend those among the first i. */
  lemma FailedPrefix(conns: seq<Socket>, raises: nat -> bool, i: nat)
    requires i < |conns|
    ensures Failed(conns[..i + 1], raises) == Failed(conns[..i], raises) + (if raises(i) then [conns[i]] else [])
  {
    assert conns[..i + 1][..i] == conns[..i];
  }

  /** The cleanup of the first j+1 failures is one more step after the first j. */
  lemma RemoveEachPrefix(s: seq<Socket>, gone: seq<Socket>, j: nat)
    requires j < |gone|
    ensures var before := RemoveEach(s, gone[..j]);
      RemoveEach(s, gone[..j + 1]) == if gone[j] in before then RemoveFirst(before, gone[j]) else before
  {
    assert gone[..j + 1] == gone[..j] + [gone[j]];
    RemoveEachSnoc(s, gone[..j], gone[j]);
  }

  /** Removing one more connection extends the cleanup by one step. */
  lemma {:induction false} RemoveEachSnoc(s: seq<Socket>, gone: seq<Socket>, x: Socket)
    ensures RemoveEach(s, gone + [x]) == RemoveFirst(RemoveEach(s, gone), x)
    decreases |gone|
  {
    if gone == [] {
      assert [x][1..] == [];
    } else {
      assert (gone + [x])[1..] == gone[1..] + [x];
      RemoveEachSnoc(RemoveFirst(s, gone[0]), gone[1..], x);
    }
  }
}
