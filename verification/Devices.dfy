/**
 The device: physical qubits with the logical qubit placed on them, the time until which
 they are occupied, and the marks of the routing search.
 */
module Devices {
  import opened TimedReplay

  const SWAP_DELAY := 6
  const DOUBLE_DELAY := 2
  const SINGLE_DELAY := 1

  datatype PhysicalQubit = PhysicalQubit(
    logical: nat, occupied: nat,
    marked: bool, pred: nat, cost: nat, swapTime: nat, source: bool, taken: bool)
  {
    function Mark(source: bool, pred: nat): PhysicalQubit {
      this.(marked := true, source := source, pred := pred)
    }

    function TakeRoute(cost: nat, swapTime: nat): PhysicalQubit {
      this.(cost := cost, swapTime := swapTime, taken := true)
    }

    function Reset(): PhysicalQubit {
      this.(marked := false, taken := false, cost := occupied)
    }
  }

  /** Couplings go both ways, and never from a qubit to itself. */
  predicate Couplings(adj: seq<seq<nat>>) {
    forall u, k :: 0 <= u < |adj| && 0 <= k < |adj[u]| ==> adj[u][k] < |adj| && adj[u][k] != u && u in adj[adj[u][k]]
  }

  predicate Closed(adj: seq<seq<nat>>, s: set<nat>) {
    forall u, k :: 0 <= u < |adj| && u in s && 0 <= k < |adj[u]| ==> adj[u][k] in s
  }

  /** Every non-empty set of qubits that is closed under couplings contains all qubits. */
  ghost predicate Connected(adj: seq<seq<nat>>) {
    forall s: set<nat>, u: nat, v: nat :: u < |adj| && v < |adj| && u in s && Closed(adj, s) ==> v in s
  }

  function Logicals(qubits: seq<PhysicalQubit>): (r: seq<nat>)
    ensures |r| == |qubits| && forall i :: 0 <= i < |qubits| ==> r[i] == qubits[i].logical
  {
    seq(|qubits|, i requires 0 <= i < |qubits| => qubits[i].logical)
  }

  function Occupied(qubits: seq<PhysicalQubit>): (r: seq<nat>)
    ensures |r| == |qubits| && forall i :: 0 <= i < |qubits| ==> r[i] == qubits[i].occupied
  {
    seq(|qubits|, i requires 0 <= i < |qubits| => qubits[i].occupied)
  }

  /** No search is going on: marks are cleared and the cost is the occupied time. */
  predicate Idle(qubits: seq<PhysicalQubit>) {
    forall i :: 0 <= i < |qubits| ==> !qubits[i].marked && !qubits[i].taken && qubits[i].cost == qubits[i].occupied
  }

  /** The labels and times after a swap or a two-qubit gate. */
  predicate GateSets(qs: seq<PhysicalQubit>, op: Operation, qs': seq<PhysicalQubit>)
    requires op.Fits(|qs|) && |op.Qubits()| == 2
  {
    var q0, q1 := op.Qubits()[0], op.Qubits()[1];
    && |qs'| == |qs|
    && forall i :: 0 <= i < |qs| ==>
         && qs'[i].logical == qs[if op.GateOp? then i else if i == q0 then q1 else if i == q1 then q0 else i].logical
         && qs'[i].occupied == if i == q0 || i == q1 then op.end else qs[i].occupied
  }

  lemma GateMatches(qs: seq<PhysicalQubit>, op: Operation, qs': seq<PhysicalQubit>)
    requires Placement(Logicals(qs), |qs|) && op.Fits(|qs|) && |op.Qubits()| == 2 && GateSets(qs, op, qs')
    ensures forall log: seq<seq<Event>> :: |log| == |qs| ==>
              var s := Step(Sim(Logicals(qs), Occupied(qs), log), op);
              s.map_ == Logicals(qs') && s.busy == Occupied(qs')
    ensures Placement(Logicals(qs'), |qs|)
  {
    assert Busy(Occupied(qs), op) == Occupied(qs');
    var m := Logicals(qs);
    if op.SwapOp? {
      assert m[op.a := m[op.b]][op.b := m[op.a]] == Logicals(qs');
    } else {
      assert m == Logicals(qs');
    }
    var s := Sim(m, Occupied(qs), seq(|qs|, i => []));
    assert Step(s, op).map_ == Logicals(qs');
  }

  class Device {
    const adj: seq<seq<nat>>
    var qubits: seq<PhysicalQubit>

    ghost predicate Valid()
      reads this
    {
      Couplings(adj) && |qubits| == |adj| && Placement(Logicals(qubits), |adj|)
    }

    constructor (adj: seq<seq<nat>>, placement: seq<nat>)
      requires Couplings(adj) && Placement(placement, |adj|)
      ensures this.adj == adj && Valid() && Idle(qubits)
      ensures Logicals(qubits) == placement && forall i :: 0 <= i < |adj| ==> qubits[i].occupied == 0
    {
      this.adj := adj;
      qubits := seq(|placement|, i requires 0 <= i < |placement| =>
        PhysicalQubit(placement[i], 0, false, 0, 0, 0, false, false));
    }

    predicate IsAdjacent(a: nat, b: nat)
      requires a < |adj|
      reads this
    {
      b in adj[a]
    }

    /** Applies a swap or a two-qubit gate: a swap exchanges the logical qubits, both set the occupied times. */
    method ApplyGate(op: Operation)
      requires Valid() && op.Fits(|adj|) && |op.Qubits()| == 2
      requires op.end == op.start + (if op.SwapOp? then SWAP_DELAY else DOUBLE_DELAY)
      modifies this
      ensures Valid()
      ensures forall log: seq<seq<Event>> :: |log| == |adj| ==>
                var s := Step(Sim(Logicals(old(qubits)), Occupied(old(qubits)), log), op);
                s.map_ == Logicals(qubits) && s.busy == Occupied(qubits)
    {
      var q0, q1 := op.Qubits()[0], op.Qubits()[1];
      if op.SwapOp? {
        var temp := qubits[q0].logical;
        qubits := qubits[q0 := qubits[q0].(logical := qubits[q1].logical)];
        qubits := qubits[q1 := qubits[q1].(logical := temp)];
        qubits := qubits[q0 := qubits[q0].(occupied := op.start + SWAP_DELAY)];
        qubits := qubits[q1 := qubits[q1].(occupied := op.start + SWAP_DELAY)];
      } else {
        qubits := qubits[q0 := qubits[q0].(occupied := op.start + DOUBLE_DELAY)];
        qubits := qubits[q1 := qubits[q1].(occupied := op.start + DOUBLE_DELAY)];
      }
      GateMatches(old(qubits), op, qubits);
    }

    /** Ends a search. */
    method ResetAll()
      requires Valid()
      modifies this
      ensures Valid() && Idle(qubits)
      ensures Logicals(qubits) == Logicals(old(qubits)) && Occupied(qubits) == Occupied(old(qubits))
    {
      for i := 0 to |qubits|
        invariant |qubits| == |old(qubits)|
        invariant forall j :: 0 <= j < i ==> qubits[j] == old(qubits)[j].Reset()
        invariant forall j :: i <= j < |qubits| ==> qubits[j] == old(qubits)[j]
      {
        qubits := qubits[i := qubits[i].Reset()];
      }
      assert Logicals(qubits) == Logicals(old(qubits));
      assert Occupied(qubits) == Occupied(old(qubits));
    }
  }
}
