/**
 The whole mapping: schedules and routes a logical circuit on a device, and builds the
 physical circuit, in which every swap becomes three CX.
 */
module Duostra {
  import opened Circuits
  import opened CircuitTopologies
  import opened Devices
  import opened PickingOrder
  import opened QCirs
  import opened Routers
  import opened Schedulers
  import opened SharpTimes
  import opened TimedReplay

  const CX := "cx"

  /** The gates an operation becomes. */
  function Expand(op: Operation): seq<LogicalGate> {
    if op.SwapOp? then [LogicalGate(CX, [op.a, op.b]), LogicalGate(CX, [op.b, op.a]), LogicalGate(CX, [op.a, op.b])]
    else [LogicalGate(op.kind, op.qs)]
  }

  function GateDelay(gate: LogicalGate): nat { if |gate.qubits| == 1 then SINGLE_DELAY else DOUBLE_DELAY }

  function TotalDelay(gates: seq<LogicalGate>): nat {
    if |gates| == 0 then 0 else GateDelay(gates[0]) + TotalDelay(gates[1..])
  }

  /** An operation takes as long as the gates it becomes: one unit for a single qubit, two for a pair, six for a swap. */
  lemma DelayOfGates(op: Operation, n: nat)
    requires op.Fits(n)
    ensures Delay(op) == TotalDelay(Expand(op))
    ensures Delay(op) == if op.SwapOp? then 6 else |op.qs|
  {
    var gates := Expand(op);
    if op.SwapOp? {
      assert TotalDelay(gates[1..]) == GateDelay(gates[1]) + TotalDelay(gates[2..]);
      assert gates[1..][1..] == gates[2..];
      assert TotalDelay(gates[2..]) == GateDelay(gates[2]) + TotalDelay(gates[2..][1..]);
    } else {
      assert gates[1..] == [];
    }
  }

  /** The gates on a physical qubit when the operations are expanded one after the other. */
  function ExpandOn(ops: seq<Operation>, q: nat): seq<LogicalGate> {
    if |ops| == 0 then []
    else ExpandOn(ops[..|ops| - 1], q) + if q in ops[|ops| - 1].Qubits() then Expand(ops[|ops| - 1]) else []
  }

  /** On every physical qubit the circuit is the expansion of the operations. */
  ghost predicate Spells(gates: map<nat, LogicalGate>, chains: seq<seq<nat>>, ops: seq<Operation>) {
    forall q: nat :: q < |chains| ==> WordOn(gates, chains, q) == ExpandOn(ops, q)
  }

  lemma ExpandNext(ops: seq<Operation>, k: nat, q: nat)
    requires k < |ops|
    ensures ExpandOn(ops[..k + 1], q) == ExpandOn(ops[..k], q) + if q in ops[k].Qubits() then Expand(ops[k]) else []
  {
    assert ops[..k + 1][..k] == ops[..k];
  }

  /** The circuit says what it said before, and then the given gates where they act. */
  ghost predicate SaysMore(g0: map<nat, LogicalGate>, c0: seq<seq<nat>>, g1: map<nat, LogicalGate>, c1: seq<seq<nat>>, qubits: seq<nat>, more: seq<LogicalGate>) {
    |c1| == |c0| && forall q: nat :: WordOn(g1, c1, q) == WordOn(g0, c0, q) + if q in qubits && q < |c0| then more else []
  }

  lemma SaysNothing(g: map<nat, LogicalGate>, c: seq<seq<nat>>, qubits: seq<nat>)
    ensures SaysMore(g, c, g, c, qubits, [])
  {
  }

  lemma SpellsNext(g0: map<nat, LogicalGate>, c0: seq<seq<nat>>, g1: map<nat, LogicalGate>, c1: seq<seq<nat>>, ops: seq<Operation>, k: nat)
    requires k < |ops| && Spells(g0, c0, ops[..k]) && SaysMore(g0, c0, g1, c1, ops[k].Qubits(), Expand(ops[k]))
    ensures Spells(g1, c1, ops[..k + 1])
  {
    forall q: nat | q < |c1| ensures WordOn(g1, c1, q) == ExpandOn(ops[..k + 1], q) {
      ExpandNext(ops, k, q);
      assert WordOn(g0, c0, q) == ExpandOn(ops[..k], q);
    }
  }

  lemma SaysBoth(g0: map<nat, LogicalGate>, c0: seq<seq<nat>>, g1: map<nat, LogicalGate>, c1: seq<seq<nat>>, g2: map<nat, LogicalGate>, c2: seq<seq<nat>>,
                 qubits: seq<nat>, qubits': seq<nat>, more: seq<LogicalGate>, gate: LogicalGate)
    requires SaysMore(g0, c0, g1, c1, qubits, more) && SaysMore(g1, c1, g2, c2, qubits', [gate])
    requires forall q :: q in qubits <==> q in qubits'
    ensures SaysMore(g0, c0, g2, c2, qubits, more + [gate])
  {
    hide WordOn;
    forall q: nat ensures WordOn(g2, c2, q) == WordOn(g0, c0, q) + if q in qubits && q < |c0| then more + [gate] else [] {
      var here := q in qubits && q < |c0|;
      assert here == (q in qubits' && q < |c1|);
      assert WordOn(g1, c1, q) == WordOn(g0, c0, q) + if here then more else [];
      assert WordOn(g2, c2, q) == WordOn(g1, c1, q) + if here then [gate] else [];
      GrownTwice(WordOn(g0, c0, q), WordOn(g1, c1, q), WordOn(g2, c2, q), here, more, gate);
    }
  }

  lemma GrownTwice(w0: seq<LogicalGate>, w1: seq<LogicalGate>, w2: seq<LogicalGate>, here: bool, more: seq<LogicalGate>, gate: LogicalGate)
    requires w1 == w0 + (if here then more else []) && w2 == w1 + if here then [gate] else []
    ensures w2 == w0 + if here then more + [gate] else []
  {
  }

  /** Appends a further gate of an operation. */
  method AppendFurther(circuit: QCir, gate: LogicalGate, ghost g0: map<nat, LogicalGate>, ghost c0: seq<seq<nat>>, ghost qubits: seq<nat>, ghost said: seq<LogicalGate>)
    requires circuit.Valid() && gate.Shape(|circuit.first|)
    requires SaysMore(g0, c0, circuit.gates, circuit.chains, qubits, said) && forall q :: q in qubits <==> q in gate.qubits
    modifies circuit
    ensures circuit.Valid() && |circuit.first| == |old(circuit.first)|
    ensures SaysMore(g0, c0, circuit.gates, circuit.chains, qubits, said + [gate])
  {
    ghost var g1, c1 := circuit.gates, circuit.chains;
    AppendSaying(circuit, gate);
    SaysBoth(g0, c0, g1, c1, circuit.gates, circuit.chains, qubits, gate.qubits, said, gate);
  }

  /** Appends the gates of one operation: three CX for a swap. */
  method AppendOperation(circuit: QCir, op: Operation)
    requires circuit.Valid() && op.Fits(|circuit.first|)
    modifies circuit
    ensures circuit.Valid() && |circuit.first| == |old(circuit.first)|
    ensures SaysMore(old(circuit.gates), old(circuit.chains), circuit.gates, circuit.chains, op.Qubits(), Expand(op))
  {
    ghost var g0, c0, qubits := circuit.gates, circuit.chains, op.Qubits();
    SaysNothing(g0, c0, qubits);
    if op.SwapOp? {
      var there, back := LogicalGate(CX, [op.a, op.b]), LogicalGate(CX, [op.b, op.a]);
      AppendFurther(circuit, there, g0, c0, qubits, []);
      AppendFurther(circuit, back, g0, c0, qubits, [] + [there]);
      AppendFurther(circuit, there, g0, c0, qubits, [] + [there] + [back]);
      assert Expand(op) == [] + [there] + [back] + [there];
    } else {
      AppendFurther(circuit, LogicalGate(op.kind, op.qs), g0, c0, qubits, []);
      assert Expand(op) == [] + [LogicalGate(op.kind, op.qs)];
    }
  }

  method AppendSaying(circuit: QCir, gate: LogicalGate)
    requires circuit.Valid() && gate.Shape(|circuit.first|)
    modifies circuit
    ensures circuit.Valid() && |circuit.first| == |old(circuit.first)|
    ensures SaysMore(old(circuit.gates), old(circuit.chains), circuit.gates, circuit.chains, gate.qubits, [gate])
  {
    ghost var c, chains := circuit.View(), circuit.chains;
    var id := circuit.Append(gate);
    forall q: nat ensures WordOn(circuit.gates, circuit.chains, q) == WordOn(c.gates, chains, q) + if q in gate.qubits && q < |chains| then [gate] else [] {
      GrownWord(c, chains, gate, id, q);
    }
  }

  /** The physical circuit of a list of operations. */
  method BuildCircuitByResult(n: nat, ops: seq<Operation>) returns (circuit: QCir)
    requires AllFit(ops, n)
    ensures fresh(circuit) && circuit.Valid() && |circuit.chains| == n
    ensures Spells(circuit.gates, circuit.chains, ops)
  {
    circuit := new QCir(n);
    assert Spells(circuit.gates, circuit.chains, []);
    AppendOperations(circuit, ops);
  }

  method AppendOperations(circuit: QCir, ops: seq<Operation>)
    requires circuit.Valid() && AllFit(ops, |circuit.first|) && Spells(circuit.gates, circuit.chains, [])
    modifies circuit
    ensures circuit.Valid() && |circuit.chains| == |old(circuit.chains)|
    ensures Spells(circuit.gates, circuit.chains, ops)
  {
    hide Spells, SaysMore, Expand, WordOn;
    assert ops[..0] == [];
    var k := 0;
    while k < |ops|
      invariant k <= |ops| && circuit.Valid() && |circuit.first| == |old(circuit.first)|
      invariant Spells(circuit.gates, circuit.chains, ops[..k])
    {
      ghost var g0, c0 := circuit.gates, circuit.chains;
      AppendOperation(circuit, ops[k]);
      SpellsNext(g0, c0, circuit.gates, circuit.chains, ops, k);
      k := k + 1;
    }
    assert ops[..|ops|] == ops;
  }

  /** Schedules and routes a logical circuit. */
  method RouteAll(logical: QCir, device: Device, tieMin: bool, choice: Choice) returns (ops: seq<Operation>)
    requires logical.Valid() && (forall g :: g in logical.gates <==> g < |logical.gates|)
    requires device.Valid() && Idle(device.qubits) && Connected(device.adj) && Routable(logical.View(), |device.adj|)
    modifies device
    ensures device.Valid()
    ensures Simulates(device.adj, old(device.qubits), ops, device.qubits, logical.View(), logical.chains)
    ensures Guided(old(device.qubits), ops, logical.View(), logical.chains) && Sharp(Occupied(old(device.qubits)), ops)
    ensures Scheduled(device.adj, old(device.qubits), ops, logical.View(), choice, tieMin)
  {
    hide Simulates, Guided, Sharp, Scheduled, Connected, Chained, Ranked, Inverse, Routable, Idle;
    var topology := new CircuitTopology(logical.View(), logical.chains, logical.rank);
    var router := new Router(device, tieMin);
    var scheduler := new Scheduler(topology, router);
    scheduler.AssignAndSort(choice);
    ops := scheduler.operations;
  }

  lemma SimulatesFits(adj: seq<seq<nat>>, start: seq<PhysicalQubit>, ops: seq<Operation>, qs: seq<PhysicalQubit>, c: Circuit, chains: seq<seq<nat>>)
    requires Simulates(adj, start, ops, qs, c, chains)
    ensures AllFit(ops, |adj|)
  {
  }

  /**
   Routes a logical circuit: the physical circuit is the expansion of operations that simulate the logical circuit
   from the placement the device had, and no swap exchanges two logical qubits that wait for the same gate.
   */
  method RouteAndBuild(logical: QCir, device: Device, tieMin: bool, choice: Choice) returns (physical: QCir, ghost ops: seq<Operation>)
    requires logical.Valid() && (forall g :: g in logical.gates <==> g < |logical.gates|)
    requires device.Valid() && Idle(device.qubits) && Connected(device.adj) && Routable(logical.View(), |device.adj|)
    modifies device
    ensures device.Valid()
    ensures Simulates(device.adj, old(device.qubits), ops, device.qubits, logical.View(), logical.chains)
    ensures Guided(old(device.qubits), ops, logical.View(), logical.chains) && Sharp(Occupied(old(device.qubits)), ops)
    ensures Scheduled(device.adj, old(device.qubits), ops, logical.View(), choice, tieMin)
    ensures fresh(physical) && physical.Valid() && |physical.chains| == |device.adj|
    ensures Spells(physical.gates, physical.chains, ops)
  {
    hide Simulates, Guided, Sharp, Scheduled, Spells, Connected, Chained, Ranked;
    var result := RouteAll(logical, device, tieMin, choice);
    SimulatesFits(device.adj, old(device.qubits), result, device.qubits, logical.View(), logical.chains);
    physical := BuildCircuitByResult(|device.adj|, result);
    ops := result;
  }
}
