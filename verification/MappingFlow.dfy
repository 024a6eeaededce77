/**
 The mapping command: refuses circuits with more qubits than the device, places the device,
 schedules and routes the circuit, builds the physical circuit and, if asked to, checks it.
 */
module MappingFlow {
  import opened Circuits
  import opened CircuitTopologies
  import opened Devices
  import opened PickingOrder
  import opened Duostra
  import opened CheckerPlans
  import opened CheckerReadings
  import opened MappingCheckers
  import opened Placers
  import opened QCirs
  import opened Routers
  import opened Schedulers
  import opened SharpTimes
  import opened TimedReplay

  // ---------- the physical gates have the arities of the logical ones ----------

  ghost predicate HasEvent(log: seq<Event>, op: Operation)
    requires op.GateOp?
  {
    exists i :: 0 <= i < |log| && log[i].kind == op.kind && |log[i].operands| == |op.qs|
  }

  lemma StepRecords(s: Sim, op: Operation)
    requires SimOk(s, |s.map_|) && op.GateOp? && op.Fits(|s.map_|)
    ensures s.map_[op.qs[0]] < |s.map_| && HasEvent(Step(s, op).log[s.map_[op.qs[0]]], op)
  {
    var l := s.map_[op.qs[0]];
    RecordAt(s, op, l);
    assert Operands(s.map_, op)[0] == l;
    var log := Step(s, op).log[l];
    assert log[|log| - 1] == Event(op.kind, Operands(s.map_, op));
  }

  /** Every operation that is not a swap is recorded somewhere, with as many operands as it has qubits. */
  lemma {:induction false} Recorded(s: Sim, ops: seq<Operation>, i: nat) returns (l: nat)
    requires SimOk(s, |s.map_|) && AllFit(ops, |s.map_|) && i < |ops| && ops[i].GateOp?
    ensures l < |s.map_| && HasEvent(Run(s, ops).log[l], ops[i])
    decreases |ops|
  {
    hide Step;
    var k := |ops| - 1;
    var t := Run(s, ops[..k]);
    if i == k {
      StepRecords(t, ops[k]);
      l := t.map_[ops[k].qs[0]];
    } else {
      l := Recorded(s, ops[..k], i);
      StepKeeps(t, ops[k], l);
      var j :| 0 <= j < |t.log[l]| && t.log[l][j].kind == ops[i].kind && |t.log[l][j].operands| == |ops[i].qs|;
      assert Run(s, ops).log[l][j] == t.log[l][j];
    }
  }

  /** The gates of the circuit have the arities, so those of the operations that simulate it have them, too. */
  lemma OperationsTyped(adj: seq<seq<nat>>, start: seq<PhysicalQubit>, ops: seq<Operation>, qs: seq<PhysicalQubit>,
                        c: Circuit, chains: seq<seq<nat>>, arity: string -> nat, i: nat)
    requires Simulates(adj, start, ops, qs, c, chains) && Typed(c, arity) && i < |ops| && ops[i].GateOp?
    ensures |ops[i].qs| == arity(ops[i].kind)
  {
    var s := DeviceSim(start, seq(|start|, j => []));
    var l := Recorded(s, ops, i);
    var log := FullLog(c, chains, |start|)[l];
    assert HasEvent(log, ops[i]);
    var j :| 0 <= j < |log| && log[j].kind == ops[i].kind && |log[j].operands| == |ops[i].qs|;
    assert l < |chains| && log == Events(c, chains[l], |chains[l]|);
    assert chains[l][j] in chains[l] && log[j] == EventOf(c.gates[chains[l][j]]);
  }

  ghost predicate OpsTyped(ops: seq<Operation>, arity: string -> nat) {
    forall i :: 0 <= i < |ops| && ops[i].GateOp? ==> |ops[i].qs| == arity(ops[i].kind)
  }

  lemma {:induction false} ExpandTyped(ops: seq<Operation>, arity: string -> nat, q: nat, gate: LogicalGate)
    requires OpsTyped(ops, arity) && arity(CX) == 2 && gate in ExpandOn(ops, q)
    ensures |gate.qubits| == arity(gate.kind)
  {
    if |ops| > 0 && gate in ExpandOn(ops[..|ops| - 1], q) {
      ExpandTyped(ops[..|ops| - 1], arity, q, gate);
    }
  }

  lemma PhysicalTyped(c: Circuit, chains: seq<seq<nat>>, ops: seq<Operation>, arity: string -> nat)
    requires Chained(c, chains) && Spells(c.gates, chains, ops) && OpsTyped(ops, arity) && arity(CX) == 2
    ensures Typed(c, arity)
  {
    ChainsInGates(c, chains);
    forall g | g in c.gates ensures |c.gates[g].qubits| == arity(c.gates[g].kind) {
      assert GateShaped(c, g);
      var q := c.gates[g].qubits[0];
      assert q in c.gates[g].qubits && InChains(c, chains, g, q);
      var i :| 0 <= i < |chains[q]| && chains[q][i] == g;
      assert WordOn(c.gates, chains, q)[i] == c.gates[g];
      ExpandTyped(ops, arity, q, c.gates[g]);
    }
  }

  // ---------- the command ----------

  /**
   What happened: the device as placed, the operations, the placement the checker started from, the one it arrived
   at, and what it read.
   */
  datatype Trace = Trace(start: seq<PhysicalQubit>, ops: seq<Operation>, checkedFrom: seq<nat>, labels: seq<nat>, run: Reading)

  /** The device as placed: as it was, or by the placer. */
  ghost predicate StartsFrom(was: seq<PhysicalQubit>, start: seq<PhysicalQubit>, adj: seq<seq<nat>>, useDevice: bool, placer: Placer)
    requires Couplings(adj) && PlacerOk(placer, adj)
  {
    && Occupied(start) == Occupied(was) && |start| == |was|
    && if useDevice then Logicals(start) == Logicals(was) else Inverse(Answer(placer, adj, 0), Logicals(start))
  }

  /**
   Maps a logical circuit onto a device, placed as it is or by a placer.  It is refused exactly when it has too many
   qubits or the checker, if asked for, rejects the result; the physical circuit is the expansion of operations that
   simulate the logical one.  The checker asks the placer once more and starts from its answer: if that is the placement
   the circuit was mapped from, it accepts and leaves nothing.  So it never rejects what another placer than the random
   one has placed, and with the device's own placement nothing if the placer would have chosen the same.
   */
  method Map(logical: QCir, device: Device, useDevice: bool, placer: Placer, tieMin: bool, choice: Choice, verify: bool,
             ghost arity: string -> nat)
    returns (ok: bool, physical: QCir, ghost t: Trace)
    requires logical.Valid() && (forall g :: g in logical.gates <==> g < |logical.gates|)
    requires forall g :: g in logical.gates ==> logical.gates[g].Fits(|logical.first|) && logical.gates[g].kind != SWAP
    requires Typed(logical.View(), arity) && arity(CX) == 2
    requires device.Valid() && Idle(device.qubits) && Connected(device.adj) && PlacerOk(placer, device.adj)
    modifies device
    ensures |logical.first| > |device.adj| ==> !ok && device.qubits == old(device.qubits)
    ensures |logical.first| <= |device.adj| ==>
              && StartsFrom(old(device.qubits), t.start, device.adj, useDevice, placer)
              && Simulates(device.adj, t.start, t.ops, device.qubits, logical.View(), logical.chains)
              && Scheduled(device.adj, t.start, t.ops, logical.View(), choice, tieMin) && Sharp(Occupied(t.start), t.ops)
              && physical.Valid() && |physical.chains| == |device.adj| && Spells(physical.gates, physical.chains, t.ops)
    ensures !verify ==> (ok <==> |logical.first| <= |device.adj|)
    ensures ok && verify ==> Implements(physical.View(), physical.chains, logical.View(), logical.chains, device.adj,
                                        t.checkedFrom, t.labels, t.run)
    ensures ok && verify ==> DownClosed(logical.View(), t.run.passed)
    ensures verify && |logical.first| <= |device.adj| ==>
              && Inverse(Answer(placer, device.adj, 1), t.checkedFrom)
              && (ok <==> exists plan, pos :: Realizes(physical.View(), physical.chains, logical.View(), logical.chains, device.adj,
                                                       t.checkedFrom, plan, pos))
              && (Inverse(Answer(placer, device.adj, 1), Logicals(t.start)) ==> ok && t.run.pos == Ends(logical.chains))
    ensures !useDevice && !placer.Shuffle? ==> (ok <==> |logical.first| <= |device.adj|)
    ensures useDevice && Inverse(Answer(placer, device.adj, 1), Logicals(old(device.qubits))) ==> (ok <==> |logical.first| <= |device.adj|)
  {
    hide Simulates, Guided, Sharp, Scheduled, Spells, Implements, Realizes, Typed, DownClosed, Chained, Ranked, PlacerOk, Connected, Inverse, Answer;
    t := Trace([], [], [], [], Reading({}, [], [], [], [], {}));
    if |logical.first| > |device.adj| {
      physical := new QCir(0);
      return false, physical, t;
    }
    var checkDevice := new Device(device.adj, Logicals(device.qubits));
    PlaceFirst(device, useDevice, placer);
    ghost var start := device.qubits;
    ghost var ops;
    physical, ops := RouteAndBuild(logical, device, tieMin, choice);
    t := t.(start := start, ops := ops);
    ok := true;
    if verify {
      ResultTyped(logical, physical, device.adj, start, ops, device.qubits, arity);
      ghost var from, labels, run;
      ok, from, labels, run := CheckResult(logical, physical, checkDevice, placer, arity);
      AnswersAgree(placer, device.adj);
      SamePlacement(Answer(placer, device.adj, 1), Logicals(start), from);
      SimulationRealizes(physical.View(), physical.chains, logical.View(), logical.chains, device.adj, start, device.qubits, ops);
      t := t.(checkedFrom := from, labels := labels, run := run);
    }
  }

  /** Places the device unless it is used as it is. */
  method PlaceFirst(device: Device, useDevice: bool, placer: Placer)
    requires device.Valid() && Idle(device.qubits) && PlacerOk(placer, device.adj)
    modifies device
    ensures device.Valid() && Idle(device.qubits) && StartsFrom(old(device.qubits), device.qubits, device.adj, useDevice, placer)
  {
    if !useDevice {
      var assign := Place(placer, device.adj, 0);
      PlaceOn(device, assign);
    }
  }

  /** Asks the placer again and runs the checker from there. */
  method CheckResult(logical: QCir, physical: QCir, device: Device, placer: Placer, ghost arity: string -> nat)
    returns (ok: bool, ghost from: seq<nat>, ghost labels: seq<nat>, ghost run: Reading)
    requires physical.Valid() && logical.Valid() && device.Valid() && PlacerOk(placer, device.adj)
    requires |physical.chains| <= |device.adj| && |logical.chains| <= |device.adj|
    requires Typed(physical.View(), arity) && Typed(logical.View(), arity) && arity(CX) == 2
    modifies physical`gateList, physical`dirty, device
    ensures physical.Valid()
    ensures Placement(Answer(placer, device.adj, 1), |device.adj|) && Inverse(Answer(placer, device.adj, 1), from)
    ensures ok ==> Implements(physical.View(), physical.chains, logical.View(), logical.chains, device.adj, from, labels, run)
    ensures ok ==> DownClosed(logical.View(), run.passed)
    ensures ok <==> exists plan, pos :: Realizes(physical.View(), physical.chains, logical.View(), logical.chains, device.adj, from, plan, pos)
    ensures (exists plan :: Realizes(physical.View(), physical.chains, logical.View(), logical.chains, device.adj, from, plan, Ends(logical.chains)))
            ==> run.pos == Ends(logical.chains)
  {
    hide Realizes, Implements, Typed, DownClosed, Chained, Ranked, PlacerOk, Inverse, Answer;
    var assign := Place(placer, device.adj, 1);
    PlaceOn(device, assign);
    from := Logicals(device.qubits);
    var remaining;
    ok, remaining, run := CheckMapping(physical, logical, device, arity);
    labels := Logicals(device.qubits);
  }

  /** Only the random placer changes its mind. */
  lemma AnswersAgree(placer: Placer, adj: seq<seq<nat>>)
    requires Couplings(adj) && PlacerOk(placer, adj)
    ensures !placer.Shuffle? ==> Answer(placer, adj, 1) == Answer(placer, adj, 0)
  {
  }

  /** A placement is determined by where it puts the logical qubits. */
  lemma SamePlacement(assign: seq<nat>, a: seq<nat>, b: seq<nat>)
    requires Placement(assign, |assign|) && Inverse(assign, b)
    ensures Inverse(assign, a) ==> a == b
  {
    if Inverse(assign, a) {
      forall v | 0 <= v < |a| ensures a[v] == b[v] {
        var j := Holder(assign, v);
      }
    }
  }

  lemma ResultTyped(logical: QCir, physical: QCir, adj: seq<seq<nat>>, start: seq<PhysicalQubit>, ops: seq<Operation>,
                    qs: seq<PhysicalQubit>, arity: string -> nat)
    requires logical.Valid() && physical.Valid() && Typed(logical.View(), arity) && arity(CX) == 2
    requires Simulates(adj, start, ops, qs, logical.View(), logical.chains) && Spells(physical.gates, physical.chains, ops)
    ensures Typed(physical.View(), arity) && |logical.chains| == |logical.first|
  {
    hide Simulates, Spells, Typed;
    forall i | 0 <= i < |ops| && ops[i].GateOp? ensures |ops[i].qs| == arity(ops[i].kind) {
      OperationsTyped(adj, start, ops, qs, logical.View(), logical.chains, arity, i);
    }
    PhysicalTyped(physical.View(), physical.chains, ops, arity);
  }
}
