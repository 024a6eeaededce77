/**
 Which physical circuits a checker of a mapping accepts. A plan is a list of operations whose
 expansion the circuit is; whatever topological order the checker reads the gates in, the plan
 can be reordered so that it starts with the operations found, and the next one is the one read.
 */
module CheckerPlans {
  import opened CheckerReadings
  import opened Circuits
  import opened Devices
  import opened Duostra
  import opened QCirs
  import opened Routers
  import opened Schedulers
  import opened SwapPurposes
  import opened TimedReplay

  // ---------- plans ----------

  predicate AllCoupled(adj: seq<seq<nat>>, ops: seq<Operation>) { forall i :: 0 <= i < |ops| ==> Coupled(adj, ops[i]) }

  predicate UpTo(chains: seq<seq<nat>>, pos: seq<nat>) {
    |pos| == |chains| && forall l :: 0 <= l < |chains| ==> pos[l] <= |chains[l]|
  }

  /** The ends of all chains. */
  function Ends(chains: seq<seq<nat>>): (r: seq<nat>)
    ensures |r| == |chains| && forall l :: 0 <= l < |chains| ==> r[l] == |chains[l]|
  {
    seq(|chains|, l requires 0 <= l < |chains| => |chains[l]|)
  }

  /**
   The physical circuit is the expansion of the plan; from the placement m0 the plan executes the logical circuit up
   to the positions, on coupled qubits, and none of its swaps exchanges two logical qubits that wait for the same CX.
   */
  ghost predicate Realizes(pc: Circuit, pchains: seq<seq<nat>>, lc: Circuit, lchains: seq<seq<nat>>, adj: seq<seq<nat>>, m0: seq<nat>,
                           plan: seq<Operation>, pos: seq<nat>) {
    && Placement(m0, |adj|) && Sensible(lc, lchains, m0, |pchains|, plan) && AllCoupled(adj, plan)
    && Spells(pc.gates, pchains, plan) && InCircuit(lc, lchains) && UpTo(lchains, pos)
    && Run(Unstarted(m0), plan).log == LogAt(lc, lchains, pos, |adj|)
  }

  // ---------- times do not matter ----------

  function Untimed(op: Operation): Operation {
    if op.SwapOp? then SwapOp(op.a, op.b, 0, 1) else GateOp(op.kind, op.qs, 0, 1)
  }

  function AllUntimed(ops: seq<Operation>): (r: seq<Operation>)
    ensures |r| == |ops| && forall i :: 0 <= i < |ops| ==> r[i] == Untimed(ops[i])
  {
    seq(|ops|, i requires 0 <= i < |ops| => Untimed(ops[i]))
  }

  predicate SameButTimes(s: Sim, t: Sim) { s.map_ == t.map_ && s.log == t.log }

  lemma {:induction false} StartTimes(gates: set<nat>, chains: seq<seq<nat>>, s: Sim, t: Sim, ops: seq<Operation>)
    requires SimOk(s, |s.map_|) && SimOk(t, |s.map_|) && SameButTimes(s, t) && AllFit(ops, |s.map_|)
    ensures SameButTimes(Run(s, ops), Run(t, ops))
    ensures Purposeful(gates, chains, s, ops) ==> Purposeful(gates, chains, t, ops)
  {
    if |ops| > 0 { StartTimes(gates, chains, s, t, ops[..|ops| - 1]); }
  }

  /** A step does the same to placement and record, whatever the times. */
  lemma UntimedStep(gates: set<nat>, chains: seq<seq<nat>>, s: Sim, t: Sim, op: Operation)
    requires SimOk(s, |s.map_|) && SimOk(t, |s.map_|) && SameButTimes(s, t) && op.Fits(|s.map_|)
    ensures Untimed(op).Fits(|s.map_|) && SameButTimes(Step(s, op), Step(t, Untimed(op)))
    ensures PurposefulStep(gates, chains, s, op) == PurposefulStep(gates, chains, t, Untimed(op))
  {
  }

  lemma {:induction false} UntimedRun(gates: set<nat>, chains: seq<seq<nat>>, s: Sim, ops: seq<Operation>)
    requires SimOk(s, |s.map_|) && AllFit(ops, |s.map_|)
    ensures AllFit(AllUntimed(ops), |s.map_|) && SameButTimes(Run(s, ops), Run(s, AllUntimed(ops)))
    ensures Purposeful(gates, chains, s, ops) ==> Purposeful(gates, chains, s, AllUntimed(ops))
  {
    hide Step, PurposefulStep;
    if |ops| > 0 {
      var k := |ops| - 1;
      UntimedRun(gates, chains, s, ops[..k]);
      assert AllUntimed(ops)[..k] == AllUntimed(ops[..k]);
      UntimedStep(gates, chains, Run(s, ops[..k]), Run(s, AllUntimed(ops[..k])), ops[k]);
    }
  }

  lemma {:induction false} UntimedExpand(ops: seq<Operation>, q: nat)
    ensures ExpandOn(AllUntimed(ops), q) == ExpandOn(ops, q)
  {
    if |ops| > 0 {
      var k := |ops| - 1;
      UntimedExpand(ops[..k], q);
      assert AllUntimed(ops)[..k] == AllUntimed(ops[..k]);
    }
  }

  // ---------- what is left of a plan ----------

  /** Operations without times on coupled ones of the first n qubits. */
  predicate Doable(adj: seq<seq<nat>>, n: nat, ops: seq<Operation>) {
    && AllFit(ops, n) && AllFit(ops, |adj|) && AllCoupled(adj, ops)
    && forall i :: 0 <= i < |ops| ==> Untimed(ops[i]) == ops[i]
  }

  /** The circuit is the expansion of the operations found and those left over. */
  ghost predicate SpellsBoth(pc: Circuit, pchains: seq<seq<nat>>, found: seq<Operation>, rest: seq<Operation>) {
    forall q: nat :: q < |pchains| ==> WordOn(pc.gates, pchains, q) == ExpandOn(found, q) + ExpandOn(rest, q)
  }

  /** The operations left over take the replay from s to the given record, by swaps with a purpose. */
  ghost predicate LeadsTo(lc: Circuit, lchains: seq<seq<nat>>, s: Sim, rest: seq<Operation>, log: seq<seq<Event>>) {
    && SimOk(s, |s.map_|) && AllFit(rest, |s.map_|)
    && Run(s, rest).log == log && Purposeful(CXGates(lc), lchains, s, rest)
  }

  ghost predicate Remains(pc: Circuit, pchains: seq<seq<nat>>, lc: Circuit, lchains: seq<seq<nat>>, adj: seq<seq<nat>>, m0: seq<nat>,
                          found: seq<Operation>, rest: seq<Operation>, pos: seq<nat>) {
    && Placement(m0, |adj|) && AllFit(found, |adj|) && Doable(adj, |pchains|, rest)
    && SpellsBoth(pc, pchains, found, rest) && InCircuit(lc, lchains) && UpTo(lchains, pos)
    && LeadsTo(lc, lchains, Run(Unstarted(m0), found), rest, LogAt(lc, lchains, pos, |adj|))
  }

  /** In the beginning the whole plan is left. */
  lemma RemainsAll(pc: Circuit, pchains: seq<seq<nat>>, lc: Circuit, lchains: seq<seq<nat>>, adj: seq<seq<nat>>, m0: seq<nat>, plan: seq<Operation>, pos: seq<nat>)
    requires Realizes(pc, pchains, lc, lchains, adj, m0, plan, pos)
    ensures Remains(pc, pchains, lc, lchains, adj, m0, [], AllUntimed(plan), pos)
  {
    var rest := AllUntimed(plan);
    UntimedRun(CXGates(lc), lchains, Unstarted(m0), plan);
    forall i | 0 <= i < |rest| ensures rest[i].Fits(|pchains|) && Coupled(adj, rest[i]) {
      assert plan[i].Fits(|pchains|) && Coupled(adj, plan[i]);
    }
    forall q: nat | q < |pchains| ensures WordOn(pc.gates, pchains, q) == ExpandOn([], q) + ExpandOn(rest, q) {
      UntimedExpand(plan, q);
    }
  }

  /** In the end nothing is left, and the logical circuit has been passed up to the positions of the plan. */
  lemma RemainsNothing(pc: Circuit, pchains: seq<seq<nat>>, lc: Circuit, lchains: seq<seq<nat>>, adj: seq<seq<nat>>, m0: seq<nat>,
                       labels: seq<nat>, found: seq<Operation>, rest: seq<Operation>, pos: seq<nat>, pos': seq<nat>)
    requires Remains(pc, pchains, lc, lchains, adj, m0, found, rest, pos) && Spells(pc.gates, pchains, found)
    requires UpTo(lchains, pos') && Found(adj, m0, found, labels, LogAt(lc, lchains, pos', |adj|)) && |lchains| <= |adj|
    ensures pos' == pos
  {
    if |rest| > 0 {
      var op := rest[|rest| - 1];
      var q := op.Qubits()[0];
      assert op.Fits(|pchains|) && q in op.Qubits();
      assert ExpandOn(rest, q) == ExpandOn(rest[..|rest| - 1], q) + Expand(op);
      assert false;
    }
    var log, log' := LogAt(lc, lchains, pos, |adj|), LogAt(lc, lchains, pos', |adj|);
    assert log == log';
    forall l | 0 <= l < |lchains| ensures pos[l] == pos'[l] {
      assert |log[l]| == pos[l] && |log'[l]| == pos'[l];
    }
  }

  // ---------- the next operation ----------

  lemma {:induction false} ExpandConcat(a: seq<Operation>, b: seq<Operation>, q: nat)
    ensures ExpandOn(a + b, q) == ExpandOn(a, q) + ExpandOn(b, q)
  {
    if |b| == 0 {
      assert a + b == a;
    } else {
      var k := |b| - 1;
      assert (a + b)[..|a + b| - 1] == a + b[..k];
      ExpandConcat(a, b[..k], q);
    }
  }

  lemma ExpandOne(op: Operation, q: nat)
    ensures ExpandOn([op], q) == if q in op.Qubits() then Expand(op) else []
  {
    assert [op][..0] == [];
  }

  /** What is left on a qubit starts with the first operation on it. */
  lemma {:induction false} FirstOn(rest: seq<Operation>, q: nat) returns (j: nat)
    requires ExpandOn(rest, q) != []
    ensures j < |rest| && q in rest[j].Qubits() && Expand(rest[j]) <= ExpandOn(rest, q)
    ensures forall i :: 0 <= i < j ==> q !in rest[i].Qubits()
  {
    assert rest == [rest[0]] + rest[1..];
    ExpandConcat([rest[0]], rest[1..], q);
    ExpandOne(rest[0], q);
    if q in rest[0].Qubits() {
      j := 0;
    } else {
      j := FirstOn(rest[1..], q);
      j := j + 1;
    }
  }

  /** What the checker knows of its place in the physical circuit. */
  ghost predicate AtGate(pc: Circuit, pchains: seq<seq<nat>>, seen: set<nat>, ppos: seq<nat>, texts: seq<seq<LogicalGate>>, found: seq<Operation>) {
    Chained(pc, pchains) && ReadTo(pc, pchains, seen, ppos, texts) && Texts(texts, found)
  }

  /** A chain spells its gates. */
  lemma ChainSpells(pc: Circuit, pchains: seq<seq<nat>>, q: nat, k: nat)
    requires Chained(pc, pchains) && q < |pchains| && k <= |pchains[q]|
    ensures |Spelled(pc.gates, pchains[q][..k])| == k && |WordOn(pc.gates, pchains, q)| == |pchains[q]|
    ensures forall i :: 0 <= i < |pchains[q]| ==> pchains[q][i] in pc.gates && WordOn(pc.gates, pchains, q)[i] == pc.gates[pchains[q][i]]
  {
    ChainsInGates(pc, pchains);
    var chain := pchains[q];
    assert ChainInGates(pc.gates, chain) && ChainInGates(pc.gates, chain[..k]);
    assert forall i :: 0 <= i < |chain| ==> chain[i] in chain;
  }

  /** What is left on a qubit is what its chain says from the present place on. */
  lemma LeftOn(pc: Circuit, pchains: seq<seq<nat>>, seen: set<nat>, ppos: seq<nat>, texts: seq<seq<LogicalGate>>, found: seq<Operation>, rest: seq<Operation>, q: nat, k: nat)
    requires AtGate(pc, pchains, seen, ppos, texts, found) && SpellsBoth(pc, pchains, found, rest)
    requires q < |pchains|
    ensures ppos[q] + |ExpandOn(rest, q)| == |pchains[q]|
    ensures k < |ExpandOn(rest, q)| ==> pchains[q][ppos[q] + k] in pc.gates && ExpandOn(rest, q)[k] == pc.gates[pchains[q][ppos[q] + k]]
  {
    hide WordOn, Spelled, Chained;
    ChainSpells(pc, pchains, q, ppos[q]);
    var word := WordOn(pc.gates, pchains, q);
    assert word == texts[q] + ExpandOn(rest, q);
    assert k < |ExpandOn(rest, q)| ==> word[ppos[q] + k] == ExpandOn(rest, q)[k];
  }

  /** The j-th operation starts with the gate and is the first one on qubit q. */
  predicate FirstThere(rest: seq<Operation>, j: nat, gate: LogicalGate, q: nat) {
    && j < |rest| && Expand(rest[j])[0] == gate && rest[j].Qubits() == gate.qubits
    && q in gate.qubits && Expand(rest[j]) <= ExpandOn(rest, q)
    && forall i :: 0 <= i < j ==> q !in rest[i].Qubits()
  }

  /** The j-th operation starts with the gate, and no other one has to run before it. */
  predicate Foremost(rest: seq<Operation>, j: nat, gate: LogicalGate) {
    && j < |rest| && Expand(rest[j])[0] == gate && rest[j].Qubits() == gate.qubits
    && (forall i :: 0 <= i < j ==> Disjoint(rest[j], rest[i]))
    && forall q :: q in gate.qubits ==> Expand(rest[j]) <= ExpandOn(rest, q)
  }

  /** The first operation on each of its qubits is the first one on all of them. */
  lemma FirstEverywhere(rest: seq<Operation>, j: nat, k: nat, gate: LogicalGate)
    requires 1 <= |gate.qubits| <= 2
    requires FirstThere(rest, j, gate, gate.qubits[0]) && FirstThere(rest, k, gate, gate.qubits[|gate.qubits| - 1])
    ensures Foremost(rest, j, gate)
  {
    hide ExpandOn, Expand;
    assert j == k;
  }

  /** The gate that is next in the circuit belongs to an operation that no other one has to wait for. */
  lemma NextOp(pc: Circuit, pchains: seq<seq<nat>>, seen: set<nat>, ppos: seq<nat>, texts: seq<seq<LogicalGate>>, found: seq<Operation>, rest: seq<Operation>, g: nat) returns (j: nat)
    requires AtGate(pc, pchains, seen, ppos, texts, found) && SpellsBoth(pc, pchains, found, rest)
    requires NextOn(pc, pchains, ppos, g) && 1 <= |pc.gates[g].qubits| <= 2
    ensures Foremost(rest, j, pc.gates[g])
  {
    var qubits := pc.gates[g].qubits;
    hide *;
    j := NextOpOn(pc, pchains, seen, ppos, texts, found, rest, g, qubits[0]);
    var k := NextOpOn(pc, pchains, seen, ppos, texts, found, rest, g, qubits[|qubits| - 1]);
    FirstEverywhere(rest, j, k, pc.gates[g]);
  }

  /** The same on one of its qubits. */
  lemma NextOpOn(pc: Circuit, pchains: seq<seq<nat>>, seen: set<nat>, ppos: seq<nat>, texts: seq<seq<LogicalGate>>, found: seq<Operation>, rest: seq<Operation>, g: nat, q: nat) returns (j: nat)
    requires AtGate(pc, pchains, seen, ppos, texts, found) && SpellsBoth(pc, pchains, found, rest)
    requires NextOn(pc, pchains, ppos, g) && q in pc.gates[g].qubits
    ensures FirstThere(rest, j, pc.gates[g], q)
  {
    LeftOn(pc, pchains, seen, ppos, texts, found, rest, q, 0);
    j := FirstOn(rest, q);
  }

  // ---------- moving it to the front ----------

  function Without<T>(s: seq<T>, j: nat): seq<T>
    requires j < |s|
  {
    s[..j] + s[j + 1..]
  }

  lemma MoveFront(pc: Circuit, pchains: seq<seq<nat>>, lc: Circuit, lchains: seq<seq<nat>>, adj: seq<seq<nat>>, m0: seq<nat>,
                  found: seq<Operation>, rest: seq<Operation>, pos: seq<nat>, j: nat)
    requires Remains(pc, pchains, lc, lchains, adj, m0, found, rest, pos)
    requires j < |rest| && forall i :: 0 <= i < j ==> Disjoint(rest[j], rest[i])
    ensures Remains(pc, pchains, lc, lchains, adj, m0, found + [rest[j]], Without(rest, j), pos)
    ensures rest[j].Fits(|adj|) && PurposefulStep(CXGates(lc), lchains, Run(Unstarted(m0), found), rest[j])
    ensures LeadsTo(lc, lchains, Step(Run(Unstarted(m0), found), rest[j]), Without(rest, j), LogAt(lc, lchains, pos, |adj|))
  {
    hide Step, PurposefulStep, Disjoint, SpellsBoth, LeadsTo, LogAt;
    var s := Run(Unstarted(m0), found);
    LeadsMoved(lc, lchains, s, rest, LogAt(lc, lchains, pos, |adj|), j);
    RunConcat(Unstarted(m0), found, [rest[j]]);
    RunOne(s, rest[j]);
    SpellsMoved(pc, pchains, found, rest, j);
    DoableWithout(adj, |pchains|, rest, j);
  }

  lemma DoableWithout(adj: seq<seq<nat>>, n: nat, rest: seq<Operation>, j: nat)
    requires j < |rest| && Doable(adj, n, rest)
    ensures Doable(adj, n, Without(rest, j))
  {
  }

  lemma LeadsMoved(lc: Circuit, lchains: seq<seq<nat>>, s: Sim, rest: seq<Operation>, log: seq<seq<Event>>, j: nat)
    requires LeadsTo(lc, lchains, s, rest, log)
    requires j < |rest| && forall i :: 0 <= i < j ==> Disjoint(rest[j], rest[i])
    ensures rest[j].Fits(|s.map_|) && PurposefulStep(CXGates(lc), lchains, s, rest[j])
    ensures LeadsTo(lc, lchains, Step(s, rest[j]), Without(rest, j), log)
  {
    hide Step, PurposefulStep, Disjoint;
    var left, op, right := rest[..j], rest[j], rest[j + 1..];
    assert rest == left + ([op] + right);
    PurposefulAtFront(CXGates(lc), lchains, s, left, op, right);
  }

  /** An operation that no other one has to wait for comes first on its qubits. */
  lemma ExpandWithout(rest: seq<Operation>, j: nat, q: nat)
    requires j < |rest| && forall i :: 0 <= i < j ==> Disjoint(rest[j], rest[i])
    ensures ExpandOn(rest, q) == (if q in rest[j].Qubits() then Expand(rest[j]) else []) + ExpandOn(Without(rest, j), q)
  {
    hide ExpandOn, Expand;
    var left, op, right := rest[..j], rest[j], rest[j + 1..];
    assert rest == left + ([op] + right);
    ExpandConcat(left, [op] + right, q);
    ExpandConcat([op], right, q);
    ExpandConcat(left, right, q);
    ExpandOne(op, q);
    if q in op.Qubits() { NothingOn(left, q); }
  }

  lemma SpellsMoved(pc: Circuit, pchains: seq<seq<nat>>, found: seq<Operation>, rest: seq<Operation>, j: nat)
    requires SpellsBoth(pc, pchains, found, rest) && j < |rest| && forall i :: 0 <= i < j ==> Disjoint(rest[j], rest[i])
    ensures SpellsBoth(pc, pchains, found + [rest[j]], Without(rest, j))
  {
    hide WordOn, ExpandOn, Expand, Disjoint, Without;
    forall q: nat | q < |pchains| ensures WordOn(pc.gates, pchains, q) == ExpandOn(found + [rest[j]], q) + ExpandOn(Without(rest, j), q) {
      ExpandWithout(rest, j, q);
      ExpandConcat(found, [rest[j]], q);
      ExpandOne(rest[j], q);
    }
  }

  lemma {:induction false} NothingOn(ops: seq<Operation>, q: nat)
    requires forall i :: 0 <= i < |ops| ==> q !in ops[i].Qubits()
    ensures ExpandOn(ops, q) == []
  {
    if |ops| > 0 { NothingOn(ops[..|ops| - 1], q); }
  }

  // ---------- two qubits with a common next gate ----------

  /** If the gate that comes next on either of two qubits is on both, it is the same gate. */
  lemma SameNext(c: Circuit, chains: seq<seq<nat>>, rank: map<nat, int>, pos: seq<nat>, passed: set<nat>, a: nat, b: nat)
    requires Chained(c, chains) && Ranked(chains, rank) && Cut(c, chains, pos, passed)
    requires a < |chains| && b < |chains| && pos[a] < |chains[a]| && pos[b] < |chains[b]|
    requires On(c, chains[a][pos[a]], b) && On(c, chains[b][pos[b]], a)
    ensures chains[a][pos[a]] == chains[b][pos[b]]
  {
    var x, y := chains[a][pos[a]], chains[b][pos[b]];
    var i := OnChain(c, chains, y, a);
    var k := OnChain(c, chains, x, b);
    assert Circuits.Rising(chains[a], rank) && Circuits.Rising(chains[b], rank);
    assert x !in passed && y !in passed;
    assert i >= pos[a] && k >= pos[b];
  }

  // ---------- a gate of the plan is executed ----------

  lemma {:induction false} RunKeeps(s: Sim, ops: seq<Operation>, l: nat)
    requires SimOk(s, |s.map_|) && AllFit(ops, |s.map_|) && l < |s.map_|
    ensures s.log[l] <= Run(s, ops).log[l]
  {
    hide Step;
    if |ops| > 0 {
      RunKeeps(s, ops[..|ops| - 1], l);
      StepKeeps(Run(s, ops[..|ops| - 1]), ops[|ops| - 1], l);
    }
  }

  /** The replay has come to what the checker has passed. */
  ghost predicate InStep(lc: Circuit, lchains: seq<seq<nat>>, n: nat, s: Sim, pos: seq<nat>, dependency: seq<Option<nat>>) {
    && InCircuit(lc, lchains) && Tracks(lchains, pos, dependency) && SimOk(s, n) && s.log == LogAt(lc, lchains, pos, n)
  }

  /** A gate of the plan is what its operands depend on. */
  lemma OperandWaits(lc: Circuit, lchains: seq<seq<nat>>, s: Sim, op: Operation, rest: seq<Operation>, pos: seq<nat>, goal: seq<nat>, dependency: seq<Option<nat>>, l: nat)
    requires InStep(lc, lchains, |s.map_|, s, pos, dependency) && UpTo(lchains, goal) && op.GateOp? && op.Fits(|s.map_|)
    requires LeadsTo(lc, lchains, Step(s, op), rest, LogAt(lc, lchains, goal, |s.map_|)) && l in Operands(s.map_, op)
    ensures l < |lchains| && pos[l] < |lchains[l]| && DependencyOf(dependency, l) == Some(lchains[l][pos[l]])
    ensures lchains[l][pos[l]] in lc.gates && lc.gates[lchains[l][pos[l]]] == LogicalGate(op.kind, Operands(s.map_, op))
  {
    hide Step, Purposeful;
    var n := |s.map_|;
    var e := Event(op.kind, Operands(s.map_, op));
    RecordAt(s, op, l);
    assert Step(s, op).log[l] == s.log[l] + [e] by { StepRecord(s, op); }
    RunKeeps(Step(s, op), rest, l);
    var log := LogAt(lc, lchains, goal, n)[l];
    assert s.log[l] + [e] <= log;
    var k := |s.log[l]|;
    assert log[k] == e;
    assert l < |lchains| && k == pos[l];
    var g := lchains[l][k];
    assert g in lchains[l] && log[k] == EventOf(lc.gates[g]);
  }

  lemma StepRecord(s: Sim, op: Operation)
    requires SimOk(s, |s.map_|) && op.GateOp? && op.Fits(|s.map_|)
    ensures Step(s, op).log == Record(s, op)
  {
  }

  /** All its operands depend on the same gate. */
  lemma GateWaits(lc: Circuit, lchains: seq<seq<nat>>, rank: map<nat, int>, passed: set<nat>, s: Sim, op: Operation, rest: seq<Operation>, pos: seq<nat>, goal: seq<nat>, dependency: seq<Option<nat>>)
    returns (lg: nat)
    requires Chained(lc, lchains) && Ranked(lchains, rank) && Cut(lc, lchains, pos, passed)
    requires InStep(lc, lchains, |s.map_|, s, pos, dependency) && UpTo(lchains, goal) && op.GateOp? && op.Fits(|s.map_|)
    requires LeadsTo(lc, lchains, Step(s, op), rest, LogAt(lc, lchains, goal, |s.map_|))
    ensures lg in lc.gates && lc.gates[lg] == LogicalGate(op.kind, Operands(s.map_, op))
    ensures forall l :: l in Operands(s.map_, op) ==> DependencyOf(dependency, l) == Some(lg)
  {
    hide LeadsTo, Step;
    var operands := Operands(s.map_, op);
    var l0, l1 := operands[0], operands[|operands| - 1];
    OperandWaits(lc, lchains, s, op, rest, pos, goal, dependency, l0);
    OperandWaits(lc, lchains, s, op, rest, pos, goal, dependency, l1);
    lg := lchains[l0][pos[l0]];
    if |operands| == 2 {
      SameNext(lc, lchains, rank, pos, passed, l0, l1);
    }
  }

  lemma GateIsDue(pc: Circuit, lc: Circuit, adj: seq<seq<nat>>, labels: seq<nat>, dependency: seq<Option<nat>>, g: nat, lg: nat)
    requires g in pc.gates && |labels| == |adj| && OpOf(pc.gates[g]).Fits(|adj|) && pc.gates[g].Shape(|adj|) && Coupled(adj, OpOf(pc.gates[g]))
    requires lg in lc.gates && lc.gates[lg] == LogicalGate(pc.gates[g].kind, Operands(labels, OpOf(pc.gates[g])))
    requires forall l :: l in Operands(labels, OpOf(pc.gates[g])) ==> DependencyOf(dependency, l) == Some(lg)
    ensures Acceptable(pc, lc, adj, labels, dependency, g) && !ReadsSwap(pc, lc, labels, dependency, g)
  {
    var op := OpOf(pc.gates[g]);
    var operands := Operands(labels, op);
    assert Due(pc, lc, adj, labels, dependency, g, lg);
    if |operands| == 2 {
      assert operands[0] in operands && operands[1] in operands;
    }
  }

  // ---------- a swap of the plan is read as a swap ----------

  /** The gate behind the next one on both of its qubits, if the chains say the same there. */
  lemma BackFollows(c: Circuit, chains: seq<seq<nat>>, rank: map<nat, int>, pos: seq<nat>, passed: set<nat>, g: nat, back: LogicalGate) returns (h: nat)
    requires Chained(c, chains) && Ranked(chains, rank) && Cut(c, chains, pos, passed) && NextOn(c, chains, pos, g) && |c.gates[g].qubits| == 2
    requires back == LogicalGate(CX, [c.gates[g].qubits[1], c.gates[g].qubits[0]])
    requires forall q :: q in c.gates[g].qubits ==>
      pos[q] + 1 < |chains[q]| && chains[q][pos[q] + 1] in c.gates && c.gates[chains[q][pos[q] + 1]] == back
    ensures BackCX(c, g, h) && NextOn(c, chains, Bump(pos, c.gates[g].qubits), h)
    ensures Cut(c, chains, Bump(pos, c.gates[g].qubits), passed + {g})
  {
    var a, b := c.gates[g].qubits[0], c.gates[g].qubits[1];
    assert a in c.gates[g].qubits && b in c.gates[g].qubits;
    CutNext(c, chains, pos, passed, g);
    h := chains[a][pos[a] + 1];
    var h' := chains[b][pos[b] + 1];
    assert back.qubits == [b, a];
    assert On(c, h, a) && On(c, h, b) && On(c, h', a) && On(c, h', b);
    SameNext(c, chains, rank, Bump(pos, c.gates[g].qubits), passed + {g}, a, b);
    assert ChainOk(c, chains[a], a) && LinkAt(c, chains[a], a, pos[a]);
    assert ChainOk(c, chains[b], b) && LinkAt(c, chains[b], b, pos[b]);
  }

  /** Behind the present place the chain of a qubit of a foremost swap goes on with its CX. */
  lemma SwapOnChain(pc: Circuit, pchains: seq<seq<nat>>, seen: set<nat>, ppos: seq<nat>, texts: seq<seq<LogicalGate>>, found: seq<Operation>, rest: seq<Operation>, j: nat, gate: LogicalGate, q: nat, k: nat)
    requires AtGate(pc, pchains, seen, ppos, texts, found) && SpellsBoth(pc, pchains, found, rest)
    requires Foremost(rest, j, gate) && rest[j].SwapOp? && q in gate.qubits && q < |pchains| && k <= 2
    ensures ppos[q] + k < |pchains[q]| && pchains[q][ppos[q] + k] in pc.gates
    ensures pc.gates[pchains[q][ppos[q] + k]] == Expand(rest[j])[k]
  {
    LeftOn(pc, pchains, seen, ppos, texts, found, rest, q, k);
    assert Expand(rest[j]) <= ExpandOn(rest, q);
    assert Expand(rest[j])[k] == ExpandOn(rest, q)[k];
  }

  /** On both qubits of a foremost swap its CX follow. */
  lemma SwapOnChains(pc: Circuit, pchains: seq<seq<nat>>, seen: set<nat>, ppos: seq<nat>, texts: seq<seq<LogicalGate>>, found: seq<Operation>, rest: seq<Operation>, j: nat, gate: LogicalGate)
    requires AtGate(pc, pchains, seen, ppos, texts, found) && SpellsBoth(pc, pchains, found, rest)
    requires Foremost(rest, j, gate) && rest[j].SwapOp? && forall q :: q in gate.qubits ==> q < |pchains|
    ensures gate == LogicalGate(CX, [rest[j].a, rest[j].b])
    ensures forall q :: q in gate.qubits ==>
      && ppos[q] + 2 < |pchains[q]|
      && pchains[q][ppos[q] + 1] in pc.gates && pc.gates[pchains[q][ppos[q] + 1]] == LogicalGate(CX, [rest[j].b, rest[j].a])
      && pchains[q][ppos[q] + 2] in pc.gates && pc.gates[pchains[q][ppos[q] + 2]] == gate
  {
    assert Expand(rest[j]) == [gate, LogicalGate(CX, [rest[j].b, rest[j].a]), gate];
    hide Foremost, AtGate, SpellsBoth, Expand;
    forall q | q in gate.qubits
      ensures ppos[q] + 2 < |pchains[q]|
      ensures pchains[q][ppos[q] + 1] in pc.gates && pc.gates[pchains[q][ppos[q] + 1]] == Expand(rest[j])[1]
      ensures pchains[q][ppos[q] + 2] in pc.gates && pc.gates[pchains[q][ppos[q] + 2]] == Expand(rest[j])[2]
    {
      SwapOnChain(pc, pchains, seen, ppos, texts, found, rest, j, gate, q, 1);
      SwapOnChain(pc, pchains, seen, ppos, texts, found, rest, j, gate, q, 2);
    }
  }

  /** A foremost swap starts a swap in the circuit. */
  lemma SwapStarts(pc: Circuit, pchains: seq<seq<nat>>, rank: map<nat, int>, seen: set<nat>, ppos: seq<nat>, texts: seq<seq<LogicalGate>>, found: seq<Operation>, rest: seq<Operation>, j: nat, g: nat)
    requires AtGate(pc, pchains, seen, ppos, texts, found) && SpellsBoth(pc, pchains, found, rest) && Ranked(pchains, rank)
    requires NextOn(pc, pchains, ppos, g) && Foremost(rest, j, pc.gates[g]) && rest[j].SwapOp? && rest[j].Fits(|pchains|)
    ensures StartsSwap(pc, g) && SwapOf(pc.gates[g]) == Untimed(rest[j])
  {
    var there, back := LogicalGate(CX, [rest[j].a, rest[j].b]), LogicalGate(CX, [rest[j].b, rest[j].a]);
    SwapOnChains(pc, pchains, seen, ppos, texts, found, rest, j, pc.gates[g]);
    assert Cut(pc, pchains, ppos, seen);
    hide Foremost, SpellsBoth, ReadTo, Texts, Cut, Ranked;
    var g1 := BackFollows(pc, pchains, rank, ppos, seen, g, back);
    var g2 := BackFollows(pc, pchains, rank, Bump(ppos, there.qubits), seen + {g}, g1, there);
  }

  // ---------- the checker goes on ----------

  /** The state of the checker says where the replay of the operations found has come to. */
  lemma CheckedInStep(pc: Circuit, pchains: seq<seq<nat>>, lc: Circuit, lchains: seq<seq<nat>>, adj: seq<seq<nat>>, m0: seq<nat>,
                      labels: seq<nat>, dependency: seq<Option<nat>>, run: Reading)
    requires Chained(pc, pchains) && Checked(pc, pchains, lc, lchains, adj, m0, labels, dependency, run)
    ensures Placement(m0, |adj|) && AllFit(run.found, |adj|) && Run(Unstarted(m0), run.found).map_ == labels && |labels| == |adj|
    ensures InStep(lc, lchains, |adj|, Run(Unstarted(m0), run.found), run.pos, dependency)
    ensures AtGate(pc, pchains, run.seen, run.ppos, run.texts, run.found)
    ensures Cut(lc, lchains, run.pos, run.passed) && UpTo(lchains, run.pos)
  {
  }

  /** At a gate of the plan the checker goes on. */
  lemma GateAccepted(pc: Circuit, lc: Circuit, lchains: seq<seq<nat>>, rank: map<nat, int>, passed: set<nat>, adj: seq<seq<nat>>, s: Sim,
                     op: Operation, rest: seq<Operation>, pos: seq<nat>, goal: seq<nat>, dependency: seq<Option<nat>>, g: nat)
    requires Chained(lc, lchains) && Ranked(lchains, rank) && Cut(lc, lchains, pos, passed)
    requires InStep(lc, lchains, |adj|, s, pos, dependency) && UpTo(lchains, goal) && op.GateOp? && op.Fits(|adj|)
    requires LeadsTo(lc, lchains, Step(s, op), rest, LogAt(lc, lchains, goal, |adj|))
    requires g in pc.gates && OpOf(pc.gates[g]) == op && pc.gates[g].Shape(|adj|) && Coupled(adj, op)
    ensures Acceptable(pc, lc, adj, s.map_, dependency, g) && ReadAs(pc, lc, s.map_, dependency, g) == op
  {
    hide LeadsTo, Step, Cut, Ranked, Chained, Coupled, UpTo, Acceptable, ReadsSwap;
    var lg := GateWaits(lc, lchains, rank, passed, s, op, rest, pos, goal, dependency);
    GateIsDue(pc, lc, adj, s.map_, dependency, g, lg);
  }

  /** At a swap of the plan the checker goes on. */
  lemma SwapAccepted(pc: Circuit, lc: Circuit, lchains: seq<seq<nat>>, adj: seq<seq<nat>>, s: Sim, op: Operation, pos: seq<nat>, dependency: seq<Option<nat>>, g: nat)
    requires InStep(lc, lchains, |adj|, s, pos, dependency) && op.SwapOp? && op.Fits(|adj|) && Coupled(adj, op)
    requires PurposefulStep(CXGates(lc), lchains, s, op)
    requires g in pc.gates && pc.gates[g].Shape(|adj|) && pc.gates[g].qubits == [op.a, op.b] && StartsSwap(pc, g)
    ensures Acceptable(pc, lc, adj, s.map_, dependency, g) && ReadAs(pc, lc, s.map_, dependency, g) == Untimed(op)
  {
    DueIsTogether(lc, lchains, pos, dependency, |adj|, s.map_[op.a], s.map_[op.b]);
  }

  /** The gate belongs to an operation, so it has one or two qubits. */
  lemma FewQubits(pc: Circuit, pchains: seq<seq<nat>>, seen: set<nat>, ppos: seq<nat>, texts: seq<seq<LogicalGate>>, found: seq<Operation>, rest: seq<Operation>, g: nat, n: nat)
    requires AtGate(pc, pchains, seen, ppos, texts, found) && SpellsBoth(pc, pchains, found, rest) && AllFit(rest, n)
    requires NextOn(pc, pchains, ppos, g) && |pc.gates[g].qubits| > 0
    ensures |pc.gates[g].qubits| <= 2
  {
    var j := NextOpOn(pc, pchains, seen, ppos, texts, found, rest, g, pc.gates[g].qubits[0]);
    assert rest[j].Fits(n);
  }

  /** As long as a plan remains, the checker goes on, and a plan remains. */
  lemma PlanGoesOn(pc: Circuit, pchains: seq<seq<nat>>, prank: map<nat, int>, lc: Circuit, lchains: seq<seq<nat>>, lrank: map<nat, int>,
                   adj: seq<seq<nat>>, m0: seq<nat>, labels: seq<nat>, dependency: seq<Option<nat>>, run: Reading,
                   rest: seq<Operation>, pos: seq<nat>, g: nat) returns (rest': seq<Operation>)
    requires Chained(pc, pchains) && Ranked(pchains, prank) && Chained(lc, lchains) && Ranked(lchains, lrank) && |pchains| <= |adj|
    requires Checked(pc, pchains, lc, lchains, adj, m0, labels, dependency, run)
    requires Remains(pc, pchains, lc, lchains, adj, m0, run.found, rest, pos)
    requires NextOn(pc, pchains, run.ppos, g) && |pc.gates[g].qubits| > 0
    ensures Acceptable(pc, lc, adj, labels, dependency, g)
    ensures Remains(pc, pchains, lc, lchains, adj, m0, run.found + [ReadAs(pc, lc, labels, dependency, g)], rest', pos)
  {
    CheckedInStep(pc, pchains, lc, lchains, adj, m0, labels, dependency, run);
    FewQubits(pc, pchains, run.seen, run.ppos, run.texts, run.found, rest, g, |adj|);
    PhysicalShape(pc, pchains, run.ppos, g, |adj|);
    var j := NextOp(pc, pchains, run.seen, run.ppos, run.texts, run.found, rest, g);
    var s, op := Run(Unstarted(m0), run.found), rest[j];
    MoveFront(pc, pchains, lc, lchains, adj, m0, run.found, rest, pos, j);
    rest' := Without(rest, j);
    if op.GateOp? {
      assert OpOf(pc.gates[g]) == op;
      GateAccepted(pc, lc, lchains, lrank, run.passed, adj, s, op, rest', run.pos, pos, dependency, g);
    } else {
      SwapStarts(pc, pchains, prank, run.seen, run.ppos, run.texts, run.found, rest, j, g);
      SwapAccepted(pc, lc, lchains, adj, s, op, run.pos, dependency, g);
    }
  }

  /** What the checker has found when it has read everything is a plan. */
  lemma FoundRealizes(pc: Circuit, pchains: seq<seq<nat>>, lc: Circuit, lchains: seq<seq<nat>>, adj: seq<seq<nat>>, m0: seq<nat>,
                      labels: seq<nat>, dependency: seq<Option<nat>>, run: Reading)
    requires Checked(pc, pchains, lc, lchains, adj, m0, labels, dependency, run) && Spells(pc.gates, pchains, run.found)
    ensures Realizes(pc, pchains, lc, lchains, adj, m0, run.found, run.pos)
  {
  }

  lemma CheckedFacts(pc: Circuit, pchains: seq<seq<nat>>, lc: Circuit, lchains: seq<seq<nat>>, adj: seq<seq<nat>>, m0: seq<nat>,
                     labels: seq<nat>, dependency: seq<Option<nat>>, run: Reading)
    requires Checked(pc, pchains, lc, lchains, adj, m0, labels, dependency, run)
    ensures InCircuit(lc, lchains) && Tracks(lchains, run.pos, dependency) && Cut(lc, lchains, run.pos, run.passed)
    ensures Found(adj, m0, run.found, labels, LogAt(lc, lchains, run.pos, |adj|))
  {
  }

  // ---------- what the mapper produces ----------

  /** Operations that simulate a circuit by swaps with a purpose are a plan for the whole of it. */
  lemma SimulationRealizes(pc: Circuit, pchains: seq<seq<nat>>, lc: Circuit, lchains: seq<seq<nat>>, adj: seq<seq<nat>>, start: seq<PhysicalQubit>,
                           qs: seq<PhysicalQubit>, ops: seq<Operation>)
    requires Simulates(adj, start, ops, qs, lc, lchains) && Guided(start, ops, lc, lchains)
    requires Spells(pc.gates, pchains, ops) && |pchains| == |adj|
    ensures Realizes(pc, pchains, lc, lchains, adj, Logicals(start), ops, Ends(lchains))
  {
    hide Spells, Purposeful;
    var s, t := DeviceSim(start, seq(|start|, i => [])), Unstarted(Logicals(start));
    assert s.log == t.log && |s.map_| == |start|;
    StartTimes(lc.gates.Keys, lchains, s, t, ops);
    PurposefulFor(lc.gates.Keys, CXGates(lc), lchains, t, ops);
    assert FullLog(lc, lchains, |start|) == LogAt(lc, lchains, Ends(lchains), |adj|);
    forall i | 0 <= i < |ops| ensures Coupled(adj, ops[i]) { assert Physical(adj, ops[i]); }
  }
}
