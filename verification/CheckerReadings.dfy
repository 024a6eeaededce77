/**
 What a checker of a mapping knows while it reads a physical circuit: the operations it has
 found so far, where they have taken the logical qubits, and which logical gates they passed.
 Three CX in a row are one swap.
 */
module CheckerReadings {
  import opened Sequences
  import opened Circuits
  import opened CircuitTopologies
  import opened Duostra
  import opened QCirs
  import opened Routers
  import opened Schedulers
  import opened SwapPurposes
  import opened TimedReplay
  import opened TopologicalOrder

  // ---------- reading the physical circuit ----------

  /** On every qubit exactly the first ppos gates have been read, and they spell the given texts. */
  ghost predicate ReadTo(c: Circuit, chains: seq<seq<nat>>, seen: set<nat>, ppos: seq<nat>, texts: seq<seq<LogicalGate>>) {
    && |ppos| == |chains| == |texts|
    && (forall q :: 0 <= q < |chains| ==> ppos[q] <= |chains[q]|)
    && (forall q, k :: 0 <= q < |chains| && 0 <= k < |chains[q]| ==> (chains[q][k] in seen <==> k < ppos[q]))
    && forall q :: 0 <= q < |chains| ==> Spelled(c.gates, chains[q][..ppos[q]]) == texts[q]
  }

  /** The gate is the next one on each of its qubits. */
  predicate NextOn(c: Circuit, chains: seq<seq<nat>>, ppos: seq<nat>, g: nat) {
    && g in c.gates && |ppos| == |chains|
    && forall q :: q in c.gates[g].qubits ==> q < |chains| && ppos[q] < |chains[q]| && chains[q][ppos[q]] == g
  }

  function Bump(ppos: seq<nat>, qubits: seq<nat>): (r: seq<nat>)
    ensures |r| == |ppos| && forall q :: 0 <= q < |ppos| ==> r[q] == ppos[q] + if q in qubits then 1 else 0
  {
    seq(|ppos|, q requires 0 <= q < |ppos| => ppos[q] + if q in qubits then 1 else 0)
  }

  function AddText(texts: seq<seq<LogicalGate>>, gate: LogicalGate): (r: seq<seq<LogicalGate>>)
    ensures |r| == |texts| && forall q :: 0 <= q < |texts| ==> r[q] == texts[q] + if q in gate.qubits then [gate] else []
  {
    seq(|texts|, q requires 0 <= q < |texts| => texts[q] + if q in gate.qubits then [gate] else [])
  }

  lemma ReadGate(c: Circuit, chains: seq<seq<nat>>, seen: set<nat>, ppos: seq<nat>, texts: seq<seq<LogicalGate>>, g: nat)
    requires Chained(c, chains) && ReadTo(c, chains, seen, ppos, texts) && NextOn(c, chains, ppos, g)
    ensures ReadTo(c, chains, seen + {g}, Bump(ppos, c.gates[g].qubits), AddText(texts, c.gates[g]))
  {
    var qubits := c.gates[g].qubits;
    var ppos', texts' := Bump(ppos, qubits), AddText(texts, c.gates[g]);
    ChainsInGates(c, chains);
    forall q, k | 0 <= q < |chains| && 0 <= k < |chains[q]| ensures chains[q][k] in seen + {g} <==> k < ppos'[q] {
      assert ChainOk(c, chains[q], q);
      if chains[q][k] == g { assert LinkAt(c, chains[q], q, k); }
    }
    forall q | 0 <= q < |chains| ensures Spelled(c.gates, chains[q][..ppos'[q]]) == texts'[q] {
      SpelledNext(c.gates, chains[q], ppos[q]);
    }
  }

  lemma SpelledNext(gates: map<nat, LogicalGate>, chain: seq<nat>, k: nat)
    requires ChainInGates(gates, chain) && k <= |chain|
    ensures k < |chain| ==> Spelled(gates, chain[..k + 1]) == Spelled(gates, chain[..k]) + [gates[chain[k]]]
  {
    if k < |chain| {
      assert chain[..k + 1] == chain[..k] + [chain[k]];
      assert chain[k] in chain;
    }
  }

  /** The successor of a next gate on a qubit is what follows there. */
  lemma SuccessorFollows(c: Circuit, chains: seq<seq<nat>>, ppos: seq<nat>, g: nat, q: nat, s: nat)
    requires Chained(c, chains) && NextOn(c, chains, ppos, g) && On(c, g, q) && SuccOn(c, g, q) == Some(s)
    ensures q < |chains| && ppos[q] + 1 < |chains[q]| && chains[q][ppos[q] + 1] == s
  {
    assert ChainOk(c, chains[q], q) && LinkAt(c, chains[q], q, ppos[q]);
  }

  /** A gate on the same two qubits that follows a next gate on both is next after that gate. */
  lemma NextAfter(c: Circuit, chains: seq<seq<nat>>, ppos: seq<nat>, g: nat, s: nat)
    requires Chained(c, chains) && NextOn(c, chains, ppos, g) && s in c.gates
    requires |c.gates[g].qubits| == 2 && |c.gates[s].qubits| == 2
    requires c.gates[s].qubits == [c.gates[g].qubits[1], c.gates[g].qubits[0]]
    requires SuccOn(c, g, c.gates[g].qubits[0]) == Some(s) && SuccOn(c, g, c.gates[g].qubits[1]) == Some(s)
    ensures NextOn(c, chains, Bump(ppos, c.gates[g].qubits), s)
  {
    SuccessorFollows(c, chains, ppos, g, c.gates[g].qubits[0], s);
    SuccessorFollows(c, chains, ppos, g, c.gates[g].qubits[1], s);
  }

  // ---------- the position in a topological list ----------

  /** In a topological list, a gate that has not been read although everything before it has is next on its qubits. */
  lemma ListedIsNext(c: Circuit, chains: seq<seq<nat>>, list: seq<nat>, i: nat, seen: set<nat>, ppos: seq<nat>, texts: seq<seq<LogicalGate>>)
    requires Chained(c, chains) && Topological(c, chains, list) && ReadTo(c, chains, seen, ppos, texts)
    requires i < |list| && list[i] !in seen && forall j :: 0 <= j < i ==> list[j] in seen
    ensures NextOn(c, chains, ppos, list[i])
  {
    var g := list[i];
    assert g in list && GateShaped(c, g);
    forall q | q in c.gates[g].qubits ensures q < |chains| && ppos[q] < |chains[q]| && chains[q][ppos[q]] == g {
      assert InChains(c, chains, g, q);
      PlaceInList(c, chains, list, i, q);
      var before := OnQubit(c, list[..i], q);
      OnQubitMembers(c, list[..i], q);
      forall k | 0 <= k < |before| ensures chains[q][k] in seen {
        assert before[k] in before && chains[q][k] == before[k];
      }
      assert |before| > 0 ==> chains[q][|before| - 1] in seen;
    }
  }

  lemma {:induction false} OnQubitMembers(c: Circuit, list: seq<nat>, q: nat)
    ensures forall g :: g in OnQubit(c, list, q) ==> g in list && On(c, g, q)
  {
    if |list| > 0 { OnQubitMembers(c, list[..|list| - 1], q); }
  }

  lemma {:induction false} OnQubitPrefix(c: Circuit, list: seq<nat>, k: nat, q: nat)
    requires k <= |list|
    ensures OnQubit(c, list[..k], q) <= OnQubit(c, list, q)
    decreases |list|
  {
    if k == |list| {
      assert list[..k] == list;
    } else {
      var init := list[..|list| - 1];
      assert list[..k] == init[..k];
      OnQubitPrefix(c, init, k, q);
    }
  }

  /** The i-th listed gate is, on each of its qubits, the first one after those listed before. */
  lemma PlaceInList(c: Circuit, chains: seq<seq<nat>>, list: seq<nat>, i: nat, q: nat)
    requires Topological(c, chains, list) && i < |list| && q < |chains|
    ensures OnQubit(c, list[..i], q) <= chains[q]
    ensures On(c, list[i], q) ==> |OnQubit(c, list[..i], q)| < |chains[q]| && chains[q][|OnQubit(c, list[..i], q)|] == list[i]
  {
    OnQubitPrefix(c, list, i, q);
    OnQubitPrefix(c, list, i + 1, q);
    assert list[..i + 1][..i] == list[..i];
    assert OnQubit(c, list, q) == chains[q];
  }

  // ---------- following the logical circuit ----------

  /** The dependency of every logical qubit is the gate at its position, none at the end of its chain. */
  predicate Tracks(chains: seq<seq<nat>>, pos: seq<nat>, dependency: seq<Option<nat>>) {
    && |pos| == |chains| == |dependency|
    && forall l :: 0 <= l < |chains| ==>
         pos[l] <= |chains[l]| && dependency[l] == if pos[l] < |chains[l]| then Some(chains[l][pos[l]]) else None
  }

  /** The dependency of a logical qubit; qubits the logical circuit does not have depend on nothing. */
  function DependencyOf(dependency: seq<Option<nat>>, l: nat): Option<nat> {
    if l < |dependency| then dependency[l] else None
  }

  lemma DependentIsNext(c: Circuit, chains: seq<seq<nat>>, pos: seq<nat>, dependency: seq<Option<nat>>, g: nat)
    requires Chained(c, chains) && Tracks(chains, pos, dependency) && g in c.gates
    requires forall q :: q in c.gates[g].qubits ==> DependencyOf(dependency, q) == Some(g)
    ensures NextOn(c, chains, pos, g)
  {
  }

  /** After a gate has been passed, its qubits depend on its successors. */
  lemma PassedTracks(c: Circuit, chains: seq<seq<nat>>, pos: seq<nat>, dependency: seq<Option<nat>>, g: nat, dependency': seq<Option<nat>>)
    requires Chained(c, chains) && Tracks(chains, pos, dependency) && NextOn(c, chains, pos, g) && |dependency'| == |dependency|
    requires forall q :: 0 <= q < |chains| ==>
      dependency'[q] == if On(c, g, q) then SuccOn(c, g, q) else dependency[q]
    ensures Tracks(chains, Bump(pos, c.gates[g].qubits), dependency')
  {
    forall q | 0 <= q < |chains| && On(c, g, q)
      ensures pos[q] + 1 <= |chains[q]| && dependency'[q] == if pos[q] + 1 < |chains[q]| then Some(chains[q][pos[q] + 1]) else None
    {
      assert ChainOk(c, chains[q], q) && LinkAt(c, chains[q], q, pos[q]);
    }
  }

  /** The record of the gates passed on every logical qubit. */
  function LogAt(c: Circuit, chains: seq<seq<nat>>, pos: seq<nat>, n: nat): (r: seq<seq<Event>>)
    requires InCircuit(c, chains) && |pos| == |chains| && forall l :: 0 <= l < |chains| ==> pos[l] <= |chains[l]|
    ensures |r| == n
    ensures forall l :: 0 <= l < n ==> r[l] == if l < |chains| then Events(c, chains[l], pos[l]) else []
  {
    seq(n, l requires 0 <= l < n => if l < |chains| then Events(c, chains[l], pos[l]) else [])
  }

  lemma PassedLog(c: Circuit, chains: seq<seq<nat>>, pos: seq<nat>, g: nat, n: nat)
    requires InCircuit(c, chains) && |chains| <= n && NextOn(c, chains, pos, g) && forall l :: 0 <= l < |chains| ==> pos[l] <= |chains[l]|
    ensures InRange(EventOf(c.gates[g]), n)
    ensures LogAt(c, chains, Bump(pos, c.gates[g].qubits), n) == LogEvent(LogAt(c, chains, pos, n), EventOf(c.gates[g]))
  {
    var qubits := c.gates[g].qubits;
    forall i | 0 <= i < |qubits| ensures qubits[i] < n { assert qubits[i] in qubits; }
    var a, b := LogAt(c, chains, Bump(pos, qubits), n), LogEvent(LogAt(c, chains, pos, n), EventOf(c.gates[g]));
    forall l | 0 <= l < n ensures a[l] == b[l] {
      if l < |chains| && l in qubits {
        assert Events(c, chains[l], pos[l] + 1) == Events(c, chains[l], pos[l]) + [EventOf(c.gates[g])];
      }
    }
  }

  // ---------- the operations read so far ----------

  function Unstarted(m: seq<nat>): Sim { Sim(m, seq(|m|, i => 0), seq(|m|, i => [])) }

  /** From the placement m0 the operations lead to the labels and record the given log, all on coupled qubits. */
  ghost predicate Found(adj: seq<seq<nat>>, m0: seq<nat>, found: seq<Operation>, labels: seq<nat>, log: seq<seq<Event>>) {
    && Placement(m0, |adj|) && AllFit(found, |adj|) && (forall i :: 0 <= i < |found| ==> Coupled(adj, found[i]))
    && Run(Unstarted(m0), found).map_ == labels && Run(Unstarted(m0), found).log == log
  }

  lemma FoundNext(adj: seq<seq<nat>>, m0: seq<nat>, found: seq<Operation>, labels: seq<nat>, log: seq<seq<Event>>, op: Operation)
    requires Found(adj, m0, found, labels, log) && op.Fits(|adj|) && Coupled(adj, op)
    ensures SimOk(Run(Unstarted(m0), found), |adj|) && |labels| == |log| == |adj| && Placement(labels, |adj|)
    ensures op.SwapOp? ==> Found(adj, m0, found + [op], labels[op.a := labels[op.b]][op.b := labels[op.a]], log)
    ensures op.GateOp? ==> InRange(Event(op.kind, Operands(labels, op)), |adj|)
    ensures op.GateOp? ==> Found(adj, m0, found + [op], labels, LogEvent(log, Event(op.kind, Operands(labels, op))))
  {
    assert (found + [op])[..|found|] == found;
    var r := Run(Unstarted(m0), found);
    if op.GateOp? {
      RecordIsLogEvent(r, op);
    }
  }

  lemma FoundNothing(adj: seq<seq<nat>>, m0: seq<nat>)
    requires Placement(m0, |adj|)
    ensures Found(adj, m0, [], m0, seq(|adj|, i => []))
  {
  }

  /** The texts are the expansion of the operations. */
  predicate Texts(texts: seq<seq<LogicalGate>>, found: seq<Operation>) {
    forall q :: 0 <= q < |texts| ==> texts[q] == ExpandOn(found, q)
  }

  lemma TextsNextGate(texts: seq<seq<LogicalGate>>, found: seq<Operation>, op: Operation)
    requires Texts(texts, found) && op.GateOp?
    ensures Texts(AddText(texts, LogicalGate(op.kind, op.qs)), found + [op])
  {
    assert (found + [op])[..|found|] == found;
  }

  lemma TextsNextSwap(texts: seq<seq<LogicalGate>>, found: seq<Operation>, op: Operation)
    requires Texts(texts, found) && op.SwapOp?
    ensures Texts(AddText(AddText(AddText(texts, Expand(op)[0]), Expand(op)[1]), Expand(op)[2]), found + [op])
  {
    assert (found + [op])[..|found|] == found;
    var r := AddText(AddText(AddText(texts, Expand(op)[0]), Expand(op)[1]), Expand(op)[2]);
    forall q | 0 <= q < |texts| ensures r[q] == ExpandOn(found + [op], q) {
      if q == op.a || q == op.b {
        assert r[q] == texts[q] + [Expand(op)[0]] + [Expand(op)[1]] + [Expand(op)[2]];
        assert Expand(op) == [Expand(op)[0]] + [Expand(op)[1]] + [Expand(op)[2]];
      }
    }
  }

  // ---------- the checker ----------

  /** A gate of a kind always has the same number of qubits. */
  predicate Typed(c: Circuit, arity: string -> nat) {
    forall g :: g in c.gates ==> |c.gates[g].qubits| == arity(c.gates[g].kind)
  }

  /** The gate behind a pin, if there is one. */
  function GetNext(c: Circuit, g: nat, pin: nat): Option<nat>
    requires Shaped(c) && g in c.gates
  {
    assert GateShaped(c, g);
    if pin < |c.succs[g]| && c.succs[g][pin].Some? && c.succs[g][pin].value in c.gates then c.succs[g][pin] else None
  }

  lemma NextIsSuccessor(c: Circuit, chains: seq<seq<nat>>, g: nat, pin: nat)
    requires Chained(c, chains) && g in c.gates && pin < |c.gates[g].qubits|
    ensures On(c, g, c.gates[g].qubits[pin]) && GetNext(c, g, pin) == SuccOn(c, g, c.gates[g].qubits[pin])
  {
    assert GateShaped(c, g);
    PinIsUnique(c.gates[g], |c.first|, pin);
    var q := c.gates[g].qubits[pin];
    var i := OnChain(c, chains, g, q);
    assert ChainOk(c, chains[q], q);
    assert i + 1 < |chains[q]| ==> LinkAt(c, chains[q], q, i + 1);
  }

  /** A logical gate is passed on all its qubits or on none: the positions cut the circuit along its links. */
  ghost predicate Cut(c: Circuit, chains: seq<seq<nat>>, pos: seq<nat>, passed: set<nat>) {
    && |pos| == |chains|
    && forall q, k :: 0 <= q < |chains| && 0 <= k < |chains[q]| ==> (chains[q][k] in passed <==> k < pos[q])
  }

  lemma CutNext(c: Circuit, chains: seq<seq<nat>>, pos: seq<nat>, passed: set<nat>, g: nat)
    requires Chained(c, chains) && Cut(c, chains, pos, passed) && NextOn(c, chains, pos, g)
    ensures Cut(c, chains, Bump(pos, c.gates[g].qubits), passed + {g})
  {
    var pos' := Bump(pos, c.gates[g].qubits);
    forall q, k | 0 <= q < |chains| && 0 <= k < |chains[q]| ensures chains[q][k] in passed + {g} <==> k < pos'[q] {
      assert ChainOk(c, chains[q], q);
      if chains[q][k] == g { assert LinkAt(c, chains[q], q, k); }
    }
  }

  /** What has been passed is closed under predecessors. */
  lemma CutIsClosed(c: Circuit, chains: seq<seq<nat>>, rank: map<nat, int>, pos: seq<nat>, passed: set<nat>)
    requires Chained(c, chains) && Ranked(chains, rank) && Cut(c, chains, pos, passed)
    ensures DownClosed(c, passed)
  {
    forall g | g in passed && g in c.gates ensures (assert GateShaped(c, g); ReadyIn(c, g, passed)) {
      assert GateShaped(c, g);
      forall i | 0 <= i < |c.preds[g]| && c.preds[g][i].Some? ensures c.preds[g][i].value in passed {
        PredAt(c, chains, rank, g, i);
        var q := c.gates[g].qubits[i];
        var k := OnChain(c, chains, g, q);
        assert chains[q][k - 1] == c.preds[g][i].value;
      }
    }
  }

  /** What the checker has established when it has read some physical gates. */
  ghost predicate Checked(pc: Circuit, pchains: seq<seq<nat>>, lc: Circuit, lchains: seq<seq<nat>>, adj: seq<seq<nat>>, m0: seq<nat>,
                          labels: seq<nat>, dependency: seq<Option<nat>>, run: Reading) {
    && ReadTo(pc, pchains, run.seen, run.ppos, run.texts) && Texts(run.texts, run.found)
    && InCircuit(lc, lchains) && Tracks(lchains, run.pos, dependency) && Cut(lc, lchains, run.pos, run.passed)
    && Found(adj, m0, run.found, labels, LogAt(lc, lchains, run.pos, |adj|))
    && Sensible(lc, lchains, m0, |pchains|, run.found)
  }

  /** The operations are on the first n qubits, and no swap exchanges two logical qubits that wait for the same CX. */
  ghost predicate Sensible(lc: Circuit, lchains: seq<seq<nat>>, m0: seq<nat>, n: nat, found: seq<Operation>) {
    && Placement(m0, |m0|) && AllFit(found, n) && AllFit(found, |m0|)
    && Purposeful(CXGates(lc), lchains, Unstarted(m0), found)
  }

  function CXGates(c: Circuit): set<nat> { set g | g in c.gates && c.gates[g].kind == CX }

  lemma SensibleNext(lc: Circuit, lchains: seq<seq<nat>>, m0: seq<nat>, n: nat, found: seq<Operation>, op: Operation)
    requires Sensible(lc, lchains, m0, n, found) && op.Fits(n) && op.Fits(|m0|)
    requires PurposefulStep(CXGates(lc), lchains, Run(Unstarted(m0), found), op)
    ensures Sensible(lc, lchains, m0, n, found + [op])
  {
    PurposefulSnoc(CXGates(lc), lchains, Unstarted(m0), found, op);
  }

  /** The dependencies say what comes next behind what is recorded. */
  lemma DueIsTogether(lc: Circuit, lchains: seq<seq<nat>>, pos: seq<nat>, dependency: seq<Option<nat>>, n: nat, l0: nat, l1: nat)
    requires InCircuit(lc, lchains) && Tracks(lchains, pos, dependency) && l0 < n && l1 < n
    ensures CXIsDue(lc, dependency, l0, l1) <==> DueTogether(CXGates(lc), lchains, LogAt(lc, lchains, pos, n), l0, l1)
  {
  }

  /** The physical gates read, the position on every physical qubit, what was read there, the operations found, the position on every logical qubit and the logical gates passed. */
  datatype Reading = Reading(seen: set<nat>, ppos: seq<nat>, texts: seq<seq<LogicalGate>>, found: seq<Operation>, pos: seq<nat>, passed: set<nat>)

  /** The physical gate does what the logical gate asks for, on coupled qubits. */
  predicate PassableGate(pc: Circuit, lc: Circuit, adj: seq<seq<nat>>, labels: seq<nat>, g: nat, lg: nat) {
    && g in pc.gates && lg in lc.gates && |labels| == |adj|
    && (|pc.gates[g].qubits| == 1 || |pc.gates[g].qubits| == 2)
    && pc.gates[g].Shape(|adj|)
    && lc.gates[lg].kind == pc.gates[g].kind && |lc.gates[lg].qubits| == |pc.gates[g].qubits|
    && (forall i :: 0 <= i < |pc.gates[g].qubits| ==> lc.gates[lg].qubits[i] == labels[pc.gates[g].qubits[i]])
    && (|pc.gates[g].qubits| == 2 ==> pc.gates[g].qubits[1] in adj[pc.gates[g].qubits[0]])
  }

  function OpOf(gate: LogicalGate): Operation { GateOp(gate.kind, gate.qubits, 0, 1) }

  function SwapOf(gate: LogicalGate): Operation
    requires |gate.qubits| == 2
  {
    SwapOp(gate.qubits[0], gate.qubits[1], 0, 1)
  }

  lemma PassableOp(pc: Circuit, lc: Circuit, adj: seq<seq<nat>>, labels: seq<nat>, g: nat, lg: nat)
    requires PassableGate(pc, lc, adj, labels, g, lg)
    ensures var op := OpOf(pc.gates[g]);
      op.Fits(|adj|) && Coupled(adj, op) && Event(op.kind, Operands(labels, op)) == EventOf(lc.gates[lg])
  {
    var op := OpOf(pc.gates[g]);
    assert Operands(labels, op) == lc.gates[lg].qubits;
  }

  lemma FoundGate(adj: seq<seq<nat>>, m0: seq<nat>, labels: seq<nat>, found: seq<Operation>, pc: Circuit, lc: Circuit, lchains: seq<seq<nat>>, pos: seq<nat>, g: nat, lg: nat)
    requires PassableGate(pc, lc, adj, labels, g, lg) && InCircuit(lc, lchains) && |lchains| <= |adj|
    requires NextOn(lc, lchains, pos, lg) && forall l :: 0 <= l < |lchains| ==> pos[l] <= |lchains[l]|
    requires Found(adj, m0, found, labels, LogAt(lc, lchains, pos, |adj|))
    ensures Found(adj, m0, found + [OpOf(pc.gates[g])], labels, LogAt(lc, lchains, Bump(pos, lc.gates[lg].qubits), |adj|))
  {
    PassableOp(pc, lc, adj, labels, g, lg);
    PassedLog(lc, lchains, pos, lg, |adj|);
    FoundNext(adj, m0, found, labels, LogAt(lc, lchains, pos, |adj|), OpOf(pc.gates[g]));
  }

  /** A physical gate that is the next logical gate on the logical qubits of its operands. */
  lemma GatePassed(pc: Circuit, pchains: seq<seq<nat>>, lc: Circuit, lchains: seq<seq<nat>>, adj: seq<seq<nat>>, m0: seq<nat>,
                   labels: seq<nat>, dependency: seq<Option<nat>>, run: Reading, g: nat, lg: nat, dependency': seq<Option<nat>>) returns (run': Reading)
    requires Chained(pc, pchains) && Chained(lc, lchains) && |lchains| <= |adj|
    requires Checked(pc, pchains, lc, lchains, adj, m0, labels, dependency, run) && NextOn(pc, pchains, run.ppos, g)
    requires PassableGate(pc, lc, adj, labels, g, lg) && NextOn(lc, lchains, run.pos, lg) && |dependency'| == |dependency|
    requires forall q :: 0 <= q < |lchains| ==> dependency'[q] == if On(lc, lg, q) then SuccOn(lc, lg, q) else dependency[q]
    ensures Checked(pc, pchains, lc, lchains, adj, m0, labels, dependency', run')
    ensures run'.seen == run.seen + {g} && run'.found == run.found + [OpOf(pc.gates[g])]
  {
    var gate := pc.gates[g];
    ReadGate(pc, pchains, run.seen, run.ppos, run.texts, g);
    TextsNextGate(run.texts, run.found, OpOf(gate));
    PassedTracks(lc, lchains, run.pos, dependency, lg, dependency');
    CutNext(lc, lchains, run.pos, run.passed, lg);
    FoundGate(adj, m0, labels, run.found, pc, lc, lchains, run.pos, g, lg);
    PassableOp(pc, lc, adj, labels, g, lg);
    PhysicalShape(pc, pchains, run.ppos, g, |pchains|);
    SensibleNext(lc, lchains, m0, |pchains|, run.found, OpOf(gate));
    run' := Reading(run.seen + {g}, Bump(run.ppos, gate.qubits), AddText(run.texts, gate), run.found + [OpOf(gate)], Bump(run.pos, lc.gates[lg].qubits), run.passed + {lg});
  }

  /** Three CX that follow each other, to and fro on the same two qubits. */
  predicate Triple(c: Circuit, g0: nat, g1: nat, g2: nat) {
    && g0 in c.gates && g1 in c.gates && g2 in c.gates && |c.gates[g0].qubits| == 2
    && var a, b := c.gates[g0].qubits[0], c.gates[g0].qubits[1];
       && c.gates[g0] == LogicalGate(CX, [a, b]) && c.gates[g1] == LogicalGate(CX, [b, a]) && c.gates[g2] == LogicalGate(CX, [a, b])
  }

  predicate InARow(c: Circuit, g0: nat, g1: nat, g2: nat)
    requires Shaped(c) && Triple(c, g0, g1, g2)
  {
    var a, b := c.gates[g0].qubits[0], c.gates[g0].qubits[1];
    && SuccOn(c, g0, a) == Some(g1) && SuccOn(c, g0, b) == Some(g1)
    && SuccOn(c, g1, a) == Some(g2) && SuccOn(c, g1, b) == Some(g2)
  }

  /** The reading after the three gates of a swap. */
  ghost function AfterSwap(pc: Circuit, run: Reading, g0: nat, g1: nat, g2: nat): (r: Reading)
    requires Triple(pc, g0, g1, g2)
    ensures r.seen == run.seen + {g0, g1, g2} && r.pos == run.pos && r.passed == run.passed
    ensures |pc.gates[g0].qubits| == 2 && r.found == run.found + [SwapOf(pc.gates[g0])]
  {
    var a, b := pc.gates[g0].qubits[0], pc.gates[g0].qubits[1];
    Reading(run.seen + {g0} + {g1} + {g2}, Bump(Bump(Bump(run.ppos, [a, b]), [b, a]), [a, b]),
            AddText(AddText(AddText(run.texts, pc.gates[g0]), pc.gates[g1]), pc.gates[g2]),
            run.found + [SwapOf(pc.gates[g0])], run.pos, run.passed)
  }

  /** All three gates are read, and their texts are that of a swap. */
  lemma SwapRead(pc: Circuit, pchains: seq<seq<nat>>, run: Reading, g0: nat, g1: nat, g2: nat)
    requires Chained(pc, pchains) && ReadTo(pc, pchains, run.seen, run.ppos, run.texts) && Texts(run.texts, run.found)
    requires Triple(pc, g0, g1, g2) && InARow(pc, g0, g1, g2) && NextOn(pc, pchains, run.ppos, g0)
    ensures var r := AfterSwap(pc, run, g0, g1, g2); ReadTo(pc, pchains, r.seen, r.ppos, r.texts) && Texts(r.texts, r.found)
  {
    hide ReadTo, Texts, Bump, AddText, Chained, Spelled, ExpandOn;
    var a, b := pc.gates[g0].qubits[0], pc.gates[g0].qubits[1];
    ReadGate(pc, pchains, run.seen, run.ppos, run.texts, g0);
    NextAfter(pc, pchains, run.ppos, g0, g1);
    var p1, s1, t1 := Bump(run.ppos, [a, b]), run.seen + {g0}, AddText(run.texts, pc.gates[g0]);
    ReadGate(pc, pchains, s1, p1, t1, g1);
    NextAfter(pc, pchains, p1, g1, g2);
    ReadGate(pc, pchains, s1 + {g1}, Bump(p1, [b, a]), AddText(t1, pc.gates[g1]), g2);
    TextsNextSwap(run.texts, run.found, SwapOp(a, b, 0, 1));
  }

  /** The placement changes as a swap says, and the swap has a purpose. */
  lemma SwapFound(pchains: seq<seq<nat>>, lc: Circuit, lchains: seq<seq<nat>>, adj: seq<seq<nat>>, m0: seq<nat>,
                  labels: seq<nat>, dependency: seq<Option<nat>>, run: Reading, a: nat, b: nat)
    requires InCircuit(lc, lchains) && Tracks(lchains, run.pos, dependency)
    requires Found(adj, m0, run.found, labels, LogAt(lc, lchains, run.pos, |adj|)) && Sensible(lc, lchains, m0, |pchains|, run.found)
    requires a < |pchains| <= |adj| && b < |pchains| && a != b && b in adj[a] && |labels| == |adj| && !CXIsDue(lc, dependency, labels[a], labels[b])
    ensures
      var found := run.found + [SwapOp(a, b, 0, 1)];
      Found(adj, m0, found, labels[a := labels[b]][b := labels[a]], LogAt(lc, lchains, run.pos, |adj|)) && Sensible(lc, lchains, m0, |pchains|, found)
  {
    hide LogAt, CXIsDue, DueTogether, Purposeful;
    var op := SwapOp(a, b, 0, 1);
    FoundNext(adj, m0, run.found, labels, LogAt(lc, lchains, run.pos, |adj|), op);
    DueIsTogether(lc, lchains, run.pos, dependency, |adj|, labels[a], labels[b]);
    SensibleNext(lc, lchains, m0, |pchains|, run.found, op);
  }

  /** Three CX in a row are read as a swap. */
  lemma SwapPassed(pc: Circuit, pchains: seq<seq<nat>>, lc: Circuit, lchains: seq<seq<nat>>, adj: seq<seq<nat>>, m0: seq<nat>,
                   labels: seq<nat>, dependency: seq<Option<nat>>, run: Reading, g0: nat, g1: nat, g2: nat) returns (run': Reading)
    requires Chained(pc, pchains) && Checked(pc, pchains, lc, lchains, adj, m0, labels, dependency, run) && |pchains| <= |adj|
    requires Triple(pc, g0, g1, g2) && InARow(pc, g0, g1, g2) && NextOn(pc, pchains, run.ppos, g0)
    requires pc.gates[g0].qubits[0] < |adj| && pc.gates[g0].qubits[1] in adj[pc.gates[g0].qubits[0]]
    requires pc.gates[g0].Shape(|labels|) && !CXIsDue(lc, dependency, labels[pc.gates[g0].qubits[0]], labels[pc.gates[g0].qubits[1]])
    ensures |labels| == |adj| && pc.gates[g0].qubits[1] < |adj|
    ensures var a, b := pc.gates[g0].qubits[0], pc.gates[g0].qubits[1];
      Checked(pc, pchains, lc, lchains, adj, m0, labels[a := labels[b]][b := labels[a]], dependency, run')
    ensures run'.seen == run.seen + {g0, g1, g2} && run'.found == run.found + [SwapOf(pc.gates[g0])]
  {
    var gate := pc.gates[g0];
    SwapFits(pc, pchains, run.ppos, g0);
    CheckedParts(pc, pchains, lc, lchains, adj, m0, labels, dependency, run);
    SwapFacts(pc, g0, g1, g2);
    hide *;
    SwapRead(pc, pchains, run, g0, g1, g2);
    SwapFound(pchains, lc, lchains, adj, m0, labels, dependency, run, gate.qubits[0], gate.qubits[1]);
    run' := AfterSwap(pc, run, g0, g1, g2);
    CheckedFromParts(pc, pchains, lc, lchains, adj, m0, labels[gate.qubits[0] := labels[gate.qubits[1]]][gate.qubits[1] := labels[gate.qubits[0]]], dependency, run');
  }

  lemma SwapFacts(pc: Circuit, g0: nat, g1: nat, g2: nat)
    requires Triple(pc, g0, g1, g2)
    ensures |pc.gates[g0].qubits| == 2 && SwapOf(pc.gates[g0]) == SwapOp(pc.gates[g0].qubits[0], pc.gates[g0].qubits[1], 0, 1)
  {
  }

  lemma CheckedParts(pc: Circuit, pchains: seq<seq<nat>>, lc: Circuit, lchains: seq<seq<nat>>, adj: seq<seq<nat>>, m0: seq<nat>,
                     labels: seq<nat>, dependency: seq<Option<nat>>, run: Reading)
    requires Checked(pc, pchains, lc, lchains, adj, m0, labels, dependency, run)
    ensures ReadTo(pc, pchains, run.seen, run.ppos, run.texts) && Texts(run.texts, run.found)
    ensures InCircuit(lc, lchains) && Tracks(lchains, run.pos, dependency) && Cut(lc, lchains, run.pos, run.passed)
    ensures |run.pos| == |lchains| && forall l :: 0 <= l < |lchains| ==> run.pos[l] <= |lchains[l]|
    ensures Found(adj, m0, run.found, labels, LogAt(lc, lchains, run.pos, |adj|)) && |labels| == |adj|
    ensures Sensible(lc, lchains, m0, |pchains|, run.found)
  {
    LabelsLong(adj, m0, run.found, labels, LogAt(lc, lchains, run.pos, |adj|));
  }

  lemma CheckedFromParts(pc: Circuit, pchains: seq<seq<nat>>, lc: Circuit, lchains: seq<seq<nat>>, adj: seq<seq<nat>>, m0: seq<nat>,
                         labels: seq<nat>, dependency: seq<Option<nat>>, run: Reading)
    requires ReadTo(pc, pchains, run.seen, run.ppos, run.texts) && Texts(run.texts, run.found)
    requires InCircuit(lc, lchains) && Tracks(lchains, run.pos, dependency) && Cut(lc, lchains, run.pos, run.passed)
    requires |run.pos| == |lchains| && forall l :: 0 <= l < |lchains| ==> run.pos[l] <= |lchains[l]|
    requires Found(adj, m0, run.found, labels, LogAt(lc, lchains, run.pos, |adj|))
    requires Sensible(lc, lchains, m0, |pchains|, run.found)
    ensures Checked(pc, pchains, lc, lchains, adj, m0, labels, dependency, run)
  {
  }

  lemma LabelsLong(adj: seq<seq<nat>>, m0: seq<nat>, found: seq<Operation>, labels: seq<nat>, log: seq<seq<Event>>)
    requires Found(adj, m0, found, labels, log)
    ensures |labels| == |adj|
  {
  }

  lemma SwapFits(pc: Circuit, pchains: seq<seq<nat>>, ppos: seq<nat>, g: nat)
    requires Chained(pc, pchains) && NextOn(pc, pchains, ppos, g) && |pc.gates[g].qubits| == 2
    ensures pc.gates[g].qubits[0] < |pchains| && pc.gates[g].qubits[1] < |pchains| && pc.gates[g].qubits[0] != pc.gates[g].qubits[1]
  {
    assert GateShaped(pc, g);
  }

  /** The logical gate is the dependency of all its qubits and asks for exactly this physical gate. */
  predicate Due(pc: Circuit, lc: Circuit, adj: seq<seq<nat>>, labels: seq<nat>, dependency: seq<Option<nat>>, g: nat, lg: nat) {
    && PassableGate(pc, lc, adj, labels, g, lg)
    && forall q :: q in lc.gates[lg].qubits ==> DependencyOf(dependency, q) == Some(lg)
  }

  /** The condition under which the checker executes a physical gate. */
  ghost predicate Executable(pc: Circuit, lc: Circuit, adj: seq<seq<nat>>, labels: seq<nat>, dependency: seq<Option<nat>>, g: nat) {
    exists lg :: Due(pc, lc, adj, labels, dependency, g, lg)
  }

  lemma DependencyInCircuit(c: Circuit, chains: seq<seq<nat>>, pos: seq<nat>, dependency: seq<Option<nat>>, l: nat)
    requires Chained(c, chains) && Tracks(chains, pos, dependency)
    ensures DependencyOf(dependency, l).Some? ==> l < |dependency| && On(c, DependencyOf(dependency, l).value, l)
  {
    if DependencyOf(dependency, l).Some? {
      assert ChainOk(c, chains[l], l) && LinkAt(c, chains[l], l, pos[l]);
    }
  }

  /** At the end of all chains the whole logical circuit has been recorded. */
  lemma NothingRemains(c: Circuit, chains: seq<seq<nat>>, pos: seq<nat>, dependency: seq<Option<nat>>, n: nat)
    requires InCircuit(c, chains) && Tracks(chains, pos, dependency) && forall l :: 0 <= l < |dependency| ==> dependency[l] == None
    ensures LogAt(c, chains, pos, n) == FullLog(c, chains, n)
  {
  }

  lemma PhysicalShape(c: Circuit, chains: seq<seq<nat>>, ppos: seq<nat>, g: nat, n: nat)
    requires Chained(c, chains) && NextOn(c, chains, ppos, g) && |chains| <= n
    ensures c.gates[g].Shape(n)
  {
    assert GateShaped(c, g);
  }

  lemma LogicalShape(c: Circuit, g: nat, arity: string -> nat)
    requires Shaped(c) && Typed(c, arity) && g in c.gates
    ensures c.gates[g].Shape(|c.first|) && |c.gates[g].qubits| == arity(c.gates[g].kind)
  {
    assert GateShaped(c, g);
  }

  /** The tests on a one-qubit gate decide whether it is executable. */
  lemma SingleDecides(pc: Circuit, lc: Circuit, lchains: seq<seq<nat>>, pos: seq<nat>, adj: seq<seq<nat>>, labels: seq<nat>, dependency: seq<Option<nat>>, arity: string -> nat, g: nat)
    requires Chained(lc, lchains) && Tracks(lchains, pos, dependency) && Typed(pc, arity) && Typed(lc, arity)
    requires g in pc.gates && pc.gates[g].Shape(|adj|) && |labels| == |adj| && |pc.gates[g].qubits| == 1
    ensures var dep := DependencyOf(dependency, labels[pc.gates[g].qubits[0]]);
      && (dep.Some? ==> dep.value in lc.gates && |lc.gates[dep.value].qubits| > 0)
      && (Executable(pc, lc, adj, labels, dependency, g)
          <==> dep.Some? && lc.gates[dep.value].kind == pc.gates[g].kind && lc.gates[dep.value].qubits[0] == labels[pc.gates[g].qubits[0]])
      && (Executable(pc, lc, adj, labels, dependency, g) ==> Due(pc, lc, adj, labels, dependency, g, dep.value))
  {
    var l := labels[pc.gates[g].qubits[0]];
    var dep := DependencyOf(dependency, l);
    DependencyInCircuit(lc, lchains, pos, dependency, l);
    if dep.Some? {
      LogicalShape(lc, dep.value, arity);
      if lc.gates[dep.value].kind == pc.gates[g].kind && lc.gates[dep.value].qubits[0] == l {
        assert lc.gates[dep.value].qubits == [l];
        assert Due(pc, lc, adj, labels, dependency, g, dep.value);
      }
    }
    if Executable(pc, lc, adj, labels, dependency, g) {
      var lg :| Due(pc, lc, adj, labels, dependency, g, lg);
      assert lc.gates[lg].qubits[0] == l && l in lc.gates[lg].qubits;
    }
  }

  /** The tests on a two-qubit gate decide whether it is executable. */
  lemma DoubleDecides(pc: Circuit, lc: Circuit, lchains: seq<seq<nat>>, pos: seq<nat>, adj: seq<seq<nat>>, labels: seq<nat>, dependency: seq<Option<nat>>, arity: string -> nat, g: nat)
    requires Chained(lc, lchains) && Tracks(lchains, pos, dependency) && Typed(pc, arity) && Typed(lc, arity)
    requires g in pc.gates && pc.gates[g].Shape(|adj|) && |labels| == |adj| && |pc.gates[g].qubits| == 2
    ensures
      var p0, p1 := pc.gates[g].qubits[0], pc.gates[g].qubits[1];
      var dep0, dep := DependencyOf(dependency, labels[p0]), DependencyOf(dependency, labels[p1]);
      && (dep.Some? ==> dep.value in lc.gates && |lc.gates[dep.value].qubits| > 0)
      && (dep.Some? && lc.gates[dep.value].kind == pc.gates[g].kind ==> |lc.gates[dep.value].qubits| == 2)
      && (Executable(pc, lc, adj, labels, dependency, g)
          <==> && dep0 == dep && dep.Some? && lc.gates[dep.value].kind == pc.gates[g].kind
               && lc.gates[dep.value].qubits[0] == labels[p0] && lc.gates[dep.value].qubits[1] == labels[p1] && p1 in adj[p0])
      && (Executable(pc, lc, adj, labels, dependency, g) ==> Due(pc, lc, adj, labels, dependency, g, dep.value))
  {
    var p0, p1 := pc.gates[g].qubits[0], pc.gates[g].qubits[1];
    var dep := DependencyOf(dependency, labels[p1]);
    DependencyInCircuit(lc, lchains, pos, dependency, labels[p1]);
    if dep.Some? {
      LogicalShape(lc, dep.value, arity);
      var qubits := lc.gates[dep.value].qubits;
      if DependencyOf(dependency, labels[p0]) == dep && lc.gates[dep.value].kind == pc.gates[g].kind && qubits[0] == labels[p0] && qubits[1] == labels[p1] && p1 in adj[p0] {
        assert qubits == [labels[p0], labels[p1]];
        assert Due(pc, lc, adj, labels, dependency, g, dep.value);
      }
    }
    if Executable(pc, lc, adj, labels, dependency, g) {
      var lg :| Due(pc, lc, adj, labels, dependency, g, lg);
      var qubits := lc.gates[lg].qubits;
      assert qubits[0] in qubits && qubits[1] in qubits;
    }
  }

  /** The dependencies with those of a gate moved on to its successors. */
  function MovedOn(lc: Circuit, lg: nat, dependency: seq<Option<nat>>): seq<Option<nat>>
    requires Shaped(lc) && lg in lc.gates && (|lc.gates[lg].qubits| == 1 || |lc.gates[lg].qubits| == 2)
    requires forall q :: q in lc.gates[lg].qubits ==> q < |dependency|
  {
    var qubits := lc.gates[lg].qubits;
    assert forall i :: 0 <= i < |qubits| ==> qubits[i] in qubits;
    var first := dependency[qubits[0] := GetNext(lc, lg, 0)];
    if |qubits| == 2 then first[qubits[1] := GetNext(lc, lg, 1)] else first
  }

  lemma DependenciesMove(lc: Circuit, lchains: seq<seq<nat>>, pos: seq<nat>, dependency: seq<Option<nat>>, lg: nat)
    requires Chained(lc, lchains) && Tracks(lchains, pos, dependency) && lg in lc.gates
    requires |lc.gates[lg].qubits| == 1 || |lc.gates[lg].qubits| == 2
    ensures forall q :: q in lc.gates[lg].qubits ==> q < |dependency|
    ensures forall q :: 0 <= q < |lchains| ==> MovedOn(lc, lg, dependency)[q] == if On(lc, lg, q) then SuccOn(lc, lg, q) else dependency[q]
  {
    assert GateShaped(lc, lg);
    NextIsSuccessor(lc, lchains, lg, 0);
    if |lc.gates[lg].qubits| == 2 {
      NextIsSuccessor(lc, lchains, lg, 1);
    }
  }

  /** After g the same two qubits meet next in h, a CX the other way round. */
  predicate BackCX(c: Circuit, g: nat, h: nat) {
    && Shaped(c) && g in c.gates && h in c.gates && |c.gates[g].qubits| == 2
    && var a, b := c.gates[g].qubits[0], c.gates[g].qubits[1];
       c.gates[h] == LogicalGate(CX, [b, a]) && SuccOn(c, g, a) == Some(h) && SuccOn(c, g, b) == Some(h)
  }

  /** The gate is the first of three CX in a row that make up a swap. */
  ghost predicate StartsSwap(c: Circuit, g: nat) {
    && Shaped(c) && g in c.gates && c.gates[g].kind == CX
    && exists g1, g2 :: BackCX(c, g, g1) && BackCX(c, g1, g2)
  }

  lemma SwapIsTriple(c: Circuit, g: nat, g1: nat, g2: nat)
    requires Shaped(c) && g in c.gates && c.gates[g].kind == CX && BackCX(c, g, g1) && BackCX(c, g1, g2)
    ensures Triple(c, g, g1, g2) && InARow(c, g, g1, g2)
  {
    assert c.gates[g] == LogicalGate(CX, [c.gates[g].qubits[0], c.gates[g].qubits[1]]);
  }

  /** What the tests on both pins of a gate decide. */
  lemma BackDecided(c: Circuit, chains: seq<seq<nat>>, arity: string -> nat, g: nat)
    requires Chained(c, chains) && Typed(c, arity) && arity(CX) == 2 && g in c.gates && |c.gates[g].qubits| == 2
    ensures
      var n0, n1 := GetNext(c, g, 0), GetNext(c, g, 1);
      && (forall h :: BackCX(c, g, h) ==> n0 == n1 == Some(h) && c.gates[h] == LogicalGate(CX, [c.gates[g].qubits[1], c.gates[g].qubits[0]]))
      && (n0 == n1 && n0.Some? && n0.value in c.gates && c.gates[n0.value].kind == CX ==>
            && |c.gates[n0.value].qubits| == 2
            && (c.gates[g].qubits[0] == c.gates[n0.value].qubits[1] && c.gates[g].qubits[1] == c.gates[n0.value].qubits[0]
                ==> BackCX(c, g, n0.value)))
  {
    NextIsSuccessor(c, chains, g, 0);
    NextIsSuccessor(c, chains, g, 1);
    var n0 := GetNext(c, g, 0);
    if n0.Some? && c.gates[n0.value].kind == CX {
      var h := n0.value;
      LogicalShape(c, h, arity);
      assert c.gates[h] == LogicalGate(CX, [c.gates[h].qubits[0], c.gates[h].qubits[1]]);
    }
  }

  /** The next logical gate of both qubits is the same CX, in one direction or the other. */
  predicate CXIsDue(lc: Circuit, dependency: seq<Option<nat>>, l0: nat, l1: nat) {
    var dep := DependencyOf(dependency, l0);
    dep == DependencyOf(dependency, l1) && dep.Some? && dep.value in lc.gates && lc.gates[dep.value].kind == CX
  }

  /** The gate is read as the first one of a swap: unless the first CX is the next logical gate. */
  ghost predicate ReadsSwap(pc: Circuit, lc: Circuit, labels: seq<nat>, dependency: seq<Option<nat>>, g: nat)
    requires g in pc.gates && pc.gates[g].Shape(|labels|)
  {
    var qubits := pc.gates[g].qubits;
    |qubits| == 2 && StartsSwap(pc, g) && !CXIsDue(lc, dependency, labels[qubits[0]], labels[qubits[1]])
  }

  /** The condition under which the checker goes on at a physical gate. */
  ghost predicate Acceptable(pc: Circuit, lc: Circuit, adj: seq<seq<nat>>, labels: seq<nat>, dependency: seq<Option<nat>>, g: nat) {
    && g in pc.gates && pc.gates[g].Shape(|labels|) && |labels| == |adj|
    && if ReadsSwap(pc, lc, labels, dependency, g) then pc.gates[g].qubits[1] in adj[pc.gates[g].qubits[0]]
       else Executable(pc, lc, adj, labels, dependency, g)
  }

  /** Gates on more than two qubits are never executed. */
  lemma NotExecutable(pc: Circuit, lc: Circuit, adj: seq<seq<nat>>, labels: seq<nat>, dependency: seq<Option<nat>>, g: nat)
    requires g in pc.gates && |pc.gates[g].qubits| > 2
    ensures !Executable(pc, lc, adj, labels, dependency, g)
  {
  }

  /** The operation the checker reads there. */
  ghost function ReadAs(pc: Circuit, lc: Circuit, labels: seq<nat>, dependency: seq<Option<nat>>, g: nat): Operation
    requires g in pc.gates && pc.gates[g].Shape(|labels|)
  {
    if ReadsSwap(pc, lc, labels, dependency, g) then SwapOf(pc.gates[g]) else OpOf(pc.gates[g])
  }

  /** The first i listed gates have been read, and beyond them only gates of swaps. */
  predicate Walked(order: seq<nat>, i: nat, seen: set<nat>, swaps: set<nat>)
    requires i <= |order|
  {
    && Distinct(order) && (forall j :: 0 <= j < i ==> order[j] in seen)
    && swaps <= seen && forall g :: g in seen ==> g in swaps || g in order[..i]
  }

  lemma WalkedNone(order: seq<nat>)
    requires Distinct(order)
    ensures Walked(order, 0, {}, {})
  {
  }

  lemma WalkedPast(order: seq<nat>, i: nat, seen: set<nat>, swaps: set<nat>)
    requires i < |order| && Walked(order, i, seen, swaps) && order[i] in swaps
    ensures Walked(order, i + 1, seen, swaps)
  {
    assert order[..i + 1] == order[..i] + [order[i]];
  }

  lemma WalkedOne(order: seq<nat>, i: nat, seen: set<nat>, swaps: set<nat>, extra: set<nat>)
    requires i < |order| && Walked(order, i, seen, swaps)
    ensures Walked(order, i + 1, seen + extra + {order[i]}, swaps + extra)
  {
    assert order[..i + 1] == order[..i] + [order[i]];
  }

  /** A listed gate that belongs to no swap is next on its qubits. */
  lemma NextUnread(c: Circuit, chains: seq<seq<nat>>, order: seq<nat>, i: nat, seen: set<nat>, ppos: seq<nat>, texts: seq<seq<LogicalGate>>, swaps: set<nat>)
    requires Chained(c, chains) && Topological(c, chains, order) && ReadTo(c, chains, seen, ppos, texts)
    requires i < |order| && Walked(order, i, seen, swaps) && order[i] !in swaps
    ensures NextOn(c, chains, ppos, order[i]) && |c.gates[order[i]].qubits| > 0
  {
    ListedIsNext(c, chains, order, i, seen, ppos, texts);
    assert GateShaped(c, order[i]);
  }

  /** When all gates have been read, the texts are the words of the circuit. */
  lemma AllRead(c: Circuit, chains: seq<seq<nat>>, order: seq<nat>, seen: set<nat>, ppos: seq<nat>, texts: seq<seq<LogicalGate>>, found: seq<Operation>, swaps: set<nat>)
    requires Chained(c, chains) && Topological(c, chains, order) && ReadTo(c, chains, seen, ppos, texts) && Texts(texts, found)
    requires Walked(order, |order|, seen, swaps)
    ensures Spells(c.gates, chains, found)
  {
    forall q: nat | q < |chains| ensures WordOn(c.gates, chains, q) == ExpandOn(found, q) {
      assert ChainOk(c, chains[q], q);
      ChainMembers(c, chains[q], q);
      forall k | 0 <= k < |chains[q]| ensures chains[q][k] in seen {
        assert chains[q][k] in chains[q];
        assert chains[q][k] in order;
      }
      assert |chains[q]| > 0 ==> chains[q][|chains[q]| - 1] in seen;
      assert chains[q][..ppos[q]] == chains[q];
    }
  }

  lemma CheckStarts(pc: Circuit, pchains: seq<seq<nat>>, lc: Circuit, lchains: seq<seq<nat>>, adj: seq<seq<nat>>, m0: seq<nat>)
    requires Chained(pc, pchains) && Chained(lc, lchains) && Placement(m0, |adj|)
    ensures Checked(pc, pchains, lc, lchains, adj, m0, m0, lc.first,
                    Reading({}, seq(|pchains|, i => 0), seq(|pchains|, i => []), [], seq(|lchains|, i => 0), {}))
  {
    ChainsInCircuit(lc, lchains);
    FoundNothing(adj, m0);
    forall l | 0 <= l < |lchains| ensures lc.first[l] == FirstOf(lchains[l]) { assert ChainOk(lc, lchains[l], l); }
    assert LogAt(lc, lchains, seq(|lchains|, i => 0), |adj|) == seq(|adj|, i => []);
    assert ReadTo(pc, pchains, {}, seq(|pchains|, i => 0), seq(|pchains|, i => [])) by {
      forall q | 0 <= q < |pchains| ensures Spelled(pc.gates, pchains[q][..0]) == [] { }
    }
  }
}
