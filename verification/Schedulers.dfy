/**
 Schedulers: they pick available gates one by one, let the router place each of them, and
 sort all emitted operations by start time. Replaying the sorted list executes the logical circuit.
 */
module Schedulers {
  import opened Sequences
  import opened TimedReplay
  import opened Devices
  import opened Circuits
  import opened CircuitTopologies
  import opened PickingOrder
  import opened Routers
  import opened SharpTimes
  import opened SwapPurposes

  // ---------- what has to be recorded ----------

  /** The events of the first k gates of a chain. */
  function Events(c: Circuit, chain: seq<nat>, k: nat): seq<Event>
    requires k <= |chain| && forall g :: g in chain ==> g in c.gates
  {
    seq(k, i requires 0 <= i < k => assert chain[i] in chain; EventOf(c.gates[chain[i]]))
  }

  predicate InCircuit(c: Circuit, chains: seq<seq<nat>>) {
    forall q, g :: 0 <= q < |chains| && g in chains[q] ==> g in c.gates
  }

  /** The record of all logical qubits when the gates in done have been executed; qubits without a chain see nothing. */
  function LogOf(c: Circuit, chains: seq<seq<nat>>, done: set<nat>, n: nat): (r: seq<seq<Event>>)
    requires InCircuit(c, chains)
    ensures |r| == n
  {
    seq(n, l requires 0 <= l < n =>
      if l < |chains| then Events(c, chains[l], DoneCount(chains[l], done)) else [])
  }

  /** The record of the whole circuit: every logical qubit sees the gates of its chain, each once and in order. */
  function FullLog(c: Circuit, chains: seq<seq<nat>>, n: nat): (r: seq<seq<Event>>)
    requires InCircuit(c, chains)
    ensures |r| == n
    ensures forall l :: 0 <= l < n ==> r[l] == if l < |chains| then Events(c, chains[l], |chains[l]|) else []
  {
    seq(n, l requires 0 <= l < n => if l < |chains| then Events(c, chains[l], |chains[l]|) else [])
  }

  lemma ChainsInCircuit(c: Circuit, chains: seq<seq<nat>>)
    requires Chained(c, chains)
    ensures InCircuit(c, chains)
  {
    forall q, g | 0 <= q < |chains| && g in chains[q] ensures g in c.gates {
      assert ChainOk(c, chains[q], q);
      ChainMembers(c, chains[q], q);
    }
  }

  lemma LogStarts(c: Circuit, chains: seq<seq<nat>>, n: nat)
    requires InCircuit(c, chains)
    ensures LogOf(c, chains, {}, n) == seq(n, i => [])
  {
  }

  lemma LogGrowsAt(c: Circuit, chains: seq<seq<nat>>, done: set<nat>, g: nat, n: nat, l: nat)
    requires Chained(c, chains) && DownClosed(c, done) && Frontier(c, g, done) && l < |chains| <= n && InCircuit(c, chains)
    ensures LogOf(c, chains, done + {g}, n)[l] == LogOf(c, chains, done, n)[l] + if l in c.gates[g].qubits then [EventOf(c.gates[g])] else []
  {
    ExecutedMoves(c, chains, done, g, l);
  }

  /** Executing an available gate appends its event to the records of exactly its operands. */
  lemma LogGrows(c: Circuit, chains: seq<seq<nat>>, done: set<nat>, g: nat, n: nat)
    requires Chained(c, chains) && DownClosed(c, done) && Frontier(c, g, done) && |chains| <= n && InCircuit(c, chains)
    ensures InRange(EventOf(c.gates[g]), n)
    ensures LogOf(c, chains, done + {g}, n) == LogEvent(LogOf(c, chains, done, n), EventOf(c.gates[g]))
  {
    assert GateShaped(c, g);
    var before, after := LogOf(c, chains, done, n), LogOf(c, chains, done + {g}, n);
    var e := EventOf(c.gates[g]);
    forall l | 0 <= l < n ensures after[l] == before[l] + if l in e.operands then [e] else [] {
      if l < |chains| { LogGrowsAt(c, chains, done, g, n, l); }
    }
    assert after == LogEvent(before, e);
  }

  lemma LogComplete(c: Circuit, chains: seq<seq<nat>>, n: nat)
    requires InCircuit(c, chains)
    ensures LogOf(c, chains, c.gates.Keys, n) == FullLog(c, chains, n)
  {
    forall l | 0 <= l < n && l < |chains| ensures DoneCount(chains[l], c.gates.Keys) == |chains[l]| {
      CountIs(chains[l], c.gates.Keys, |chains[l]|);
    }
  }

  // ---------- appending the operations of one gate ----------

  /** All operations emitted so far take the device from its start to its present state and have recorded the given log. */
  ghost predicate Progress(adj: seq<seq<nat>>, start: seq<PhysicalQubit>, ops: seq<Operation>, qs: seq<PhysicalQubit>, log: seq<seq<Event>>) {
    && Timed(adj, start, ops, qs) && Placement(Logicals(start), |start|) && |log| == |start|
    && Run(DeviceSim(start, seq(|start|, i => [])), ops) == DeviceSim(qs, log)
  }

  lemma ProgressStarts(adj: seq<seq<nat>>, start: seq<PhysicalQubit>)
    requires |start| == |adj| && Placement(Logicals(start), |start|)
    ensures Progress(adj, start, [], start, seq(|start|, i => []))
  {
  }

  lemma TimesConcat(a: seq<Operation>, b: seq<Operation>, before: seq<nat>, mid: seq<nat>, after: seq<nat>)
    requires AllFit(a, |before|) && AllFit(b, |before|) && NotLater(before, mid) && NotLater(mid, after)
    requires AllWithin(a, before, mid) && AllWithin(b, mid, after) && Spaced(a) && Spaced(b)
    ensures AllFit(a + b, |before|) && NotLater(before, after) && AllWithin(a + b, before, after) && Spaced(a + b)
  {
    var s := a + b;
    forall i | 0 <= i < |s| ensures Within(s[i], before, after) {
      if i < |a| {
        assert Within(a[i], before, mid);
        WithinLater(a[i], before, mid, after);
      } else {
        assert Within(b[i - |a|], mid, after);
        WithinEarlier(b[i - |a|], before, mid, after);
      }
    }
    forall i, j | 0 <= i < j < |s| ensures Follows(s[i], s[j]) {
      if j < |a| {
        assert Follows(a[i], a[j]);
      } else if i >= |a| {
        assert Follows(b[i - |a|], b[j - |a|]);
      } else {
        assert Within(a[i], before, mid) && Within(b[j - |a|], mid, after);
        WithinFollows(a[i], before, mid, b[j - |a|], after);
      }
    }
  }

  lemma WithinFollows(x: Operation, before: seq<nat>, mid: seq<nat>, y: Operation, after: seq<nat>)
    requires x.Fits(|before|) && y.Fits(|before|) && |before| == |mid| == |after| && Within(x, before, mid) && Within(y, mid, after)
    ensures Follows(x, y)
  {
    assert FreeFor(mid, y);
    FollowsReady(x, before, mid, y);
  }

  lemma ProgressGrows(adj: seq<seq<nat>>, start: seq<PhysicalQubit>, ops: seq<Operation>, qs: seq<PhysicalQubit>, log: seq<seq<Event>>, more: seq<Operation>, qs': seq<PhysicalQubit>, e: Event)
    requires Progress(adj, start, ops, qs, log) && Routed(adj, qs, more, qs', e)
    ensures Progress(adj, start, ops + more, qs', LogEvent(log, e))
  {
    TimesConcat(ops, more, Occupied(start), Occupied(qs), Occupied(qs'));
    assert AllPhysical(adj, ops + more) by {
      forall i | 0 <= i < |ops + more| ensures Physical(adj, (ops + more)[i]) {
        assert i < |ops| ==> Physical(adj, ops[i]);
        assert i >= |ops| ==> Physical(adj, more[i - |ops|]);
      }
    }
    RunConcat(DeviceSim(start, seq(|start|, i => [])), ops, more);
    assert Executes(qs, log, more, qs', e);
  }

  lemma ProgressSharp(adj: seq<seq<nat>>, start: seq<PhysicalQubit>, ops: seq<Operation>, qs: seq<PhysicalQubit>, log: seq<seq<Event>>, more: seq<Operation>)
    requires Progress(adj, start, ops, qs, log) && Sharp(Occupied(start), ops) && Sharp(Occupied(qs), more)
    ensures Sharp(Occupied(start), ops + more)
  {
    SharpGrows(DeviceSim(start, seq(|start|, i => [])), ops, more);
  }

  // ---------- the swaps ----------

  /** From the start of the device on, no swap exchanges two logical qubits that wait for the same gate of the circuit. */
  ghost predicate Guided(start: seq<PhysicalQubit>, ops: seq<Operation>, c: Circuit, chains: seq<seq<nat>>) {
    && Placement(Logicals(start), |start|) && AllFit(ops, |start|)
    && Purposeful(c.gates.Keys, chains, DeviceSim(start, seq(|start|, i => [])), ops)
  }

  /** The gate that comes next on a qubit when the gates in done have been executed. */
  lemma NextToDo(c: Circuit, chains: seq<seq<nat>>, done: set<nat>, n: nat, l: nat)
    requires Chained(c, chains) && InCircuit(c, chains) && l < |chains| && l < n
    ensures |LogOf(c, chains, done, n)[l]| == DoneCount(chains[l], done)
    ensures DoneCount(chains[l], done) < |chains[l]| ==> On(c, chains[l][DoneCount(chains[l], done)], l)
  {
    assert ChainOk(c, chains[l], l);
    var k := DoneCount(chains[l], done);
    assert k < |chains[l]| ==> LinkAt(c, chains[l], l, k);
  }

  /** An available gate comes next on its operands, so only they wait for what they wait for. */
  lemma AvailableIsAwaited(c: Circuit, chains: seq<seq<nat>>, done: set<nat>, g: nat, n: nat)
    requires Chained(c, chains) && DownClosed(c, done) && Frontier(c, g, done) && |chains| <= n && InCircuit(c, chains)
    ensures Awaited(c.gates.Keys, chains, LogOf(c, chains, done, n), c.gates[g].qubits)
  {
    var log := LogOf(c, chains, done, n);
    var operands := c.gates[g].qubits;
    forall l0: nat, l1: nat | l0 in operands <==> l1 !in operands ensures !DueTogether(c.gates.Keys, chains, log, l0, l1) {
      if DueTogether(c.gates.Keys, chains, log, l0, l1) {
        var on, off := if l0 in operands then l0 else l1, if l0 in operands then l1 else l0;
        NextToDo(c, chains, done, n, on);
        NextToDo(c, chains, done, n, off);
        ExecutedMoves(c, chains, done, g, on);
        assert false;
      }
    }
  }

  lemma GuidedStarts(start: seq<PhysicalQubit>, c: Circuit, chains: seq<seq<nat>>)
    requires Placement(Logicals(start), |start|)
    ensures Guided(start, [], c, chains)
  {
  }

  lemma GuidedGrows(adj: seq<seq<nat>>, start: seq<PhysicalQubit>, ops: seq<Operation>, qs: seq<PhysicalQubit>, log: seq<seq<Event>>,
                    more: seq<Operation>, operands: seq<nat>, c: Circuit, chains: seq<seq<nat>>)
    requires Guided(start, ops, c, chains) && Progress(adj, start, ops, qs, log)
    requires Steered(qs, more, operands) && Awaited(c.gates.Keys, chains, log, operands)
    ensures Guided(start, ops + more, c, chains)
  {
    PurposefulConcat(c.gates.Keys, chains, DeviceSim(start, seq(|start|, i => [])), ops, more);
  }

  lemma SortedGuided(adj: seq<seq<nat>>, start: seq<PhysicalQubit>, ops: seq<Operation>, qs: seq<PhysicalQubit>, log: seq<seq<Event>>, c: Circuit, chains: seq<seq<nat>>, sorted: seq<Operation>)
    requires Guided(start, ops, c, chains) && Progress(adj, start, ops, qs, log)
    requires SortedByStart(sorted) && multiset(sorted) == multiset(ops)
    ensures Guided(start, sorted, c, chains)
  {
    SortedPurposeful(c.gates.Keys, chains, DeviceSim(start, seq(|start|, i => [])), ops, sorted);
  }

  // ---------- the result ----------

  /**
   The operations simulate the circuit from the given start of the device: replayed, they record on every
   logical qubit exactly the gates of its chain in order, with all operands in order; two-qubit operations are on
   coupled qubits with their delays; operations that share a qubit do not overlap.
   */
  ghost predicate Simulates(adj: seq<seq<nat>>, start: seq<PhysicalQubit>, ops: seq<Operation>, qs: seq<PhysicalQubit>, c: Circuit, chains: seq<seq<nat>>) {
    && |start| == |adj| && Placement(Logicals(start), |start|) && InCircuit(c, chains)
    && AllFit(ops, |start|) && AllPhysical(adj, ops) && Spaced(ops)
    && Run(DeviceSim(start, seq(|start|, i => [])), ops) == DeviceSim(qs, FullLog(c, chains, |start|))
  }

  /** Sorting by start time, with ties in any order, changes nothing of that. */
  lemma SortedSimulates(adj: seq<seq<nat>>, start: seq<PhysicalQubit>, ops: seq<Operation>, qs: seq<PhysicalQubit>, c: Circuit, chains: seq<seq<nat>>, sorted: seq<Operation>)
    requires InCircuit(c, chains) && Progress(adj, start, ops, qs, FullLog(c, chains, |start|))
    requires SortedByStart(sorted) && multiset(sorted) == multiset(ops)
    ensures Simulates(adj, start, sorted, qs, c, chains)
  {
    SortedIsSpaced(ops, sorted, |start|);
    SortedReplay(DeviceSim(start, seq(|start|, i => [])), ops, sorted);
    SameMembers(ops, sorted, |start|);
    forall i | 0 <= i < |sorted| ensures Physical(adj, sorted[i]) {
      assert sorted[i] in ops;
    }
  }

  // ---------- the schedulers ----------

  /** All gates of the circuit are gates the router can take. */
  predicate Routable(c: Circuit, n: nat) {
    |c.first| <= n && forall g :: g in c.gates ==> c.gates[g].Fits(n) && c.gates[g].kind != SWAP
  }

  /** The latest end of the operations, 0 if there are none. */
  predicate LatestEnd(ops: seq<Operation>, m: nat) {
    && (forall op :: op in ops ==> op.end <= m)
    && (m == 0 || exists op :: op in ops && op.end == m)
  }

  method MaxEnd(ops: seq<Operation>) returns (m: nat)
    ensures LatestEnd(ops, m)
  {
    m := 0;
    for i := 0 to |ops|
      invariant forall j :: 0 <= j < i ==> ops[j].end <= m
      invariant m == 0 || exists j :: 0 <= j < i && ops[j].end == m
    {
      if ops[i].end > m { m := ops[i].end; }
    }
    if m != 0 {
      ghost var j :| 0 <= j < |ops| && ops[j].end == m;
      assert ops[j] in ops;
    }
  }

  /** While gates are left, the list of available gates is not empty, and picking one makes progress. */
  lemma SomethingLeft(c: Circuit, chains: seq<seq<nat>>, rank: map<nat, int>, available: seq<nat>, done: set<nat>)
    requires Chained(c, chains) && Ranked(chains, rank) && ListsFrontier(c, available, done)
    requires done < c.gates.Keys
    ensures |available| > 0
  {
    var g := FrontierNotEmpty(c, chains, rank, done);
  }

  /** The device a gate was routed on is what the operations before had made of it. */
  lemma PickIsOk(adj: seq<seq<nat>>, start: seq<PhysicalQubit>, emitted: seq<Operation>, c: Circuit, tieMin: bool, p: Pick,
                 log: seq<seq<Event>>, qs': seq<PhysicalQubit>, log': seq<seq<Event>>)
    requires Progress(adj, start, emitted, p.qs, log) && Progress(adj, start, emitted + p.ops, qs', log')
    requires p.from == |emitted| && p.gate in p.waiting && p.gate in c.gates && p.gate in c.succs && Idle(p.qs)
    requires RouteOf(adj, p.qs, p.ops, c.gates[p.gate], tieMin)
    ensures PickOk(adj, start, emitted + p.ops, c, tieMin, p)
  {
    hide RouteOf, Progress, Finds, Idle, AllFit, Placement;
    ProgressFinds(adj, start, emitted, p.qs, log);
    ProgressFinds(adj, start, emitted + p.ops, qs', log');
    assert (emitted + p.ops)[..p.from] == emitted;
    assert (emitted + p.ops)[p.from..p.from + |p.ops|] == p.ops;
  }

  lemma ProgressFinds(adj: seq<seq<nat>>, start: seq<PhysicalQubit>, emitted: seq<Operation>, qs: seq<PhysicalQubit>, log: seq<seq<Event>>)
    requires Progress(adj, start, emitted, qs, log)
    ensures Placement(Logicals(start), |start|) && AllFit(emitted, |start|) && Finds(start, emitted, qs)
  {
    hide Run, AllPhysical, AllWithin, Spaced, NotLater;
  }

  lemma NothingPicked(choice: Choice, adj: seq<seq<nat>>, c: Circuit)
    ensures AllPickedBy(choice, adj, c, [])
  {
  }

  lemma SomeWaiting(available: seq<nat>) returns (g: nat)
    requires |available| > 0
    ensures g in available
  {
    g := available[0];
  }

  lemma NoFrontier(c: Circuit, available: seq<nat>)
    requires ListsFrontier(c, available, c.gates.Keys)
    ensures available == []
  {
    if |available| > 0 { var g := SomeWaiting(available); }
  }

  class Scheduler {
    const topology: CircuitTopology
    const router: Router
    var operations: seq<Operation>
    ghost const start: seq<PhysicalQubit>
    ghost var picks: seq<Pick>

    ghost predicate Valid()
      reads this, topology, router, router.device
    {
      && topology.Valid() && router.Valid() && InCircuit(topology.circuit, topology.chains)
      && Routable(topology.circuit, |router.device.adj|) && |start| == |router.device.adj|
      && Progress(router.device.adj, start, operations, router.device.qubits,
                  LogOf(topology.circuit, topology.chains, topology.done, |start|))
      && Guided(start, operations, topology.circuit, topology.chains) && Sharp(Occupied(start), operations)
      && History(router.device.adj, start, operations, topology.circuit, router.tieMin, picks, topology.available, topology.done)
    }

    /** Starts with a fresh topology on a fresh router. */
    constructor (topology: CircuitTopology, router: Router)
      requires topology.Valid() && topology.done == {} && router.Valid() && Routable(topology.circuit, |router.device.adj|)
      requires Increasing(topology.available)
      ensures Valid() && this.topology == topology && this.router == router && start == router.device.qubits
      ensures operations == [] && picks == []
    {
      this.topology, this.router, this.start := topology, router, router.device.qubits;
      operations, picks := [], [];
      new;
      HistoryStarts(router.device.adj, start, topology.circuit, router.tieMin, topology.available);
      ChainsInCircuit(topology.circuit, topology.chains);
      ProgressStarts(router.device.adj, start);
      LogStarts(topology.circuit, topology.chains, |start|);
      GuidedStarts(start, topology.circuit, topology.chains);
    }

    /** Lets the router place an available gate. */
    method Place(gate: LogicalGate, ghost log: seq<seq<Event>>) returns (ops: seq<Operation>)
      requires router.Valid() && gate.Fits(|router.device.adj|) && gate.kind != SWAP
      requires Progress(router.device.adj, start, operations, router.device.qubits, log)
      requires Guided(start, operations, topology.circuit, topology.chains) && Sharp(Occupied(start), operations)
      requires Awaited(topology.circuit.gates.Keys, topology.chains, log, gate.qubits)
      modifies router, router.device
      ensures router.Valid() && Guided(start, operations + ops, topology.circuit, topology.chains)
      ensures Progress(router.device.adj, start, operations + ops, router.device.qubits, LogEvent(log, EventOf(gate)))
      ensures RouteOf(router.device.adj, old(router.device.qubits), ops, gate, router.tieMin)
      ensures Sharp(Occupied(start), operations + ops)
    {
      hide Sharp, Progress, Guided, Routed, Steered, Awaited, RouteOf, Connected, Idle, Inverse, Placement, Couplings;
      ghost var qs := router.device.qubits;
      ops := router.AssignGate(gate);
      GuidedGrows(router.device.adj, start, operations, qs, log, ops, gate.qubits, topology.circuit, topology.chains);
      ProgressSharp(router.device.adj, start, operations, qs, log, ops);
      ProgressGrows(router.device.adj, start, operations, qs, log, ops, router.device.qubits, EventOf(gate));
    }

    /** Routes an available gate and records that it has been executed; returns when its last operation ends. */
    method RouteOneGate(g: nat) returns (maxCost: nat)
      requires Valid() && g in topology.available
      modifies this, topology, router, router.device
      ensures Valid() && topology.done == old(topology.done) + {g} && g !in old(topology.done)
      ensures old(operations) <= operations && LatestEnd(operations[|old(operations)|..], maxCost)
      ensures |picks| > 0 && picks == old(picks) + [picks[|picks| - 1]]
      ensures var p := picks[|picks| - 1];
        p.gate == g && p.waiting == old(topology.available) && p.qs == old(router.device.qubits)
    {
      hide Sharp, Progress, Guided, History, Awaited, RouteOf, PickOk, Connected, Inverse, Placement, Couplings, TableOk, DownClosed, Ranked, WaitingAfter;
      assert Frontier(topology.circuit, g, topology.done);
      LogGrows(topology.circuit, topology.chains, topology.done, g, |start|);
      AvailableIsAwaited(topology.circuit, topology.chains, topology.done, g, |start|);
      ghost var qs, log := router.device.qubits, LogOf(topology.circuit, topology.chains, topology.done, |start|);
      var ops := Place(topology.circuit.gates[g], log);
      maxCost := MaxEnd(ops);
      ghost var p := Pick(g, topology.available, topology.done, qs, |operations|, ops);
      topology.UpdateAvailableGates(g);
      PickIsOk(router.device.adj, start, operations, topology.circuit, router.tieMin, p, log, router.device.qubits, LogEvent(log, EventOf(topology.circuit.gates[g])));
      HistoryGrows(router.device.adj, start, operations, topology.circuit, router.tieMin, picks, p, topology.available);
      assert (operations + ops)[|operations|..] == ops;
      operations := operations + ops;
      picks := picks + [p];
    }

    /** The first available gate whose operands are coupled, if there is one. */
    method GetExecutableGate() returns (r: Option<nat>)
      requires Valid()
      ensures FirstExecutable(router.device.adj, router.device.qubits, topology.circuit, topology.available, r)
      ensures r.Some? ==> r.value in topology.available
    {
      hide Sharp, Progress, Guided, History, ExecutableOn, Connected, Inverse, Placement, Couplings, TableOk, DownClosed, Ranked;
      for i := 0 to |topology.available|
        invariant NoneBefore(router.device.adj, router.device.qubits, topology.circuit, topology.available, i)
      {
        assert Frontier(topology.circuit, topology.available[i], topology.done);
        var ok := router.IsExecutable(topology.circuit.gates[topology.available[i]]);
        if ok {
          return Some(topology.available[i]);
        }
      }
      return None;
    }

    /** A gate is waiting as long as not all gates have been executed. */
    lemma WaitlistNotEmpty()
      requires Valid() && topology.done != topology.circuit.gates.Keys
      ensures |topology.available| > 0
    {
      SomethingLeft(topology.circuit, topology.chains, topology.rank, topology.available, topology.done);
    }

    /** Routes all gates: an executable one first, else the first available one. */
    method AssignNaive()
      requires Valid() && topology.done == {} && picks == []
      modifies this, topology, router, router.device
      ensures Valid() && topology.done == topology.circuit.gates.Keys
      ensures AllPickedBy(Naive, router.device.adj, topology.circuit, picks)
    {
      hide Valid, AllPickedBy;
      assert AllPickedBy(Naive, router.device.adj, topology.circuit, []) by { NothingPicked(Naive, router.device.adj, topology.circuit); }
      var count := 0;
      while count < |topology.circuit.gates|
        invariant Valid() && |topology.done| == count <= |topology.circuit.gates| && |picks| == count
        invariant AllPickedBy(Naive, router.device.adj, topology.circuit, picks)
      {
        ghost var was := picks;
        WaitlistNotEmpty();
        var choice := GetExecutableGate();
        var cost := RouteOneGate(if choice.Some? then choice.value else topology.available[0]);
        AllPickedNext(Naive, router.device.adj, topology.circuit, was, picks[|was|]);
        count := count + 1;
        DoneSize();
      }
      AllDone();
    }

    /** Routes all gates in the order of the given random numbers. */
    method AssignRandom(rand: nat -> nat)
      requires Valid() && topology.done == {} && picks == []
      modifies this, topology, router, router.device
      ensures Valid() && topology.done == topology.circuit.gates.Keys
      ensures AllPickedBy(Random(rand), router.device.adj, topology.circuit, picks)
    {
      hide Valid, AllPickedBy;
      assert AllPickedBy(Random(rand), router.device.adj, topology.circuit, []) by { NothingPicked(Random(rand), router.device.adj, topology.circuit); }
      var count := 0;
      while count < |topology.circuit.gates|
        invariant Valid() && |topology.done| == count <= |topology.circuit.gates| && |picks| == count
        invariant AllPickedBy(Random(rand), router.device.adj, topology.circuit, picks)
      {
        ghost var was := picks;
        WaitlistNotEmpty();
        var choice := rand(count) % |topology.available|;
        var cost := RouteOneGate(topology.available[choice]);
        AllPickedNext(Random(rand), router.device.adj, topology.circuit, was, picks[|was|]);
        count := count + 1;
        DoneSize();
      }
      AllDone();
    }

    lemma DoneSize()
      requires Valid()
      ensures |topology.done| <= |topology.circuit.gates|
    {
      SubsetSize(topology.done, topology.circuit.gates.Keys);
    }

    lemma AllDone()
      requires Valid() && |topology.done| >= |topology.circuit.gates|
      ensures topology.done == topology.circuit.gates.Keys
    {
      SubsetSize(topology.done, topology.circuit.gates.Keys);
    }

    lemma NoneWaiting()
      requires Valid() && topology.done == topology.circuit.gates.Keys
      ensures topology.available == []
    {
      NoFrontier(topology.circuit, topology.available);
    }

    /** Sorts the operations; when all gates have been executed, the sorted list simulates the circuit. */
    method Sort()
      requires Valid() && topology.done == topology.circuit.gates.Keys
      modifies `operations
      ensures SortedByStart(operations) && multiset(operations) == multiset(old(operations))
      ensures Simulates(router.device.adj, start, operations, router.device.qubits, topology.circuit, topology.chains)
      ensures Guided(start, operations, topology.circuit, topology.chains) && Sharp(Occupied(start), operations)
    {
      LogComplete(topology.circuit, topology.chains, |start|);
      ghost var before := operations;
      operations := SortByStart(operations);
      SharpAnyOrder(Occupied(start), before, operations);
      SortedGuided(router.device.adj, start, before, router.device.qubits, FullLog(topology.circuit, topology.chains, |start|), topology.circuit, topology.chains, operations);
      SortedSimulates(router.device.adj, start, before, router.device.qubits, topology.circuit, topology.chains, operations);
    }

    /** Places and sorts the whole circuit with the naive choice of gates. */
    method AssignNaiveAndSort()
      requires Valid() && topology.done == {} && picks == []
      modifies this, topology, router, router.device
      ensures router.Valid() && SortedByStart(operations)
      ensures Simulates(router.device.adj, start, operations, router.device.qubits, topology.circuit, topology.chains)
      ensures Guided(start, operations, topology.circuit, topology.chains) && Sharp(Occupied(start), operations)
      ensures Scheduled(router.device.adj, start, operations, topology.circuit, Naive, router.tieMin)
    {
      AssignNaive();
      ghost var emitted := operations;
      NoneWaiting();
      Sort();
      assert RunOf(router.device.adj, start, operations, topology.circuit, Naive, router.tieMin, emitted, picks);
    }

    /** Places and sorts the whole circuit with random choices. */
    method AssignRandomAndSort(rand: nat -> nat)
      requires Valid() && topology.done == {} && picks == []
      modifies this, topology, router, router.device
      ensures router.Valid() && SortedByStart(operations)
      ensures Simulates(router.device.adj, start, operations, router.device.qubits, topology.circuit, topology.chains)
      ensures Guided(start, operations, topology.circuit, topology.chains) && Sharp(Occupied(start), operations)
      ensures Scheduled(router.device.adj, start, operations, topology.circuit, Random(rand), router.tieMin)
    {
      AssignRandom(rand);
      ghost var emitted := operations;
      NoneWaiting();
      Sort();
      assert RunOf(router.device.adj, start, operations, topology.circuit, Random(rand), router.tieMin, emitted, picks);
    }

    /** Places and sorts the whole circuit with the given choice of gates. */
    method AssignAndSort(choice: Choice)
      requires Valid() && topology.done == {} && picks == []
      modifies this, topology, router, router.device
      ensures router.Valid() && SortedByStart(operations)
      ensures Simulates(router.device.adj, start, operations, router.device.qubits, topology.circuit, topology.chains)
      ensures Guided(start, operations, topology.circuit, topology.chains) && Sharp(Occupied(start), operations)
      ensures Scheduled(router.device.adj, start, operations, topology.circuit, choice, router.tieMin)
    {
      hide Simulates, Guided, Scheduled, Sharp, Valid, SortedByStart;
      if choice.Naive? {
        AssignNaiveAndSort();
      } else {
        AssignRandomAndSort(choice.rand);
      }
    }
  }
}
