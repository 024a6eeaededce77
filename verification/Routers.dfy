/**
 The Duostra router: searches the two paths of a gate, traces them back to timed swaps,
 applies them to the device and keeps the table from logical to physical qubits.
 */
module Routers {
  import opened Sequences
  import opened TimedReplay
  import opened Devices
  import opened RoutingSearch
  import opened SearchOrder
  import opened SharpTimes
  import opened Circuits
  import opened SwapPurposes

  // ---------- paths ----------

  predicate InBounds(qs: seq<PhysicalQubit>, p: seq<nat>) { forall i :: 0 <= i < |p| ==> p[i] < |qs| }

  predicate Rising(qs: seq<PhysicalQubit>, p: seq<nat>)
    requires InBounds(qs, p)
  {
    forall i, j :: 0 <= i < j < |p| ==> qs[p[i]].cost < qs[p[j]].cost
  }

  predicate HopAt(adj: seq<seq<nat>>, qs: seq<PhysicalQubit>, p: seq<nat>, i: nat)
    requires |qs| == |adj| && InBounds(qs, p) && 1 <= i < |p|
  {
    qs[p[i]].pred == p[i - 1] && Hop(adj, qs, p[i])
  }

  /** A chain of swaps over couplings, later and later, from a source on. */
  predicate PathShape(adj: seq<seq<nat>>, qs: seq<PhysicalQubit>, p: seq<nat>) {
    && |qs| == |adj| && |p| > 0 && InBounds(qs, p) && Rising(qs, p)
    && (forall i :: 1 <= i < |p| ==> HopAt(adj, qs, p, i))
    && qs[p[0]].cost == qs[p[0]].occupied
  }

  predicate OnSide(qs: seq<PhysicalQubit>, p: seq<nat>, side: bool, limit: nat)
    requires InBounds(qs, p)
  {
    forall i :: 0 <= i < |p| ==> qs[p[i]].taken && qs[p[i]].source == side && qs[p[i]].cost <= limit
  }

  /** The predecessor chain from the source of v to v. */
  function Path(adj: seq<seq<nat>>, qs: seq<PhysicalQubit>, t0: nat, t1: nat, v: nat): (r: seq<nat>)
    requires ChainsOk(adj, qs, t0, t1) && v < |qs| && qs[v].taken
    ensures PathShape(adj, qs, r) && OnSide(qs, r, qs[v].source, qs[v].cost)
    ensures r[|r| - 1] == v && r[0] == (if qs[v].source then t1 else t0)
    decreases qs[v].cost
  {
    assert TakenOk(adj, qs, t0, t1, v);
    if IsSource(qs, t0, t1, v) then [v]
    else
      var before := Path(adj, qs, t0, t1, qs[v].pred);
      PathGrows(adj, qs, before, v);
      before + [v]
  }

  lemma PathGrows(adj: seq<seq<nat>>, qs: seq<PhysicalQubit>, p: seq<nat>, v: nat)
    requires PathShape(adj, qs, p) && v < |qs| && Hop(adj, qs, v) && qs[v].pred == p[|p| - 1]
    requires OnSide(qs, p, qs[v].source, qs[p[|p| - 1]].cost)
    requires qs[v].taken && qs[p[|p| - 1]].cost < qs[v].cost
    ensures PathShape(adj, qs, p + [v]) && OnSide(qs, p + [v], qs[v].source, qs[v].cost)
  {
    var r := p + [v];
    forall i | 1 <= i < |r| ensures HopAt(adj, qs, r, i) {
      if i < |p| { assert HopAt(adj, qs, p, i); }
    }
  }

  /** The swap into v: over a coupling, when both ends are free. */
  predicate Hop(adj: seq<seq<nat>>, qs: seq<PhysicalQubit>, v: nat)
    requires |qs| == |adj| && v < |qs|
  {
    && Linked(adj, qs, v)
    && qs[v].swapTime == Max(qs[qs[v].pred].cost, qs[v].occupied) && qs[v].cost == qs[v].swapTime + SWAP_DELAY
  }

  function HopOp(qs: seq<PhysicalQubit>, v: nat): Operation
    requires v < |qs|
  {
    SwapOp(v, qs[v].pred, qs[v].swapTime, qs[v].swapTime + SWAP_DELAY)
  }

  /** The swaps along a path, from its start outward. */
  function Hops(qs: seq<PhysicalQubit>, p: seq<nat>): (r: seq<Operation>)
    requires |p| > 0 && InBounds(qs, p)
    ensures |r| == |p| - 1 && forall i :: 0 <= i < |r| ==> r[i] == HopOp(qs, p[i + 1])
  {
    seq(|p| - 1, i requires 0 <= i < |p| - 1 => HopOp(qs, p[i + 1]))
  }

  // ---------- lists of operations that can run one after the other ----------

  predicate FreeFor(busy: seq<nat>, op: Operation)
    requires op.Fits(|busy|)
  {
    forall k :: 0 <= k < |op.Qubits()| ==> busy[op.Qubits()[k]] <= op.start
  }

  /** Every operation starts when its qubits are free. */
  predicate Ready(s: Sim, ops: seq<Operation>)
    requires SimOk(s, |s.map_|) && AllFit(ops, |s.map_|)
  {
    if |ops| == 0 then true
    else
      var k := |ops| - 1;
      Ready(s, ops[..k]) && FreeFor(Run(s, ops[..k]).busy, ops[k])
  }

  /** The operation starts after the given times and ends before the later ones. */
  predicate Within(op: Operation, before: seq<nat>, after: seq<nat>)
    requires op.Fits(|before|) && |after| == |before|
  {
    forall k :: 0 <= k < |op.Qubits()| ==> before[op.Qubits()[k]] <= op.start && op.end <= after[op.Qubits()[k]]
  }

  predicate AllWithin(ops: seq<Operation>, before: seq<nat>, after: seq<nat>)
    requires AllFit(ops, |before|) && |after| == |before|
  {
    forall i :: 0 <= i < |ops| ==> Within(ops[i], before, after)
  }

  predicate NotLater(a: seq<nat>, b: seq<nat>) { |a| == |b| && forall q :: 0 <= q < |a| ==> a[q] <= b[q] }

  lemma BusyGrows(mid: seq<nat>, op: Operation)
    requires op.Fits(|mid|) && FreeFor(mid, op)
    ensures NotLater(mid, Busy(mid, op))
    ensures Within(op, mid, Busy(mid, op))
  {
    var end := Busy(mid, op);
    forall q | 0 <= q < |mid| ensures mid[q] <= end[q] {
      if q in op.Qubits() {
        var i :| 0 <= i < |op.Qubits()| && op.Qubits()[i] == q;
        assert mid[op.Qubits()[i]] <= op.start;
      }
    }
    forall k | 0 <= k < |op.Qubits()| ensures op.end <= end[op.Qubits()[k]] {
      assert op.Qubits()[k] in op.Qubits();
    }
  }

  lemma WithinEarlier(op: Operation, before: seq<nat>, mid: seq<nat>, end: seq<nat>)
    requires op.Fits(|before|) && NotLater(before, mid) && |end| == |mid| && Within(op, mid, end)
    ensures Within(op, before, end)
  {
    forall k | 0 <= k < |op.Qubits()| ensures before[op.Qubits()[k]] <= op.start && op.end <= end[op.Qubits()[k]] {
      assert mid[op.Qubits()[k]] <= op.start;
    }
  }

  lemma {:induction false} ReadyTimes(s: Sim, ops: seq<Operation>)
    requires SimOk(s, |s.map_|) && AllFit(ops, |s.map_|) && Ready(s, ops)
    ensures Spaced(ops) && AllWithin(ops, s.busy, Run(s, ops).busy)
    ensures NotLater(s.busy, Run(s, ops).busy)
  {
    if |ops| > 0 {
      var k := |ops| - 1;
      ReadyTimes(s, ops[..k]);
      ExtendTimes(ops, s.busy, Run(s, ops[..k]).busy);
    }
  }

  lemma NotLaterTransitive(a: seq<nat>, b: seq<nat>, c: seq<nat>)
    requires NotLater(a, b) && NotLater(b, c)
    ensures NotLater(a, c)
  {
  }

  /** One more operation that follows all others. */
  lemma SpacedSnoc(ops: seq<Operation>)
    requires |ops| > 0 && Spaced(ops[..|ops| - 1])
    requires forall i :: 0 <= i < |ops| - 1 ==> Follows(ops[i], ops[|ops| - 1])
    ensures Spaced(ops)
  {
    hide Follows;
    forall i, j | 0 <= i < j < |ops| ensures Follows(ops[i], ops[j]) {
      if j < |ops| - 1 { assert Follows(ops[..|ops| - 1][i], ops[..|ops| - 1][j]); }
    }
  }

  lemma ExtendTimes(ops: seq<Operation>, before: seq<nat>, mid: seq<nat>)
    requires |ops| > 0 && AllFit(ops, |before|) && NotLater(before, mid)
    requires Spaced(ops[..|ops| - 1]) && AllWithin(ops[..|ops| - 1], before, mid)
    requires FreeFor(mid, ops[|ops| - 1])
    ensures Spaced(ops) && AllWithin(ops, before, Busy(mid, ops[|ops| - 1]))
    ensures NotLater(before, Busy(mid, ops[|ops| - 1]))
  {
    var k := |ops| - 1;
    var init, last := ops[..k], ops[k];
    var end := Busy(mid, last);
    BusyGrows(mid, last);
    hide Busy, FreeFor, Within, Follows, NotLater, Spaced;
    NotLaterTransitive(before, mid, end);
    forall i | 0 <= i < k ensures Within(ops[i], before, end) && Follows(ops[i], last) {
      assert Within(init[i], before, mid);
      WithinLater(init[i], before, mid, end);
      FollowsReady(init[i], before, mid, last);
    }
    WithinEarlier(last, before, mid, end);
    SpacedSnoc(ops);
  }

  lemma WithinLater(op: Operation, before: seq<nat>, mid: seq<nat>, end: seq<nat>)
    requires op.Fits(|before|) && |before| == |mid| && NotLater(mid, end) && Within(op, before, mid)
    ensures Within(op, before, end)
  {
    forall k | 0 <= k < |op.Qubits()| ensures op.end <= end[op.Qubits()[k]] {
      assert op.end <= mid[op.Qubits()[k]];
    }
  }

  lemma FollowsReady(op: Operation, before: seq<nat>, mid: seq<nat>, last: Operation)
    requires op.Fits(|before|) && last.Fits(|before|) && |before| == |mid| && Within(op, before, mid)
    requires FreeFor(mid, last)
    ensures Follows(op, last)
  {
    if !Disjoint(op, last) {
      var q :| q in op.Qubits() && q in last.Qubits();
      var i :| 0 <= i < |op.Qubits()| && op.Qubits()[i] == q;
      var j :| 0 <= j < |last.Qubits()| && last.Qubits()[j] == q;
    }
  }

  lemma ReadySnoc(s: Sim, ops: seq<Operation>, op: Operation)
    requires SimOk(s, |s.map_|) && AllFit(ops, |s.map_|) && op.Fits(|s.map_|) && Ready(s, ops)
    requires FreeFor(Run(s, ops).busy, op)
    ensures AllFit(ops + [op], |s.map_|) && Ready(s, ops + [op])
    ensures Run(s, ops + [op]) == Step(Run(s, ops), op)
  {
    assert (ops + [op])[..|ops|] == ops;
  }

  // ---------- the swaps of one path ----------

  /** After the first m swaps of a path: the logical qubit of its start has moved m steps, and everything off the path is as before. */
  ghost predicate Moved(s: Sim, r: Sim, qs: seq<PhysicalQubit>, p: seq<nat>, m: nat)
    requires m < |p| && |s.map_| == |s.busy| == |r.map_| == |r.busy| == |qs| && InBounds(qs, p)
  {
    && r.log == s.log
    && r.map_[p[m]] == s.map_[p[0]] && r.busy[p[m]] == qs[p[m]].cost
    && (forall v :: 0 <= v < |qs| && v !in p[..m + 1] ==> r.map_[v] == s.map_[v] && r.busy[v] == s.busy[v])
  }

  /** A path whose times agree with the busy times it starts from. */
  ghost predicate PathOk(adj: seq<seq<nat>>, s: Sim, qs: seq<PhysicalQubit>, p: seq<nat>) {
    && PathShape(adj, qs, p) && SimOk(s, |qs|) && OnTime(s.busy, qs, p)
  }

  predicate OnTime(busy: seq<nat>, qs: seq<PhysicalQubit>, p: seq<nat>)
    requires InBounds(qs, p) && |busy| == |qs|
  {
    forall i :: 0 <= i < |p| ==> busy[p[i]] == qs[p[i]].occupied
  }

  /** The m-th swap of the path can start, and moves the logical qubit one step further. */
  lemma HopStep(adj: seq<seq<nat>>, s: Sim, r: Sim, qs: seq<PhysicalQubit>, p: seq<nat>, m: nat)
    requires PathOk(adj, s, qs, p) && 1 <= m < |p| && SimOk(r, |qs|) && Moved(s, r, qs, p, m - 1)
    ensures HopOp(qs, p[m]).Fits(|qs|) && FreeFor(r.busy, HopOp(qs, p[m]))
    ensures Moved(s, Step(r, HopOp(qs, p[m])), qs, p, m)
  {
    var v, u := p[m], p[m - 1];
    assert HopAt(adj, qs, p, m);
    NotBefore(qs, p, m);
    assert p[..m - 1 + 1] == p[..m];
    assert p[..m + 1] == p[..m] + [v];
    assert p[..m][m - 1] == u;
    var op := HopOp(qs, v);
    assert op == SwapOp(v, u, qs[v].swapTime, qs[v].swapTime + SWAP_DELAY);
    var r' := Step(r, op);
    forall w | 0 <= w < |qs| && w !in p[..m + 1] ensures r'.map_[w] == s.map_[w] && r'.busy[w] == s.busy[w] {
      assert w != u && w != v;
    }
  }

  /** The operations done before followed by the first m swaps of a path. */
  function WithHops(done: seq<Operation>, qs: seq<PhysicalQubit>, p: seq<nat>, m: nat): seq<Operation>
    requires m < |p| && InBounds(qs, p)
  {
    done + Hops(qs, p)[..m]
  }

  lemma WithHopsNext(done: seq<Operation>, qs: seq<PhysicalQubit>, p: seq<nat>, m: nat)
    requires m < |p| && InBounds(qs, p)
    ensures m == 0 ==> WithHops(done, qs, p, m) == done
    ensures m > 0 ==> WithHops(done, qs, p, m) == WithHops(done, qs, p, m - 1) + [HopOp(qs, p[m])]
  {
    if m > 0 {
      assert Hops(qs, p)[..m] == Hops(qs, p)[..m - 1] + [HopOp(qs, p[m])];
    }
  }

  lemma {:induction false} HopsRun(adj: seq<seq<nat>>, s: Sim, qs: seq<PhysicalQubit>, p: seq<nat>, m: nat, start: Sim, done: seq<Operation>)
    requires PathOk(adj, s, qs, p) && m < |p|
    requires SimOk(start, |qs|) && AllFit(done, |qs|) && Ready(start, done) && Run(start, done) == s
    ensures AllFit(WithHops(done, qs, p, m), |qs|)
    ensures Ready(start, WithHops(done, qs, p, m))
    ensures Moved(s, Run(start, WithHops(done, qs, p, m)), qs, p, m)
    decreases m
  {
    WithHopsNext(done, qs, p, m);
    if m == 0 {
      assert p[..1] == [p[0]];
    } else {
      HopsRun(adj, s, qs, p, m - 1, start, done);
      var prefix := WithHops(done, qs, p, m - 1);
      HopStep(adj, s, Run(start, prefix), qs, p, m);
      ReadySnoc(start, prefix, HopOp(qs, p[m]));
    }
  }

  lemma NotBefore(qs: seq<PhysicalQubit>, p: seq<nat>, m: nat)
    requires 1 <= m < |p| && InBounds(qs, p) && Rising(qs, p)
    ensures p[m] !in p[..m] && p[m] != p[m - 1]
  {
  }

  // ---------- the operations of one routed gate, in a canonical order ----------

  /** Appends an event to the record of each of its operands. */
  function LogEvent(log: seq<seq<Event>>, e: Event): (r: seq<seq<Event>>)
    requires forall i :: 0 <= i < |e.operands| ==> e.operands[i] < |log|
    ensures |r| == |log|
    ensures forall l :: 0 <= l < |log| ==> r[l] == log[l] + if l in e.operands then [e] else []
  {
    seq(|log|, l requires 0 <= l < |log| => log[l] + if l in e.operands then [e] else [])
  }

  lemma RecordIsLogEvent(s: Sim, op: Operation)
    requires SimOk(s, |s.map_|) && op.GateOp? && op.Fits(|s.map_|)
    ensures forall i :: 0 <= i < |Operands(s.map_, op)| ==> Operands(s.map_, op)[i] < |s.log|
    ensures Record(s, op) == LogEvent(s.log, Event(op.kind, Operands(s.map_, op)))
  {
    forall l | 0 <= l < |s.log| ensures Record(s, op)[l] == LogEvent(s.log, Event(op.kind, Operands(s.map_, op)))[l] {
      RecordAt(s, op, l);
    }
  }

  predicate Coupled(adj: seq<seq<nat>>, op: Operation) {
    |op.Qubits()| == 2 ==> op.Qubits()[0] < |adj| && op.Qubits()[1] in adj[op.Qubits()[0]]
  }

  function Delay(op: Operation): nat {
    if op.SwapOp? then SWAP_DELAY else if |op.qs| == 1 then SINGLE_DELAY else DOUBLE_DELAY
  }

  /** The gate at the meeting point, its operands in the order of the logical gate. */
  function MeetingGate(qs: seq<PhysicalQubit>, kind: string, q0: nat, q1: nat, swapIds: bool): Operation
    requires q0 < |qs| && q1 < |qs|
  {
    var time := Max(qs[q0].cost, qs[q1].cost);
    GateOp(kind, if swapIds then [q1, q0] else [q0, q1], time, time + DOUBLE_DELAY)
  }

  /** The search met: q0 and q1 are coupled and taken by the two sides. */
  predicate Met(adj: seq<seq<nat>>, qs: seq<PhysicalQubit>, t0: nat, t1: nat, q0: nat, q1: nat) {
    && ChainsOk(adj, qs, t0, t1) && q0 < |qs| && q1 < |qs|
    && qs[q0].taken && qs[q1].taken && !qs[q0].source && qs[q1].source
    && q0 in adj[q1] && q1 in adj[q0]
  }

  function Canonical(adj: seq<seq<nat>>, qs: seq<PhysicalQubit>, t0: nat, t1: nat, q0: nat, q1: nat, kind: string, swapIds: bool): seq<Operation>
    requires Met(adj, qs, t0, t1, q0, q1)
  {
    Hops(qs, Path(adj, qs, t0, t1, q0)) + Hops(qs, Path(adj, qs, t0, t1, q1)) + [MeetingGate(qs, kind, q0, q1, swapIds)]
  }

  /** The chains of the two sides have no vertex in common. */
  lemma PathsDisjoint(adj: seq<seq<nat>>, qs: seq<PhysicalQubit>, t0: nat, t1: nat, q0: nat, q1: nat)
    requires Met(adj, qs, t0, t1, q0, q1)
    ensures forall v :: v in Path(adj, qs, t0, t1, q0) ==> v !in Path(adj, qs, t0, t1, q1)
  {
  }

  /** The state of the device as a replay state. */
  function DeviceSim(qs: seq<PhysicalQubit>, log: seq<seq<Event>>): Sim {
    Sim(Logicals(qs), Occupied(qs), log)
  }

  /** All swaps of one path after the operations done before. */
  lemma WholePath(adj: seq<seq<nat>>, s: Sim, qs: seq<PhysicalQubit>, p: seq<nat>, start: Sim, done: seq<Operation>)
    requires PathOk(adj, s, qs, p)
    requires SimOk(start, |qs|) && AllFit(done, |qs|) && Ready(start, done) && Run(start, done) == s
    ensures AllFit(done + Hops(qs, p), |qs|) && Ready(start, done + Hops(qs, p))
    ensures Moved(s, Run(start, done + Hops(qs, p)), qs, p, |p| - 1)
  {
    HopsRun(adj, s, qs, p, |p| - 1, start, done);
    assert Hops(qs, p)[..|p| - 1] == Hops(qs, p);
  }

  /** A path keeps its times when another path without common vertices has been walked. */
  lemma StillOk(adj: seq<seq<nat>>, s: Sim, r: Sim, qs: seq<PhysicalQubit>, p0: seq<nat>, p1: seq<nat>)
    requires PathOk(adj, s, qs, p0) && PathOk(adj, s, qs, p1) && SimOk(r, |qs|)
    requires Moved(s, r, qs, p0, |p0| - 1)
    requires forall v :: v in p0 ==> v !in p1
    ensures PathOk(adj, r, qs, p1)
    ensures r.map_[p1[0]] == s.map_[p1[0]]
  {
    assert p0[..|p0| - 1 + 1] == p0;
    forall i | 0 <= i < |p1| ensures p1[i] !in p0 && r.busy[p1[i]] == qs[p1[i]].occupied {
      assert p1[i] in p1;
    }
  }

  /** Both logical qubits have arrived, and nothing was recorded on the way. */
  ghost predicate Arrived(s: Sim, r: Sim, qs: seq<PhysicalQubit>, from0: nat, from1: nat, q0: nat, q1: nat) {
    && SimOk(s, |qs|) && SimOk(r, |qs|) && from0 < |qs| && from1 < |qs| && q0 < |qs| && q1 < |qs|
    && r.log == s.log && r.map_[q0] == s.map_[from0] && r.map_[q1] == s.map_[from1]
    && r.busy[q0] == qs[q0].cost && r.busy[q1] == qs[q1].cost
  }

  lemma BothPaths(adj: seq<seq<nat>>, qs: seq<PhysicalQubit>, p0: seq<nat>, p1: seq<nat>, s: Sim)
    requires PathOk(adj, s, qs, p0) && PathOk(adj, s, qs, p1)
    requires forall v :: v in p0 ==> v !in p1
    ensures AllFit(Hops(qs, p0) + Hops(qs, p1), |qs|) && Ready(s, Hops(qs, p0) + Hops(qs, p1))
    ensures Arrived(s, Run(s, Hops(qs, p0) + Hops(qs, p1)), qs, p0[0], p1[0], p0[|p0| - 1], p1[|p1| - 1])
  {
    var h0, h1 := Hops(qs, p0), Hops(qs, p1);
    WholePath(adj, s, qs, p0, s, []);
    assert [] + h0 == h0;
    var r0 := Run(s, h0);
    StillOk(adj, s, r0, qs, p0, p1);
    WholePath(adj, r0, qs, p1, s, h0);
    assert p1[..|p1| - 1 + 1] == p1;
    assert p0[|p0| - 1] in p0;
  }

  /** The operands of a gate routed from t0 to t1, in the order of the logical gate. */
  function OperandsOf(m: seq<nat>, t0: nat, t1: nat, swapIds: bool): seq<nat>
    requires t0 < |m| && t1 < |m|
  {
    if swapIds then [m[t1], m[t0]] else [m[t0], m[t1]]
  }

  /** The record after a gate routed from t0 to t1. */
  function ExpectedLog(s: Sim, kind: string, t0: nat, t1: nat, swapIds: bool): seq<seq<Event>>
    requires SimOk(s, |s.map_|) && t0 < |s.map_| && t1 < |s.map_|
  {
    LogEvent(s.log, Event(kind, OperandsOf(s.map_, t0, t1, swapIds)))
  }

  /** The gate at the meeting point can start and is recorded on the logical qubits that have arrived. */
  lemma GateAtMeeting(s: Sim, r: Sim, qs: seq<PhysicalQubit>, t0: nat, t1: nat, q0: nat, q1: nat, kind: string, swapIds: bool)
    requires Arrived(s, r, qs, t0, t1, q0, q1) && q0 != q1
    ensures
      var gate := MeetingGate(qs, kind, q0, q1, swapIds);
      && gate.Fits(|qs|) && FreeFor(r.busy, gate)
      && Step(r, gate).log
         == ExpectedLog(s, kind, t0, t1, swapIds)
  {
    RecordIsLogEvent(r, MeetingGate(qs, kind, q0, q1, swapIds));
  }

  /** The canonical list can run, and executes the gate on the logical qubits that were on t0 and t1. */
  lemma CanonicalRun(adj: seq<seq<nat>>, qs: seq<PhysicalQubit>, t0: nat, t1: nat, q0: nat, q1: nat, s: Sim, kind: string, swapIds: bool)
    requires Met(adj, qs, t0, t1, q0, q1)
    requires SimOk(s, |qs|) && s.busy == Occupied(qs)
    ensures AllFit(Canonical(adj, qs, t0, t1, q0, q1, kind, swapIds), |qs|)
    ensures Ready(s, Canonical(adj, qs, t0, t1, q0, q1, kind, swapIds))
    ensures Run(s, Canonical(adj, qs, t0, t1, q0, q1, kind, swapIds)).log
            == ExpectedLog(s, kind, t0, t1, swapIds)
  {
    var p0, p1 := Path(adj, qs, t0, t1, q0), Path(adj, qs, t0, t1, q1);
    var hops := Hops(qs, p0) + Hops(qs, p1);
    var gate := MeetingGate(qs, kind, q0, q1, swapIds);
    PathsDisjoint(adj, qs, t0, t1, q0, q1);
    BothPaths(adj, qs, p0, p1, s);
    GateAtMeeting(s, Run(s, hops), qs, t0, t1, q0, q1, kind, swapIds);
    ReadySnoc(s, hops, gate);
  }

  lemma CanonicalCoupled(adj: seq<seq<nat>>, qs: seq<PhysicalQubit>, t0: nat, t1: nat, q0: nat, q1: nat, kind: string, swapIds: bool)
    requires Met(adj, qs, t0, t1, q0, q1) && Couplings(adj)
    ensures
      var ops := Canonical(adj, qs, t0, t1, q0, q1, kind, swapIds);
      forall i :: 0 <= i < |ops| ==> Coupled(adj, ops[i]) && |ops[i].Qubits()| == 2 && ops[i].end == ops[i].start + Delay(ops[i])
  {
    hide Path, Rising, Couplings;
    var p0, p1 := Path(adj, qs, t0, t1, q0), Path(adj, qs, t0, t1, q1);
    var h0, h1 := Hops(qs, p0), Hops(qs, p1);
    var ops := Canonical(adj, qs, t0, t1, q0, q1, kind, swapIds);
    forall i | 0 <= i < |ops|
      ensures Coupled(adj, ops[i]) && |ops[i].Qubits()| == 2 && ops[i].end == ops[i].start + Delay(ops[i])
    {
      if i < |h0| {
        assert HopAt(adj, qs, p0, i + 1);
        HopCoupled(adj, qs, p0[i + 1]);
      } else if i < |h0| + |h1| {
        assert HopAt(adj, qs, p1, i - |h0| + 1);
        HopCoupled(adj, qs, p1[i - |h0| + 1]);
      }
    }
  }

  lemma HopCoupled(adj: seq<seq<nat>>, qs: seq<PhysicalQubit>, v: nat)
    requires Couplings(adj) && |qs| == |adj| && v < |qs| && Hop(adj, qs, v)
    ensures Coupled(adj, HopOp(qs, v))
  {
    var u := qs[v].pred;
    var k :| 0 <= k < |adj[u]| && adj[u][k] == v;
    assert u in adj[adj[u][k]];
  }

  // ---------- the search ----------

  lemma GrownTrans(a: seq<PhysicalQubit>, b: seq<PhysicalQubit>, c: seq<PhysicalQubit>)
    requires Grown(a, b) && Grown(b, c)
    ensures Grown(a, c)
  {
  }

  lemma GrownKeepsSettled(adj: seq<seq<nat>>, qs: seq<PhysicalQubit>, qs': seq<PhysicalQubit>, u: nat)
    requires Couplings(adj) && |qs| == |adj| && u < |qs| && Grown(qs, qs') && qs[u].marked && Settled(adj, qs, u)
    ensures Settled(adj, qs', u)
  {
  }

  lemma CoupledBack(adj: seq<seq<nat>>, u: nat, w: nat)
    requires Couplings(adj) && u < |adj| && w in adj[u]
    ensures w < |adj| && u in adj[w]
  {
    var k :| 0 <= k < |adj[u]| && adj[u][k] == w;
  }

  /** The neighbours looked at so far are marked, and not taken by the other side. */
  predicate LookedAt(adj: seq<seq<nat>>, qs: seq<PhysicalQubit>, u: nat, k: nat)
    requires |qs| == |adj| && u < |qs| && Couplings(adj) && k <= |adj[u]|
  {
    forall j :: 0 <= j < k ==>
      qs[adj[u][j]].marked && (qs[adj[u][j]].taken ==> qs[adj[u][j]].source == qs[u].source)
  }

  lemma GrownKeepsLookedAt(adj: seq<seq<nat>>, qs: seq<PhysicalQubit>, qs': seq<PhysicalQubit>, u: nat, k: nat)
    requires Couplings(adj) && |qs| == |adj| && u < |qs| && k <= |adj[u]| && qs[u].marked
    requires Grown(qs, qs') && LookedAt(adj, qs, u, k)
    ensures LookedAt(adj, qs', u, k)
  {
  }

  /** The state between two steps of the search. */
  predicate SearchOk(adj: seq<seq<nat>>, qs: seq<PhysicalQubit>, pq: seq<Node>, t0: nat, t1: nat) {
    ChainsOk(adj, qs, t0, t1) && QueueOk(adj, qs, pq)
  }

  /** The search while it looks at the k-th neighbour of u. */
  predicate Touching(adj: seq<seq<nat>>, start: seq<PhysicalQubit>, qs: seq<PhysicalQubit>, pq: seq<Node>, t0: nat, t1: nat, u: nat, k: nat) {
    && SearchOk(adj, qs, pq, t0, t1) && Grown(start, qs) && Couplings(adj)
    && u < |qs| && qs[u].taken && qs[u] == start[u] && k <= |adj[u]| && LookedAt(adj, qs, u, k)
    && MarkedFrom(start, qs, u)
  }

  lemma TouchStarts(adj: seq<seq<nat>>, qs: seq<PhysicalQubit>, pq: seq<Node>, t0: nat, t1: nat, u: nat)
    requires SearchOk(adj, qs, pq, t0, t1) && Couplings(adj) && u < |qs| && qs[u].taken
    ensures Touching(adj, qs, qs, pq, t0, t1, u, 0)
  {
    hide TakenOk, QueueOk;
    assert |qs| == |adj| by { TakenAreMarked(adj, qs, t0, t1); }
  }

  lemma TouchFacts(adj: seq<seq<nat>>, start: seq<PhysicalQubit>, qs: seq<PhysicalQubit>, pq: seq<Node>, t0: nat, t1: nat, u: nat, k: nat)
    requires Touching(adj, start, qs, pq, t0, t1, u, k)
    ensures |qs| == |start| == |adj| && SameDevice(start, qs) && Grown(start, qs) && SearchOk(adj, qs, pq, t0, t1)
    ensures u < |qs| && qs[u].taken && qs[u] == start[u] && MarkedFrom(start, qs, u) && k <= |adj[u]|
    ensures forall j :: 0 <= j < k ==> qs[adj[u][j]].taken ==> qs[adj[u][j]].source == qs[u].source
    ensures k < |adj[u]| ==> adj[u][k] < |qs|
    ensures k == |adj[u]| ==> Settled(adj, qs, u)
  {
    hide QueueOk;
    GrownSameDevice(start, qs);
  }

  /** A neighbour that is marked, and not taken by the other side, is passed over. */
  lemma TouchMarked(adj: seq<seq<nat>>, start: seq<PhysicalQubit>, qs: seq<PhysicalQubit>, pq: seq<Node>, t0: nat, t1: nat, u: nat, k: nat)
    requires Touching(adj, start, qs, pq, t0, t1, u, k) && k < |adj[u]| && adj[u][k] < |qs| && qs[adj[u][k]].marked
    requires qs[adj[u][k]].taken ==> qs[adj[u][k]].source == qs[u].source
    ensures Touching(adj, start, qs, pq, t0, t1, u, k + 1)
  {
    hide SearchOk, Grown;
  }

  /** Marks and queues an unmarked neighbour. */
  lemma TouchStep(adj: seq<seq<nat>>, start: seq<PhysicalQubit>, qs: seq<PhysicalQubit>, pq: seq<Node>, t0: nat, t1: nat, u: nat, k: nat)
    requires Touching(adj, start, qs, pq, t0, t1, u, k) && k < |adj[u]| && adj[u][k] < |qs| && !qs[adj[u][k]].marked
    ensures
      var w := adj[u][k];
      Touching(adj, start, qs[w := qs[w].Mark(qs[u].source, u)],
               pq + [Node(Max(qs[u].cost, qs[w].occupied) + SWAP_DELAY, w, qs[u].source)], t0, t1, u, k + 1)
  {
    hide TakenOk, QueueOk, Grown;
    var w := adj[u][k];
    var qs' := qs[w := qs[w].Mark(qs[u].source, u)];
    TakenAreMarked(adj, qs, t0, t1);
    MarkOne(adj, qs, pq, t0, t1, u, w);
    GrownTrans(start, qs, qs');
    GrownKeepsLookedAt(adj, qs, qs', u, k);
  }

  /** The search before its first step: exactly the two sources are marked and taken. */
  function Seeded(qs: seq<PhysicalQubit>, t0: nat, t1: nat): seq<PhysicalQubit>
    requires t0 < |qs| && t1 < |qs|
  {
    qs[t0 := qs[t0].Mark(false, t0).TakeRoute(qs[t0].cost, 0)][t1 := qs[t1].Mark(true, t1).TakeRoute(qs[t1].cost, 0)]
  }

  lemma SeededOk(adj: seq<seq<nat>>, qs: seq<PhysicalQubit>, t0: nat, t1: nat)
    requires |qs| == |adj| && t0 < |qs| && t1 < |qs| && t0 != t1 && Idle(qs)
    ensures SearchOk(adj, Seeded(qs, t0, t1), [], t0, t1)
    ensures SameDevice(qs, Seeded(qs, t0, t1)) && OnlySources(Seeded(qs, t0, t1), t0, t1)
  {
    assert Logicals(Seeded(qs, t0, t1)) == Logicals(qs) && Occupied(Seeded(qs, t0, t1)) == Occupied(qs);
  }

  /** The sources touch each other at once. */
  lemma SourcesMeet(adj: seq<seq<nat>>, seeded: seq<PhysicalQubit>, qs: seq<PhysicalQubit>, t0: nat, t1: nat, w: nat)
    requires Couplings(adj) && ChainsOk(adj, qs, t0, t1) && OnlySources(seeded, t0, t1) && Grown(seeded, qs) && Contact(adj, qs, t0, w)
    ensures Met(adj, qs, t0, t1, t0, t1)
  {
    CoupledBack(adj, t0, w);
  }

  /** When the second source touches the first, the first is not settled. */
  lemma SourcesTouch(adj: seq<seq<nat>>, qs: seq<PhysicalQubit>, t0: nat, t1: nat, w: nat)
    requires Couplings(adj) && ChainsOk(adj, qs, t0, t1) && OnlySources(qs, t0, t1) && Contact(adj, qs, t1, w)
    ensures !Settled(adj, qs, t0)
  {
    assert w == t0;
    CoupledBack(adj, t1, t0);
    var k :| 0 <= k < |adj[t0]| && adj[t0][k] == t1;
  }

  lemma ContactMeets(adj: seq<seq<nat>>, qs: seq<PhysicalQubit>, t0: nat, t1: nat, u: nat, w: nat)
    requires Couplings(adj) && ChainsOk(adj, qs, t0, t1) && Contact(adj, qs, u, w)
    ensures if qs[u].source then Met(adj, qs, t0, t1, w, u) else Met(adj, qs, t0, t1, u, w)
  {
    CoupledBack(adj, u, w);
  }

  /** One step of the search that touched nothing. */
  lemma StepSettles(adj: seq<seq<nat>>, qs: seq<PhysicalQubit>, e: Node, qs': seq<PhysicalQubit>)
    requires Couplings(adj) && |qs| == |adj| && AllSettled(adj, qs) && QueuedOk(adj, qs, e) && e.cost >= SWAP_DELAY
    requires forall v :: 0 <= v < |qs| && qs[v].taken ==> qs[v].marked
    requires Grown(Taken(qs, e), qs') && Settled(adj, qs', e.id)
    ensures AllSettled(adj, qs')
  {
    SettledAfter(adj, qs, qs', e.id);
  }

  lemma FewerUntaken(qs: seq<PhysicalQubit>, qs': seq<PhysicalQubit>, v: nat)
    requires |qs'| == |qs| && v < |qs| && !qs[v].taken && qs'[v].taken
    requires forall u :: 0 <= u < |qs| && qs[u].taken ==> qs'[u].taken
    ensures |Untaken(qs')| < |Untaken(qs)|
  {
    assert v in Untaken(qs);
    assert Untaken(qs') <= Untaken(qs) - {v};
    SubsetSize(Untaken(qs'), Untaken(qs) - {v});
  }

  // ---------- tracing back ----------

  lemma PathBack(adj: seq<seq<nat>>, qs: seq<PhysicalQubit>, t0: nat, t1: nat, v: nat)
    requires ChainsOk(adj, qs, t0, t1) && v < |qs| && qs[v].taken && !IsSource(qs, t0, t1, v)
    ensures Linked(adj, qs, v) && qs[qs[v].pred].cost < qs[v].cost
    ensures multiset(Hops(qs, Path(adj, qs, t0, t1, v)))
            == multiset(Hops(qs, Path(adj, qs, t0, t1, qs[v].pred))) + multiset{HopOp(qs, v)}
  {
    assert TakenOk(adj, qs, t0, t1, v);
    var before := Path(adj, qs, t0, t1, qs[v].pred);
    assert Path(adj, qs, t0, t1, v) == before + [v];
    assert Hops(qs, before + [v]) == Hops(qs, before) + [HopOp(qs, v)];
  }

  lemma PathAtSource(adj: seq<seq<nat>>, qs: seq<PhysicalQubit>, t0: nat, t1: nat, v: nat)
    requires ChainsOk(adj, qs, t0, t1) && v < |qs| && qs[v].taken && IsSource(qs, t0, t1, v)
    ensures Hops(qs, Path(adj, qs, t0, t1, v)) == []
  {
    assert Path(adj, qs, t0, t1, v) == [v];
  }

  // ---------- the outcome of routing one gate ----------

  predicate Physical(adj: seq<seq<nat>>, op: Operation) {
    Coupled(adj, op) && op.end == op.start + Delay(op)
  }

  predicate AllPhysical(adj: seq<seq<nat>>, ops: seq<Operation>) {
    forall i :: 0 <= i < |ops| ==> Physical(adj, ops[i])
  }

  ghost predicate InRange(e: Event, n: nat) { forall i :: 0 <= i < |e.operands| ==> e.operands[i] < n }

  /** Couplings and times: two-qubit operations are on coupled qubits, and no operation overlaps another one or what the device did before. */
  predicate Timed(adj: seq<seq<nat>>, qs: seq<PhysicalQubit>, ops: seq<Operation>, qs': seq<PhysicalQubit>) {
    && |qs| == |qs'| == |adj| && AllFit(ops, |qs|)
    && AllPhysical(adj, ops) && Spaced(ops)
    && NotLater(Occupied(qs), Occupied(qs')) && AllWithin(ops, Occupied(qs), Occupied(qs'))
  }

  /** The operations take the device from qs to qs' and execute exactly the event e. */
  ghost predicate Routed(adj: seq<seq<nat>>, qs: seq<PhysicalQubit>, ops: seq<Operation>, qs': seq<PhysicalQubit>, e: Event) {
    && Timed(adj, qs, ops, qs') && Placement(Logicals(qs), |qs|) && InRange(e, |qs|)
    && ExecutesAlways(qs, ops, qs', e)
  }

  /** Whatever was recorded before, the replay adds exactly the event e. */
  ghost predicate ExecutesAlways(qs: seq<PhysicalQubit>, ops: seq<Operation>, qs': seq<PhysicalQubit>, e: Event)
    requires Placement(Logicals(qs), |qs|) && AllFit(ops, |qs|) && InRange(e, |qs|)
  {
    forall log: seq<seq<Event>> :: |log| == |qs| ==> Executes(qs, log, ops, qs', e)
  }

  ghost predicate Executes(qs: seq<PhysicalQubit>, log: seq<seq<Event>>, ops: seq<Operation>, qs': seq<PhysicalQubit>, e: Event)
    requires |log| == |qs| && Placement(Logicals(qs), |qs|) && AllFit(ops, |qs|) && InRange(e, |qs|)
  {
    Run(DeviceSim(qs, log), ops) == DeviceSim(qs', LogEvent(log, e))
  }

  lemma OperandsInRange(qs: seq<PhysicalQubit>, t0: nat, t1: nat, kind: string, swapIds: bool)
    requires Placement(Logicals(qs), |qs|) && t0 < |qs| && t1 < |qs|
    ensures InRange(Event(kind, OperandsOf(Logicals(qs), t0, t1, swapIds)), |qs|)
  {
  }

  lemma SortedCanonical(adj: seq<seq<nat>>, qs: seq<PhysicalQubit>, t0: nat, t1: nat, q0: nat, q1: nat, kind: string, swapIds: bool, ops: seq<Operation>)
    requires Couplings(adj) && Met(adj, qs, t0, t1, q0, q1) && Placement(Logicals(qs), |qs|)
    requires SortedByStart(ops) && multiset(ops) == multiset(Canonical(adj, qs, t0, t1, q0, q1, kind, swapIds))
    ensures AllFit(ops, |qs|) && AllPhysical(adj, ops) && Spaced(ops)
    ensures forall i :: 0 <= i < |ops| ==> |ops[i].Qubits()| == 2
  {
    var c := Canonical(adj, qs, t0, t1, q0, q1, kind, swapIds);
    var s := DeviceSim(qs, seq(|qs|, i => []));
    CanonicalRun(adj, qs, t0, t1, q0, q1, s, kind, swapIds);
    ReadyTimes(s, c);
    SortedIsSpaced(c, ops, |qs|);
    CanonicalCoupled(adj, qs, t0, t1, q0, q1, kind, swapIds);
    SameMembers(c, ops, |qs|);
    forall i | 0 <= i < |ops| ensures Physical(adj, ops[i]) && |ops[i].Qubits()| == 2 {
      assert ops[i] in c;
    }
  }

  lemma SortedTimes(adj: seq<seq<nat>>, qs: seq<PhysicalQubit>, t0: nat, t1: nat, q0: nat, q1: nat, kind: string, swapIds: bool, ops: seq<Operation>, log: seq<seq<Event>>)
    requires Couplings(adj) && Met(adj, qs, t0, t1, q0, q1) && Placement(Logicals(qs), |qs|) && |log| == |qs|
    requires SortedByStart(ops) && multiset(ops) == multiset(Canonical(adj, qs, t0, t1, q0, q1, kind, swapIds))
    ensures AllFit(ops, |qs|)
    ensures var r := Run(DeviceSim(qs, log), ops);
      && r.log == LogEvent(log, Event(kind, OperandsOf(Logicals(qs), t0, t1, swapIds)))
      && NotLater(Occupied(qs), r.busy) && AllWithin(ops, Occupied(qs), r.busy)
  {
    var c := Canonical(adj, qs, t0, t1, q0, q1, kind, swapIds);
    var s := DeviceSim(qs, log);
    CanonicalRun(adj, qs, t0, t1, q0, q1, s, kind, swapIds);
    ReadyTimes(s, c);
    SortedReplay(s, c, ops);
    SameMembers(c, ops, |qs|);
    forall i | 0 <= i < |ops| ensures Within(ops[i], s.busy, Run(s, ops).busy) {
      assert ops[i] in c;
    }
  }

  /** Placement and times of a replay do not depend on the record. */
  lemma {:induction false} RunWithoutLog(a: Sim, b: Sim, ops: seq<Operation>)
    requires SimOk(a, |a.map_|) && SimOk(b, |b.map_|) && a.map_ == b.map_ && a.busy == b.busy && AllFit(ops, |a.map_|)
    ensures Run(a, ops).map_ == Run(b, ops).map_ && Run(a, ops).busy == Run(b, ops).busy
  {
    if |ops| > 0 {
      RunWithoutLog(a, b, ops[..|ops| - 1]);
    }
  }

  /** What a device looks like after operations have been applied to it one by one. */
  ghost predicate Applied(qs: seq<PhysicalQubit>, ops: seq<Operation>, qs': seq<PhysicalQubit>) {
    && |qs'| == |qs| && Placement(Logicals(qs), |qs|) && AllFit(ops, |qs|)
    && var r := Run(DeviceSim(qs, seq(|qs|, i => [])), ops);
       r.map_ == Logicals(qs') && r.busy == Occupied(qs')
  }

  lemma AppliedSnoc(qs: seq<PhysicalQubit>, ops: seq<Operation>, k: nat, mid: seq<PhysicalQubit>, qs': seq<PhysicalQubit>)
    requires k < |ops| && AllFit(ops, |qs|) && Applied(qs, ops[..k], mid) && |qs'| == |qs|
    requires forall log: seq<seq<Event>> :: |log| == |qs| ==>
      var s := Step(Sim(Logicals(mid), Occupied(mid), log), ops[k]);
      s.map_ == Logicals(qs') && s.busy == Occupied(qs')
    ensures Applied(qs, ops[..k + 1], qs')
  {
    assert ops[..k + 1][..k] == ops[..k];
    var r := Run(DeviceSim(qs, seq(|qs|, i => [])), ops[..k]);
    assert r == Sim(Logicals(mid), Occupied(mid), r.log);
  }

  lemma TracedExecutes(adj: seq<seq<nat>>, qs: seq<PhysicalQubit>, t0: nat, t1: nat, q0: nat, q1: nat, kind: string, swapIds: bool, ops: seq<Operation>, qs': seq<PhysicalQubit>, log: seq<seq<Event>>)
    requires Couplings(adj) && Met(adj, qs, t0, t1, q0, q1) && Placement(Logicals(qs), |qs|) && |log| == |qs|
    requires SortedByStart(ops) && multiset(ops) == multiset(Canonical(adj, qs, t0, t1, q0, q1, kind, swapIds))
    requires Applied(qs, ops, qs')
    ensures Executes(qs, log, ops, qs', Event(kind, OperandsOf(Logicals(qs), t0, t1, swapIds)))
  {
    SortedTimes(adj, qs, t0, t1, q0, q1, kind, swapIds, ops, log);
    RunWithoutLog(DeviceSim(qs, seq(|qs|, i => [])), DeviceSim(qs, log), ops);
  }

  lemma TracedIsTimed(adj: seq<seq<nat>>, qs: seq<PhysicalQubit>, t0: nat, t1: nat, q0: nat, q1: nat, kind: string, swapIds: bool, ops: seq<Operation>, qs': seq<PhysicalQubit>)
    requires Couplings(adj) && Met(adj, qs, t0, t1, q0, q1) && Placement(Logicals(qs), |qs|)
    requires SortedByStart(ops) && multiset(ops) == multiset(Canonical(adj, qs, t0, t1, q0, q1, kind, swapIds))
    requires Applied(qs, ops, qs')
    ensures Timed(adj, qs, ops, qs')
  {
    SortedCanonical(adj, qs, t0, t1, q0, q1, kind, swapIds, ops);
    SortedTimes(adj, qs, t0, t1, q0, q1, kind, swapIds, ops, seq(|qs|, i => []));
  }

  lemma TracedAlways(adj: seq<seq<nat>>, qs: seq<PhysicalQubit>, t0: nat, t1: nat, q0: nat, q1: nat, kind: string, swapIds: bool, ops: seq<Operation>, qs': seq<PhysicalQubit>)
    requires Couplings(adj) && Met(adj, qs, t0, t1, q0, q1) && Placement(Logicals(qs), |qs|) && AllFit(ops, |qs|)
    requires SortedByStart(ops) && multiset(ops) == multiset(Canonical(adj, qs, t0, t1, q0, q1, kind, swapIds))
    requires Applied(qs, ops, qs')
    ensures ExecutesAlways(qs, ops, qs', Event(kind, OperandsOf(Logicals(qs), t0, t1, swapIds)))
  {
    var e := Event(kind, OperandsOf(Logicals(qs), t0, t1, swapIds));
    forall log: seq<seq<Event>> | |log| == |qs| ensures Executes(qs, log, ops, qs', e) {
      TracedExecutes(adj, qs, t0, t1, q0, q1, kind, swapIds, ops, qs', log);
    }
  }

  lemma MakeRouted(adj: seq<seq<nat>>, qs: seq<PhysicalQubit>, ops: seq<Operation>, qs': seq<PhysicalQubit>, e: Event)
    requires Timed(adj, qs, ops, qs') && Placement(Logicals(qs), |qs|) && InRange(e, |qs|) && ExecutesAlways(qs, ops, qs', e)
    ensures Routed(adj, qs, ops, qs', e)
  {
  }

  lemma TracedIsRouted(adj: seq<seq<nat>>, qs: seq<PhysicalQubit>, t0: nat, t1: nat, q0: nat, q1: nat, kind: string, swapIds: bool, ops: seq<Operation>, qs': seq<PhysicalQubit>)
    requires Couplings(adj) && Met(adj, qs, t0, t1, q0, q1) && Placement(Logicals(qs), |qs|)
    requires SortedByStart(ops) && multiset(ops) == multiset(Canonical(adj, qs, t0, t1, q0, q1, kind, swapIds))
    requires Applied(qs, ops, qs')
    ensures Routed(adj, qs, ops, qs', Event(kind, OperandsOf(Logicals(qs), t0, t1, swapIds)))
  {
    TracedIsTimed(adj, qs, t0, t1, q0, q1, kind, swapIds, ops, qs');
    TracedAlways(adj, qs, t0, t1, q0, q1, kind, swapIds, ops, qs');
    OperandsInRange(qs, t0, t1, kind, swapIds);
    MakeRouted(adj, qs, ops, qs', Event(kind, OperandsOf(Logicals(qs), t0, t1, swapIds)));
  }

  /** A search ends with marks cleared; that changes neither placement nor times. */
  lemma RoutedFrom(adj: seq<seq<nat>>, qs: seq<PhysicalQubit>, mid: seq<PhysicalQubit>, ops: seq<Operation>, mid': seq<PhysicalQubit>, qs': seq<PhysicalQubit>, e: Event)
    requires Routed(adj, mid, ops, mid', e) && SameDevice(qs, mid) && SameDevice(mid', qs')
    ensures Routed(adj, qs, ops, qs', e)
  {
    assert |qs| == |Logicals(qs)| && |qs'| == |Logicals(qs')| && |mid| == |Logicals(mid)| && |mid'| == |Logicals(mid')|;
    forall log: seq<seq<Event>> | |log| == |qs| ensures Executes(qs, log, ops, qs', e) {
      assert Executes(mid, log, ops, mid', e);
    }
  }

  // ---------- what the swaps of one gate exchange ----------

  /** No logical qubit but the operands waits for a gate that an operand waits for. */
  ghost predicate Awaited(gates: set<nat>, chains: seq<seq<nat>>, log: seq<seq<Event>>, operands: seq<nat>) {
    forall l0: nat, l1: nat :: (l0 in operands <==> l1 !in operands) ==> !DueTogether(gates, chains, log, l0, l1)
  }

  /** Every swap of a path exchanges the operand that travels with a logical qubit that is no operand. */
  lemma {:induction false} PathPurposeful(gates: set<nat>, chains: seq<seq<nat>>, operands: seq<nat>, adj: seq<seq<nat>>, s: Sim, qs: seq<PhysicalQubit>,
                                          p: seq<nat>, m: nat, start: Sim, done: seq<Operation>)
    requires PathOk(adj, s, qs, p) && m < |p|
    requires SimOk(start, |qs|) && AllFit(done, |qs|) && Ready(start, done) && Run(start, done) == s
    requires Awaited(gates, chains, s.log, operands) && Purposeful(gates, chains, start, done)
    requires s.map_[p[0]] in operands && forall i :: 1 <= i < |p| ==> s.map_[p[i]] !in operands
    ensures AllFit(WithHops(done, qs, p, m), |qs|) && Purposeful(gates, chains, start, WithHops(done, qs, p, m))
    decreases m
  {
    hide Awaited, Ready, Moved, Step, PurposefulStep, Purposeful, WithHops, Rising, HopAt;
    WithHopsNext(done, qs, p, m);
    if m > 0 {
      PathPurposeful(gates, chains, operands, adj, s, qs, p, m - 1, start, done);
      HopsRun(adj, s, qs, p, m - 1, start, done);
      var prefix := WithHops(done, qs, p, m - 1);
      HopPurposeful(gates, chains, operands, adj, s, Run(start, prefix), qs, p, m);
      PurposefulSnoc(gates, chains, start, prefix, HopOp(qs, p[m]));
    }
  }

  lemma HopPurposeful(gates: set<nat>, chains: seq<seq<nat>>, operands: seq<nat>, adj: seq<seq<nat>>, s: Sim, r: Sim, qs: seq<PhysicalQubit>, p: seq<nat>, m: nat)
    requires PathOk(adj, s, qs, p) && 1 <= m < |p| && SimOk(r, |qs|) && Moved(s, r, qs, p, m - 1)
    requires Awaited(gates, chains, s.log, operands) && s.map_[p[0]] in operands && s.map_[p[m]] !in operands
    ensures HopOp(qs, p[m]).Fits(|qs|) && PurposefulStep(gates, chains, r, HopOp(qs, p[m]))
  {
    HopStep(adj, s, r, qs, p, m);
    assert HopAt(adj, qs, p, m);
    NotBefore(qs, p, m);
    assert p[..m - 1 + 1] == p[..m];
    assert r.map_[p[m]] == s.map_[p[m]] && r.map_[p[m - 1]] == s.map_[p[0]];
  }

  /** Off its start a path meets no operand, if the other operand is off the path. */
  lemma NoOperandOn(adj: seq<seq<nat>>, m: seq<nat>, qs: seq<PhysicalQubit>, p: seq<nat>, other: nat, operands: seq<nat>)
    requires PathShape(adj, qs, p) && Placement(m, |qs|) && other < |qs| && other !in p
    requires forall l :: l in operands ==> l == m[p[0]] || l == m[other]
    ensures forall i :: 1 <= i < |p| ==> m[p[i]] !in operands
  {
    forall i | 1 <= i < |p| ensures m[p[i]] != m[p[0]] && m[p[i]] != m[other] {
      assert p[i] in p && p[0] != p[i] && p[i] != other;
    }
  }

  /** All swaps of one path after the operations done before. */
  lemma WholePathPurposeful(gates: set<nat>, chains: seq<seq<nat>>, operands: seq<nat>, adj: seq<seq<nat>>, s: Sim, qs: seq<PhysicalQubit>, p: seq<nat>,
                            start: Sim, done: seq<Operation>)
    requires PathOk(adj, s, qs, p)
    requires SimOk(start, |qs|) && AllFit(done, |qs|) && Ready(start, done) && Run(start, done) == s
    requires Awaited(gates, chains, s.log, operands) && Purposeful(gates, chains, start, done)
    requires s.map_[p[0]] in operands && forall i :: 1 <= i < |p| ==> s.map_[p[i]] !in operands
    ensures AllFit(done + Hops(qs, p), |qs|) && Purposeful(gates, chains, start, done + Hops(qs, p))
  {
    PathPurposeful(gates, chains, operands, adj, s, qs, p, |p| - 1, start, done);
    assert Hops(qs, p)[..|p| - 1] == Hops(qs, p);
  }

  /** A path finds its logical qubits in place when another path without common vertices has been walked. */
  lemma StillInPlace(adj: seq<seq<nat>>, s: Sim, r: Sim, qs: seq<PhysicalQubit>, p0: seq<nat>, p1: seq<nat>)
    requires PathShape(adj, qs, p0) && PathShape(adj, qs, p1) && SimOk(s, |qs|) && SimOk(r, |qs|)
    requires Moved(s, r, qs, p0, |p0| - 1)
    requires forall v :: v in p0 ==> v !in p1
    ensures forall i :: 0 <= i < |p1| ==> r.map_[p1[i]] == s.map_[p1[i]]
  {
    assert p0[..|p0| - 1 + 1] == p0;
    forall i | 0 <= i < |p1| ensures r.map_[p1[i]] == s.map_[p1[i]] {
      assert p1[i] in p1;
    }
  }

  lemma BothPurposeful(gates: set<nat>, chains: seq<seq<nat>>, adj: seq<seq<nat>>, qs: seq<PhysicalQubit>, p0: seq<nat>, p1: seq<nat>, s: Sim, operands: seq<nat>)
    requires PathOk(adj, s, qs, p0) && PathOk(adj, s, qs, p1)
    requires forall v :: v in p0 ==> v !in p1
    requires Awaited(gates, chains, s.log, operands) && s.map_[p0[0]] in operands && s.map_[p1[0]] in operands
    requires forall l :: l in operands ==> l == s.map_[p0[0]] || l == s.map_[p1[0]]
    ensures AllFit(Hops(qs, p0) + Hops(qs, p1), |qs|) && Purposeful(gates, chains, s, Hops(qs, p0) + Hops(qs, p1))
  {
    hide Awaited, Hops, Rising, HopAt, Step;
    var h0, h1 := Hops(qs, p0), Hops(qs, p1);
    assert p1[0] in p1 && p0[0] in p0;
    NoOperandOn(adj, s.map_, qs, p0, p1[0], operands);
    NoOperandOn(adj, s.map_, qs, p1, p0[0], operands);
    WholePath(adj, s, qs, p0, s, []);
    WholePathPurposeful(gates, chains, operands, adj, s, qs, p0, s, []);
    assert [] + h0 == h0;
    var r := Run(s, h0);
    StillOk(adj, s, r, qs, p0, p1);
    StillInPlace(adj, s, r, qs, p0, p1);
    WholePathPurposeful(gates, chains, operands, adj, r, qs, p1, s, h0);
  }

  lemma CanonicalPurposeful(gates: set<nat>, chains: seq<seq<nat>>, adj: seq<seq<nat>>, qs: seq<PhysicalQubit>, t0: nat, t1: nat, q0: nat, q1: nat, s: Sim, kind: string, swapIds: bool)
    requires Met(adj, qs, t0, t1, q0, q1) && SimOk(s, |qs|) && s.busy == Occupied(qs)
    requires Awaited(gates, chains, s.log, OperandsOf(s.map_, t0, t1, swapIds))
    ensures AllFit(Canonical(adj, qs, t0, t1, q0, q1, kind, swapIds), |qs|)
    ensures Purposeful(gates, chains, s, Canonical(adj, qs, t0, t1, q0, q1, kind, swapIds))
  {
    var p0, p1 := Path(adj, qs, t0, t1, q0), Path(adj, qs, t0, t1, q1);
    PathsDisjoint(adj, qs, t0, t1, q0, q1);
    BothPurposeful(gates, chains, adj, qs, p0, p1, s, OperandsOf(s.map_, t0, t1, swapIds));
    CanonicalRun(adj, qs, t0, t1, q0, q1, s, kind, swapIds);
    PurposefulSnoc(gates, chains, s, Hops(qs, p0) + Hops(qs, p1), MeetingGate(qs, kind, q0, q1, swapIds));
  }

  /** While only the operands wait for the gate, no swap exchanges two logical qubits that wait for the same gate. */
  ghost predicate Steered(qs: seq<PhysicalQubit>, ops: seq<Operation>, operands: seq<nat>) {
    && Placement(Logicals(qs), |qs|) && AllFit(ops, |qs|)
    && forall gates, chains, log: seq<seq<Event>> :: |log| == |qs| && Awaited(gates, chains, log, operands) ==>
         Purposeful(gates, chains, DeviceSim(qs, log), ops)
  }

  lemma TracedIsSteered(adj: seq<seq<nat>>, qs: seq<PhysicalQubit>, t0: nat, t1: nat, q0: nat, q1: nat, kind: string, swapIds: bool, ops: seq<Operation>)
    requires Couplings(adj) && Met(adj, qs, t0, t1, q0, q1) && Placement(Logicals(qs), |qs|)
    requires SortedByStart(ops) && multiset(ops) == multiset(Canonical(adj, qs, t0, t1, q0, q1, kind, swapIds))
    ensures Steered(qs, ops, OperandsOf(Logicals(qs), t0, t1, swapIds))
  {
    SortedCanonical(adj, qs, t0, t1, q0, q1, kind, swapIds, ops);
    var operands := OperandsOf(Logicals(qs), t0, t1, swapIds);
    var c := Canonical(adj, qs, t0, t1, q0, q1, kind, swapIds);
    forall gates, chains, log: seq<seq<Event>> | |log| == |qs| && Awaited(gates, chains, log, operands)
      ensures Purposeful(gates, chains, DeviceSim(qs, log), ops)
    {
      var s := DeviceSim(qs, log);
      CanonicalPurposeful(gates, chains, adj, qs, t0, t1, q0, q1, s, kind, swapIds);
      CanonicalRun(adj, qs, t0, t1, q0, q1, s, kind, swapIds);
      ReadyTimes(s, c);
      SortedPurposeful(gates, chains, s, c, ops);
    }
  }

  lemma SteeredFrom(qs: seq<PhysicalQubit>, mid: seq<PhysicalQubit>, ops: seq<Operation>, operands: seq<nat>)
    requires Steered(mid, ops, operands) && SameDevice(qs, mid)
    ensures Steered(qs, ops, operands)
  {
    assert |qs| == |Logicals(qs)| && |mid| == |Logicals(mid)|;
    forall gates, chains, log: seq<seq<Event>> | |log| == |qs| && Awaited(gates, chains, log, operands)
      ensures Purposeful(gates, chains, DeviceSim(qs, log), ops)
    {
      assert DeviceSim(qs, log) == DeviceSim(mid, log);
    }
  }

  // ---------- the router ----------

  /** The table from logical to physical qubits is the inverse of the placement. */
  predicate Inverse(l2p: seq<nat>, m: seq<nat>) {
    |l2p| == |m| && forall l :: 0 <= l < |l2p| ==> l2p[l] < |m| && m[l2p[l]] == l
  }

  /** Swaps belong to the router: a device takes them for a change of the placement. */
  const SWAP := "swap"

  /** The event a logical gate stands for. */
  function EventOf(gate: LogicalGate): Event { Event(gate.kind, gate.qubits) }

  lemma TableIsInverse(l2p: seq<nat>, m: seq<nat>)
    requires Placement(m, |m|) && |l2p| == |m| && forall j :: 0 <= j < |m| ==> l2p[m[j]] == j
    ensures Inverse(l2p, m)
  {
    forall l: nat | l < |m| ensures l2p[l] < |m| && m[l2p[l]] == l {
      var j := Holder(m, l);
    }
  }

  function Below(n: nat): (s: set<nat>)
    ensures |s| == n && forall x: nat :: x in s <==> x < n
  {
    if n == 0 then {} else Below(n - 1) + {n - 1}
  }

  lemma {:induction false} Onto(m: seq<nat>, k: nat, s: set<nat>)
    requires k <= |m| && (forall i, j :: 0 <= i < j < k ==> m[i] != m[j]) && s == set i | 0 <= i < k :: m[i]
    ensures |s| == k
  {
    if k > 0 {
      var t := set i | 0 <= i < k - 1 :: m[i];
      Onto(m, k - 1, t);
      assert s == t + {m[k - 1]};
    }
  }

  /** In a placement every logical qubit is somewhere. */
  lemma Holder(m: seq<nat>, l: nat) returns (j: nat)
    requires Placement(m, |m|) && l < |m|
    ensures j < |m| && m[j] == l
  {
    var s := set i | 0 <= i < |m| :: m[i];
    Onto(m, |m|, s);
    assert s <= Below(|m|);
    SubsetSize(s, Below(|m|));
    assert l in s;
    j :| 0 <= j < |m| && m[j] == l;
  }

  predicate Holds(qs: seq<PhysicalQubit>, p: nat, l: nat) { p < |qs| && qs[p].logical == l }

  lemma OnlyOneHolds(qs: seq<PhysicalQubit>)
    requires Placement(Logicals(qs), |qs|)
    ensures forall p: nat, q: nat, l: nat :: Holds(qs, p, l) && Holds(qs, q, l) ==> p == q
  {
    forall p: nat, q: nat, l: nat | Holds(qs, p, l) && Holds(qs, q, l) ensures p == q {
      assert Logicals(qs)[p] == Logicals(qs)[q];
    }
  }

  lemma TakenAreMarked(adj: seq<seq<nat>>, qs: seq<PhysicalQubit>, t0: nat, t1: nat)
    requires ChainsOk(adj, qs, t0, t1)
    ensures forall v :: 0 <= v < |qs| && qs[v].taken ==> qs[v].marked
  {
    forall v | 0 <= v < |qs| && qs[v].taken ensures qs[v].marked {
      assert TakenOk(adj, qs, t0, t1, v);
    }
  }

  /** After both sources have looked around without contact, they are settled. */
  lemma StartSettled(adj: seq<seq<nat>>, seeded: seq<PhysicalQubit>, first: seq<PhysicalQubit>, second: seq<PhysicalQubit>, t0: nat, t1: nat, met: bool, met1: bool, w1: nat)
    requires Couplings(adj) && ChainsOk(adj, seeded, t0, t1) && OnlySources(seeded, t0, t1)
    requires Grown(seeded, first) && Grown(first, second) && ChainsOk(adj, first, t0, t1) && ChainsOk(adj, second, t0, t1)
    requires met ==> Met(adj, first, t0, t1, t0, t1)
    requires !met ==> Settled(adj, first, t0)
    requires if met1 then Contact(adj, second, t1, w1) else Settled(adj, second, t1)
    ensures met ==> Met(adj, second, t0, t1, t0, t1)
    ensures !met ==> AllSettled(adj, second)
  {
    if !met {
      TakenAreMarked(adj, first, t0, t1);
      GrownKeepsSettled(adj, first, second, t0);
      if met1 {
        SourcesTouch(adj, second, t0, t1, w1);
        assert false;
      }
    }
  }

  /** The loop invariant of the search. */
  predicate Searching(adj: seq<seq<nat>>, start: seq<PhysicalQubit>, qs: seq<PhysicalQubit>, pq: seq<Node>, t0: nat, t1: nat, met: bool, q0: nat, q1: nat)
    requires Couplings(adj)
  {
    && SameDevice(start, qs) && ChainsOk(adj, qs, t0, t1)
    && (!met ==> QueueOk(adj, qs, pq) && AllSettled(adj, qs) && InOrder(adj, qs, t0, t1))
    && (met ==> Met(adj, qs, t0, t1, q0, q1) && Searched(adj, qs, t0, t1, q0, q1))
  }

  lemma SearchStarts(adj: seq<seq<nat>>, start: seq<PhysicalQubit>, first: seq<PhysicalQubit>, second: seq<PhysicalQubit>, pq: seq<Node>, t0: nat, t1: nat, met: bool, met1: bool, w1: nat)
    requires Couplings(adj) && |start| == |adj| && t0 < |start| && t1 < |start| && t0 != t1 && Idle(start)
    requires Grown(Seeded(start, t0, t1), first) && Grown(first, second) && MarkedFrom(Seeded(start, t0, t1), first, t0)
    requires ChainsOk(adj, first, t0, t1) && SearchOk(adj, second, pq, t0, t1)
    requires if met then Met(adj, first, t0, t1, t0, t1) else Settled(adj, first, t0)
    requires if met1 then Contact(adj, second, t1, w1) else Settled(adj, second, t1)
    ensures Searching(adj, start, second, pq, t0, t1, met, t0, t1)
  {
    SeededOk(adj, start, t0, t1);
    StartSettled(adj, Seeded(start, t0, t1), first, second, t0, t1, met, met1, w1);
    GrownSameDevice(Seeded(start, t0, t1), first);
    GrownSameDevice(first, second);
    if !met { OrderStarts(adj, Seeded(start, t0, t1), first, second, pq, t0, t1); }
  }

  lemma StepTakes(adj: seq<seq<nat>>, start: seq<PhysicalQubit>, qs: seq<PhysicalQubit>, pq: seq<Node>, t0: nat, t1: nat, k: nat)
    requires Couplings(adj) && SameDevice(start, qs) && SearchOk(adj, qs, pq, t0, t1) && k < |pq|
    ensures pq[k].id < |qs| && pq[k].cost >= SWAP_DELAY && QueuedOk(adj, qs, pq[k])
    ensures SearchOk(adj, Taken(qs, pq[k]), pq[..k] + pq[k + 1..], t0, t1) && SameDevice(start, Taken(qs, pq[k]))
  {
    assert QueuedOk(adj, qs, pq[k]);
    TakeKeepsChains(adj, qs, t0, t1, pq[k]);
    TakeKeepsQueue(adj, qs, pq, k);
  }

  lemma StepGrows(adj: seq<seq<nat>>, start: seq<PhysicalQubit>, qs: seq<PhysicalQubit>, pq: seq<Node>, k: nat, qs': seq<PhysicalQubit>, pq': seq<Node>,
                  t0: nat, t1: nat, met: bool, w: nat, q0: nat, q1: nat)
    requires Couplings(adj) && SearchOk(adj, qs, pq, t0, t1) && AllSettled(adj, qs) && InOrder(adj, qs, t0, t1)
    requires k < |pq| && IsCheapest(pq, k) && QueuedOk(adj, qs, pq[k]) && pq[k].cost >= SWAP_DELAY
    requires SameDevice(start, Taken(qs, pq[k])) && Grown(Taken(qs, pq[k]), qs') && MarkedFrom(Taken(qs, pq[k]), qs', pq[k].id)
    requires SearchOk(adj, qs', pq', t0, t1)
    requires if met then Contact(adj, qs', pq[k].id, w) && FirstTouch(adj, qs', pq[k].id, w) else Settled(adj, qs', pq[k].id)
    requires q0 == (if pq[k].source then w else pq[k].id) && q1 == if pq[k].source then pq[k].id else w
    ensures Searching(adj, start, qs', pq', t0, t1, met, q0, q1) && |Untaken(qs')| < |Untaken(qs)|
  {
    hide QueueOk, LastTaken, SettledBut, FirstTouch, CheapestFirst, FirstMarked, TakenOk, Grown;
    var e := pq[k];
    StepKeepsOrder(adj, qs, pq, t0, t1, k, qs', pq');
    StepGrown(adj, start, qs, e, qs', t0, t1);
    if met {
      ContactMeets(adj, qs', t0, t1, e.id, w);
    } else {
      TakenAreMarked(adj, qs, t0, t1);
      StepSettles(adj, qs, e, qs');
    }
  }

  lemma StepGrown(adj: seq<seq<nat>>, start: seq<PhysicalQubit>, qs: seq<PhysicalQubit>, e: Node, qs': seq<PhysicalQubit>, t0: nat, t1: nat)
    requires |qs| == |adj| && QueuedOk(adj, qs, e) && e.cost >= SWAP_DELAY
    requires SameDevice(start, Taken(qs, e)) && Grown(Taken(qs, e), qs')
    ensures SameDevice(start, qs') && |Untaken(qs')| < |Untaken(qs)| && qs'[e.id].source == e.source && qs'[e.id].taken
  {
    GrownSameDevice(Taken(qs, e), qs');
    FewerUntaken(qs, qs', e.id);
  }

  lemma TracedList(adj: seq<seq<nat>>, qs: seq<PhysicalQubit>, t0: nat, t1: nat, q0: nat, q1: nat, kind: string, swapIds: bool)
    requires Met(adj, qs, t0, t1, q0, q1)
    ensures multiset(Canonical(adj, qs, t0, t1, q0, q1, kind, swapIds))
            == multiset{MeetingGate(qs, kind, q0, q1, swapIds)}
               + multiset(Hops(qs, Path(adj, qs, t0, t1, q0))) + multiset(Hops(qs, Path(adj, qs, t0, t1, q1)))
  {
  }

  /** The device after a one-qubit gate on q. */
  function AfterSingle(qs: seq<PhysicalQubit>, q: nat): seq<PhysicalQubit>
    requires q < |qs|
  {
    qs[q := qs[q].(occupied := qs[q].occupied + SINGLE_DELAY).Reset()]
  }

  function SingleOp(qs: seq<PhysicalQubit>, kind: string, q: nat): Operation
    requires q < |qs|
  {
    GateOp(kind, [q], qs[q].occupied, qs[q].occupied + SINGLE_DELAY)
  }

  lemma SingleDevice(qs: seq<PhysicalQubit>, q: nat, kind: string)
    requires q < |qs|
    ensures Logicals(AfterSingle(qs, q)) == Logicals(qs)
    ensures SingleOp(qs, kind, q).Fits(|qs|) && Busy(Occupied(qs), SingleOp(qs, kind, q)) == Occupied(AfterSingle(qs, q))
  {
  }

  lemma SingleIsTimed(adj: seq<seq<nat>>, qs: seq<PhysicalQubit>, kind: string, q: nat)
    requires |qs| == |adj| && q < |qs|
    ensures Timed(adj, qs, [SingleOp(qs, kind, q)], AfterSingle(qs, q))
  {
    SingleDevice(qs, q, kind);
    BusyGrows(Occupied(qs), SingleOp(qs, kind, q));
  }

  lemma SingleExecutes(qs: seq<PhysicalQubit>, kind: string, q: nat, log: seq<seq<Event>>)
    requires q < |qs| && Placement(Logicals(qs), |qs|) && |log| == |qs|
    ensures InRange(Event(kind, [qs[q].logical]), |qs|)
    ensures Executes(qs, log, [SingleOp(qs, kind, q)], AfterSingle(qs, q), Event(kind, [qs[q].logical]))
  {
    var op := SingleOp(qs, kind, q);
    assert Logicals(qs)[q] < |qs|;
    SingleDevice(qs, q, kind);
    RunOne(DeviceSim(qs, log), op);
    RecordIsLogEvent(DeviceSim(qs, log), op);
    assert Operands(Logicals(qs), op) == [qs[q].logical];
  }

  lemma SingleIsRouted(adj: seq<seq<nat>>, qs: seq<PhysicalQubit>, kind: string, q: nat)
    requires |qs| == |adj| && q < |qs| && Placement(Logicals(qs), |qs|)
    ensures Routed(adj, qs, [SingleOp(qs, kind, q)], AfterSingle(qs, q), Event(kind, [qs[q].logical]))
  {
    hide Executes, SingleOp, AfterSingle, Timed, Routed;
    var e := Event(kind, [qs[q].logical]);
    SingleIsTimed(adj, qs, kind, q);
    assert Logicals(qs)[q] < |qs|;
    forall log: seq<seq<Event>> | |log| == |qs| ensures Executes(qs, log, [SingleOp(qs, kind, q)], AfterSingle(qs, q), e) {
      SingleExecutes(qs, kind, q, log);
    }
    MakeRouted(adj, qs, [SingleOp(qs, kind, q)], AfterSingle(qs, q), e);
  }

  lemma SingleIsSteered(qs: seq<PhysicalQubit>, kind: string, q: nat)
    requires q < |qs| && Placement(Logicals(qs), |qs|)
    ensures Steered(qs, [SingleOp(qs, kind, q)], [qs[q].logical])
  {
    SingleDevice(qs, q, kind);
    assert [SingleOp(qs, kind, q)][..0] == [];
  }

  /** A gate on one qubit, or with its two operands on coupled qubits. */
  predicate ExecutableOn(adj: seq<seq<nat>>, qs: seq<PhysicalQubit>, gate: LogicalGate) {
    |gate.qubits| == 1 ||
    (|gate.qubits| == 2 && exists a: nat, b: nat ::
      Holds(qs, a, gate.qubits[0]) && Holds(qs, b, gate.qubits[1]) && a < |adj| && b in adj[a])
  }

  // ---------- no idle time ----------

  /** At the end of the i-th swap of a path its qubit is free, at the start of the path when it was occupied until then. */
  lemma PathFreed(adj: seq<seq<nat>>, qs: seq<PhysicalQubit>, p: seq<nat>, i: nat, ops: seq<Operation>)
    requires PathShape(adj, qs, p) && i < |p| && forall j :: 0 <= j < |p| - 1 ==> Hops(qs, p)[j] in ops
    ensures FreedAt(Occupied(qs), ops, p[i], qs[p[i]].cost)
  {
    if i == 0 {
      assert Occupied(qs)[p[0]] == qs[p[0]].cost;
    } else {
      assert HopAt(adj, qs, p, i);
      var op := Hops(qs, p)[i - 1];
      var k :| 0 <= k < |ops| && ops[k] == op;
      assert op.Qubits()[0] == p[i];
      assert EndsOn(ops[k], p[i], qs[p[i]].cost);
    }
  }

  lemma HopSharp(adj: seq<seq<nat>>, qs: seq<PhysicalQubit>, p: seq<nat>, i: nat, ops: seq<Operation>)
    requires PathShape(adj, qs, p) && i < |p| - 1 && forall j :: 0 <= j < |p| - 1 ==> Hops(qs, p)[j] in ops
    ensures StartsSharp(Occupied(qs), ops, Hops(qs, p)[i])
  {
    var op := Hops(qs, p)[i];
    assert HopAt(adj, qs, p, i + 1);
    PathFreed(adj, qs, p, i, ops);
    assert op.Qubits()[0] == p[i + 1] && op.Qubits()[1] == p[i];
    if op.start == qs[p[i + 1]].occupied {
      assert Occupied(qs)[p[i + 1]] == op.start;
      assert FreedAt(Occupied(qs), ops, op.Qubits()[0], op.start);
    } else {
      assert FreedAt(Occupied(qs), ops, op.Qubits()[1], op.start);
    }
  }

  /** The swaps and the gate of a route leave no idle time. */
  lemma CanonicalSharp(adj: seq<seq<nat>>, qs: seq<PhysicalQubit>, t0: nat, t1: nat, q0: nat, q1: nat, kind: string, swapIds: bool)
    requires Met(adj, qs, t0, t1, q0, q1)
    ensures Sharp(Occupied(qs), Canonical(adj, qs, t0, t1, q0, q1, kind, swapIds))
  {
    hide Path, Rising, HopAt, Hops, ChainsOk, FreedAt, StartsSharp;
    var p0, p1 := Path(adj, qs, t0, t1, q0), Path(adj, qs, t0, t1, q1);
    var h0, h1, gate := Hops(qs, p0), Hops(qs, p1), MeetingGate(qs, kind, q0, q1, swapIds);
    var ops := h0 + h1 + [gate];
    assert forall j :: 0 <= j < |h0| ==> ops[j] == h0[j];
    assert forall j :: 0 <= j < |h1| ==> ops[|h0| + j] == h1[j];
    forall i | 0 <= i < |ops| ensures StartsSharp(Occupied(qs), ops, ops[i]) {
      if i < |h0| {
        HopSharp(adj, qs, p0, i, ops);
      } else if i < |h0| + |h1| {
        HopSharp(adj, qs, p1, i - |h0|, ops);
      } else {
        PathFreed(adj, qs, p0, |p0| - 1, ops);
        PathFreed(adj, qs, p1, |p1| - 1, ops);
        GateSharp(qs, kind, q0, q1, swapIds, ops);
      }
    }
  }

  lemma GateSharp(qs: seq<PhysicalQubit>, kind: string, q0: nat, q1: nat, swapIds: bool, ops: seq<Operation>)
    requires q0 < |qs| && q1 < |qs|
    requires FreedAt(Occupied(qs), ops, q0, qs[q0].cost) && FreedAt(Occupied(qs), ops, q1, qs[q1].cost)
    ensures StartsSharp(Occupied(qs), ops, MeetingGate(qs, kind, q0, q1, swapIds))
  {
    hide FreedAt;
    var gate := MeetingGate(qs, kind, q0, q1, swapIds);
    assert FreedAt(Occupied(qs), ops, gate.Qubits()[0], gate.start) || FreedAt(Occupied(qs), ops, gate.Qubits()[1], gate.start);
  }

  lemma SingleSharp(qs: seq<PhysicalQubit>, kind: string, q: nat)
    requires q < |qs|
    ensures Sharp(Occupied(qs), [SingleOp(qs, kind, q)])
  {
    var op := SingleOp(qs, kind, q);
    assert FreedAt(Occupied(qs), [op], op.Qubits()[0], op.start);
  }

  // ---------- which route is taken ----------

  /**
   The order of the sources: the operand that is free earlier goes first; among equals the one
   with the smaller logical number, or the first operand if ties are not broken.
   */
  predicate InTurn(qs: seq<PhysicalQubit>, p0: nat, p1: nat, tieMin: bool, t0: nat, t1: nat, swapIds: bool) {
    && p0 < |qs| && p1 < |qs|
    && t0 == (if swapIds then p1 else p0) && t1 == (if swapIds then p0 else p1)
    && qs[t0].occupied <= qs[t1].occupied
    && (qs[t0].occupied == qs[t1].occupied ==> if tieMin then qs[t0].logical <= qs[t1].logical else !swapIds)
  }

  /** A search from two sources: the device as the search has left it, and where the sides met. */
  datatype Finding = Finding(t0: nat, t1: nat, swapIds: bool, qs: seq<PhysicalQubit>, q0: nat, q1: nat)

  /** The operations are the swaps and the gate the search found, by start time. */
  ghost predicate FoundBy(adj: seq<seq<nat>>, qs: seq<PhysicalQubit>, ops: seq<Operation>, kind: string, p0: nat, p1: nat, tieMin: bool, s: Finding) {
    && InTurn(qs, p0, p1, tieMin, s.t0, s.t1, s.swapIds)
    && Couplings(adj) && SameDevice(qs, s.qs)
    && Met(adj, s.qs, s.t0, s.t1, s.q0, s.q1) && Searched(adj, s.qs, s.t0, s.t1, s.q0, s.q1)
    && SortedByStart(ops) && multiset(ops) == multiset(Canonical(adj, s.qs, s.t0, s.t1, s.q0, s.q1, kind, s.swapIds))
  }

  /** The operations of a gate: as soon as its qubit is free, or what a search from its operands finds. */
  ghost predicate RouteOf(adj: seq<seq<nat>>, qs: seq<PhysicalQubit>, ops: seq<Operation>, gate: LogicalGate, tieMin: bool) {
    if |gate.qubits| == 1 then exists p: nat :: Holds(qs, p, gate.qubits[0]) && ops == [SingleOp(qs, gate.kind, p)]
    else
      |gate.qubits| == 2 && exists p0: nat, p1: nat ::
        Holds(qs, p0, gate.qubits[0]) && Holds(qs, p1, gate.qubits[1]) && FoundFrom(adj, qs, ops, gate.kind, p0, p1, tieMin)
  }

  ghost predicate FoundFrom(adj: seq<seq<nat>>, qs: seq<PhysicalQubit>, ops: seq<Operation>, kind: string, p0: nat, p1: nat, tieMin: bool) {
    exists s: Finding :: FoundBy(adj, qs, ops, kind, p0, p1, tieMin, s)
  }

  lemma IsFound(adj: seq<seq<nat>>, qs: seq<PhysicalQubit>, ops: seq<Operation>, kind: string, p0: nat, p1: nat, tieMin: bool, s: Finding)
    requires InTurn(qs, p0, p1, tieMin, s.t0, s.t1, s.swapIds) && Couplings(adj) && SameDevice(qs, s.qs) && |s.qs| == |adj|
    requires Met(adj, s.qs, s.t0, s.t1, s.q0, s.q1) && Searched(adj, s.qs, s.t0, s.t1, s.q0, s.q1)
    requires SortedByStart(ops) && multiset(ops) == multiset(Canonical(adj, s.qs, s.t0, s.t1, s.q0, s.q1, kind, s.swapIds))
    ensures FoundFrom(adj, qs, ops, kind, p0, p1, tieMin)
  {
    hide InTurn, Met, Searched, Canonical, SortedByStart;
    assert FoundBy(adj, qs, ops, kind, p0, p1, tieMin, s);
  }

  class Router {
    const device: Device
    const tieMin: bool
    var l2p: seq<nat>

    ghost predicate Valid()
      reads this, device
    {
      device.Valid() && Idle(device.qubits) && Connected(device.adj) && Inverse(l2p, Logicals(device.qubits))
    }

    constructor (device: Device, tieMin: bool)
      requires device.Valid() && Idle(device.qubits) && Connected(device.adj)
      ensures Valid() && this.device == device && this.tieMin == tieMin
    {
      this.device, this.tieMin := device, tieMin;
      l2p := seq(|device.qubits|, i => 0);
      new;
      FillTable();
    }

    /** Writes for every physical qubit where its logical qubit is. */
    method FillTable()
      requires device.Valid() && |l2p| == |device.qubits|
      modifies `l2p
      ensures Inverse(l2p, Logicals(device.qubits))
    {
      var qs := device.qubits;
      for i := 0 to |qs|
        invariant |l2p| == |qs|
        invariant forall j :: 0 <= j < i ==> l2p[qs[j].logical] == j
      {
        assert Logicals(qs)[i] < |qs|;
        assert forall j :: 0 <= j < i ==> Logicals(qs)[j] != Logicals(qs)[i];
        l2p := l2p[qs[i].logical := i];
      }
      TableIsInverse(l2p, Logicals(qs));
    }

    /**
     Marks and queues the neighbours of a taken vertex; stops at a neighbour the other side has taken.
     */
    method TouchAdjacency(u: nat, pq: seq<Node>, source: bool, ghost t0: nat, ghost t1: nat)
      returns (touched: bool, w: nat, pq': seq<Node>)
      requires device.Valid() && SearchOk(device.adj, device.qubits, pq, t0, t1)
      requires u < |device.qubits| && device.qubits[u].taken && device.qubits[u].source == source
      modifies device
      ensures device.Valid() && Grown(old(device.qubits), device.qubits)
      ensures SearchOk(device.adj, device.qubits, pq', t0, t1)
      ensures MarkedFrom(old(device.qubits), device.qubits, u)
      ensures touched ==> Contact(device.adj, device.qubits, u, w) && FirstTouch(device.adj, device.qubits, u, w)
      ensures !touched ==> Settled(device.adj, device.qubits, u)
    {
      hide Touching, SearchOk, Grown, Settled;
      ghost var start := device.qubits;
      var adj := device.adj;
      pq' := pq;
      TouchStarts(adj, start, pq, t0, t1, u);
      for k := 0 to |adj[u]|
        invariant device.Valid() && Touching(adj, start, device.qubits, pq', t0, t1, u, k)
      {
        TouchFacts(adj, start, device.qubits, pq', t0, t1, u, k);
        w := adj[u][k];
        if device.qubits[w].marked {
          if device.qubits[w].taken {
            if device.qubits[w].source != source {
              return true, w, pq';
            }
          }
          TouchMarked(adj, start, device.qubits, pq', t0, t1, u, k);
          continue;
        }
        TouchStep(adj, start, device.qubits, pq', t0, t1, u, k);
        var cost := Max(device.qubits[u].cost, device.qubits[w].occupied) + SWAP_DELAY;
        device.qubits := device.qubits[w := device.qubits[w].Mark(source, u)];
        pq' := pq' + [Node(cost, w, source)];
        TouchFacts(adj, start, device.qubits, pq', t0, t1, u, k + 1);
      }
      TouchFacts(adj, start, device.qubits, pq', t0, t1, u, |adj[u]|);
      touched := false;
      w := 0;
    }

    /** Routes a two-qubit gate from the physical qubits p0 and p1 of its operands. */
    method DuostraRouting(kind: string, p0: nat, p1: nat) returns (ops: seq<Operation>)
      requires Valid() && p0 < |device.qubits| && p1 < |device.qubits| && p0 != p1 && kind != SWAP
      modifies device
      ensures device.Valid() && Idle(device.qubits)
      ensures Routed(device.adj, old(device.qubits), ops, device.qubits,
                     Event(kind, [old(device.qubits[p0].logical), old(device.qubits[p1].logical)]))
      ensures Steered(old(device.qubits), ops, [old(device.qubits[p0].logical), old(device.qubits[p1].logical)])
      ensures FoundFrom(device.adj, old(device.qubits), ops, kind, p0, p1, tieMin)
      ensures Sharp(Occupied(old(device.qubits)), ops)
    {
      hide Met, Searched, Routed, Steered, Connected, Inverse, FoundFrom, Canonical, SortedByStart, Sharp;
      ghost var start := device.qubits;
      var t0, t1, swapIds := p0, p1, false;
      if device.qubits[p0].occupied > device.qubits[p1].occupied {
        t0, t1, swapIds := p1, p0, true;
      } else if device.qubits[p0].occupied == device.qubits[p1].occupied {
        if tieMin && device.qubits[p0].logical > device.qubits[p1].logical {
          t0, t1, swapIds := p1, p0, true;
        }
      }
      var q0, q1 := Search(t0, t1);
      ghost var mid := device.qubits;
      ops := Traceback(kind, q0, q1, t0, t1, swapIds);
      IsFound(device.adj, start, ops, kind, p0, p1, tieMin, Finding(t0, t1, swapIds, mid, q0, q1));
      ghost var mid' := device.qubits;
      device.ResetAll();
      RoutedFrom(device.adj, start, mid, ops, mid', device.qubits, Event(kind, OperandsOf(Logicals(mid), t0, t1, swapIds)));
      assert OperandsOf(Logicals(mid), t0, t1, swapIds) == [start[p0].logical, start[p1].logical] by {
        assert Logicals(mid) == Logicals(start);
      }
      SteeredFrom(start, mid, ops, OperandsOf(Logicals(mid), t0, t1, swapIds));
      CanonicalSharp(device.adj, mid, t0, t1, q0, q1, kind, swapIds);
      SharpAnyOrder(Occupied(mid), Canonical(device.adj, mid, t0, t1, q0, q1, kind, swapIds), ops);
    }

    /** Marks and takes the two sources. */
    method SeedSources(t0: nat, t1: nat)
      requires t0 < |device.qubits| && t1 < |device.qubits|
      modifies device
      ensures device.qubits == Seeded(old(device.qubits), t0, t1)
    {
      device.qubits := device.qubits[t0 := device.qubits[t0].Mark(false, t0)];
      device.qubits := device.qubits[t0 := device.qubits[t0].TakeRoute(device.qubits[t0].cost, 0)];
      device.qubits := device.qubits[t1 := device.qubits[t1].Mark(true, t1)];
      device.qubits := device.qubits[t1 := device.qubits[t1].TakeRoute(device.qubits[t1].cost, 0)];
    }

    /**
     Grows the two fronts, cheapest vertex first, until they meet; on a connected device the
     queue never runs empty before.
     */
    method Search(t0: nat, t1: nat) returns (q0: nat, q1: nat)
      requires Valid() && t0 < |device.qubits| && t1 < |device.qubits| && t0 != t1
      modifies device
      ensures device.Valid() && SameDevice(old(device.qubits), device.qubits)
      ensures Met(device.adj, device.qubits, t0, t1, q0, q1)
      ensures Searched(device.adj, device.qubits, t0, t1, q0, q1)
    {
      hide TakenOk, QueueOk, Grown, Settled, Connected, Met, Contact, OnlySources, Seeded, InOrder, Searched, MarkedFrom, FirstTouch;
      var adj := device.adj;
      ghost var start := device.qubits;
      SeededOk(adj, start, t0, t1);
      SeedSources(t0, t1);
      q0, q1 := t0, t1;
      var pq: seq<Node>;
      var met, w;
      met, w, pq := TouchAdjacency(t0, [], false, t0, t1);
      ghost var first := device.qubits;
      if met { SourcesMeet(adj, Seeded(start, t0, t1), first, t0, t1, w); }
      var met1, w1;
      met1, w1, pq := TouchAdjacency(t1, pq, true, t0, t1);
      SearchStarts(adj, start, first, device.qubits, pq, t0, t1, met, met1, w1);
      while !met
        invariant device.Valid() && Searching(adj, start, device.qubits, pq, t0, t1, met, q0, q1)
        decreases |Untaken(device.qubits)|
      {
        QueueNotEmpty(adj, device.qubits, pq, t0, t1);
        ghost var before, queue := device.qubits, pq;
        var next, rest := PopCheapest(pq);
        ghost var k :| 0 <= k < |pq| && next == pq[k] && rest == pq[..k] + pq[k + 1..];
        StepTakes(adj, start, before, pq, t0, t1, k);
        device.qubits := Taken(device.qubits, next);
        met, w, pq := TouchAdjacency(next.id, rest, next.source, t0, t1);
        StepGrows(adj, start, before, queue, k, device.qubits, pq, t0, t1, met, w,
                  if next.source then w else next.id, if next.source then next.id else w);
        if met {
          if next.source {
            q0, q1 := w, next.id;
          } else {
            q0, q1 := next.id, w;
          }
        }
      }
    }

    /** Follows the predecessors back from the meeting point, sorts the swaps and the gate by start time and applies them. */
    method Traceback(kind: string, q0: nat, q1: nat, t0: nat, t1: nat, swapIds: bool) returns (ops: seq<Operation>)
      requires device.Valid() && Met(device.adj, device.qubits, t0, t1, q0, q1) && kind != SWAP
      modifies device
      ensures device.Valid()
      ensures Routed(device.adj, old(device.qubits), ops, device.qubits,
                     Event(kind, OperandsOf(Logicals(old(device.qubits)), t0, t1, swapIds)))
      ensures Steered(old(device.qubits), ops, OperandsOf(Logicals(old(device.qubits)), t0, t1, swapIds))
      ensures SortedByStart(ops)
      ensures multiset(ops) == multiset(Canonical(device.adj, old(device.qubits), t0, t1, q0, q1, kind, swapIds))
    {
      var adj, qs := device.adj, device.qubits;
      var list := [MeetingGate(qs, kind, q0, q1, swapIds)];
      list := TraceSide(list, q0, t0, t0, t1);
      list := TraceSide(list, q1, t1, t0, t1);
      TracedList(adj, qs, t0, t1, q0, q1, kind, swapIds);
      assert multiset(list) == multiset(Canonical(adj, qs, t0, t1, q0, q1, kind, swapIds));
      ops := SortByStart(list);
      SortedCanonical(adj, qs, t0, t1, q0, q1, kind, swapIds, ops);
      TracedIsSteered(adj, qs, t0, t1, q0, q1, kind, swapIds, ops);
      ApplyAll(ops);
      TracedIsRouted(adj, qs, t0, t1, q0, q1, kind, swapIds, ops, device.qubits);
    }

    /** Appends the swaps from q back to the source t of its side. */
    method TraceSide(list: seq<Operation>, q: nat, t: nat, ghost t0: nat, ghost t1: nat) returns (r: seq<Operation>)
      requires device.Valid() && ChainsOk(device.adj, device.qubits, t0, t1)
      requires q < |device.qubits| && device.qubits[q].taken && t == if device.qubits[q].source then t1 else t0
      ensures multiset(r) == multiset(list) + multiset(Hops(device.qubits, Path(device.adj, device.qubits, t0, t1, q)))
    {
      hide Path, Hops, ChainsOk;
      ghost var adj, qs := device.adj, device.qubits;
      var trace: nat := q;
      r := list;
      while trace != t
        invariant qs == device.qubits && trace < |qs| && qs[trace].taken && qs[trace].source == qs[q].source
        invariant multiset(r) + multiset(Hops(qs, Path(adj, qs, t0, t1, trace)))
                  == multiset(list) + multiset(Hops(qs, Path(adj, qs, t0, t1, q)))
        decreases device.qubits[trace].cost
      {
        PathBack(adj, qs, t0, t1, trace);
        var tracePred := device.qubits[trace].pred;
        var swapTime := device.qubits[trace].swapTime;
        r := r + [SwapOp(trace, tracePred, swapTime, swapTime + SWAP_DELAY)];
        trace := tracePred;
      }
      PathAtSource(adj, qs, t0, t1, trace);
    }

    method ApplyAll(ops: seq<Operation>)
      requires device.Valid() && AllFit(ops, |device.qubits|) && AllPhysical(device.adj, ops)
      requires forall i :: 0 <= i < |ops| ==> |ops[i].Qubits()| == 2
      modifies device
      ensures device.Valid() && Applied(old(device.qubits), ops, device.qubits)
    {
      ghost var qs := device.qubits;
      assert ops[..0] == [];
      for i := 0 to |ops|
        invariant device.Valid() && Applied(qs, ops[..i], device.qubits)
      {
        ghost var mid := device.qubits;
        assert Physical(device.adj, ops[i]);
        device.ApplyGate(ops[i]);
        AppliedSnoc(qs, ops, i, mid, device.qubits);
      }
      assert ops[..|ops|] == ops;
    }

    /** A one-qubit gate runs as soon as its qubit is free. */
    method ExecuteSingle(kind: string, q: nat) returns (op: Operation)
      requires Valid() && q < |device.qubits|
      modifies device
      ensures device.Valid() && Idle(device.qubits) && Logicals(device.qubits) == Logicals(old(device.qubits))
      ensures Routed(device.adj, old(device.qubits), [op], device.qubits, Event(kind, [old(device.qubits[q].logical)]))
      ensures Steered(old(device.qubits), [op], [old(device.qubits[q].logical)])
      ensures op == SingleOp(old(device.qubits), kind, q) && Sharp(Occupied(old(device.qubits)), [op])
    {
      hide Routed, Steered, Connected, Inverse;
      ghost var qs := device.qubits;
      var startTime := device.qubits[q].occupied;
      var endTime := startTime + SINGLE_DELAY;
      device.qubits := device.qubits[q := device.qubits[q].(occupied := endTime)];
      device.qubits := device.qubits[q := device.qubits[q].Reset()];
      op := GateOp(kind, [q], startTime, endTime);
      assert device.qubits == AfterSingle(qs, q);
      SingleDevice(qs, q, kind);
      SingleSharp(qs, kind, q);
      SingleIsRouted(device.adj, qs, kind, q);
      SingleIsSteered(qs, kind, q);
    }

    /** Whether the operands of a gate are coupled now. */
    method IsExecutable(gate: LogicalGate) returns (r: bool)
      requires Valid() && gate.Fits(|device.qubits|)
      ensures r <==> ExecutableOn(device.adj, device.qubits, gate)
    {
      if |gate.qubits| == 1 {
        return true;
      }
      var a, b := l2p[gate.qubits[0]], l2p[gate.qubits[1]];
      r := device.IsAdjacent(a, b);
      assert Holds(device.qubits, a, gate.qubits[0]) && Holds(device.qubits, b, gate.qubits[1]);
      OnlyOneHolds(device.qubits);
    }

    /** Routes one logical gate. */
    method AssignGate(gate: LogicalGate) returns (ops: seq<Operation>)
      requires Valid() && gate.Fits(|device.qubits|) && gate.kind != SWAP
      modifies this, device
      ensures Valid()
      ensures Routed(device.adj, old(device.qubits), ops, device.qubits, EventOf(gate))
      ensures Steered(old(device.qubits), ops, gate.qubits)
      ensures RouteOf(device.adj, old(device.qubits), ops, gate, tieMin)
      ensures Sharp(Occupied(old(device.qubits)), ops)
    {
      hide Routed, Steered, FoundFrom, Connected, Sharp;
      var p0 := l2p[gate.qubits[0]];
      assert Logicals(device.qubits)[p0] == gate.qubits[0];
      if |gate.qubits| == 1 {
        assert gate.qubits == [gate.qubits[0]];
        var op := ExecuteSingle(gate.kind, p0);
        assert Holds(old(device.qubits), p0, gate.qubits[0]);
        assert Logicals(device.qubits) == Logicals(old(device.qubits));
        return [op];
      }
      var p1 := l2p[gate.qubits[1]];
      assert Logicals(device.qubits)[p1] == gate.qubits[1];
      assert gate.qubits == [gate.qubits[0], gate.qubits[1]];
      ops := DuostraRouting(gate.kind, p0, p1);
      assert Holds(old(device.qubits), p0, gate.qubits[0]) && Holds(old(device.qubits), p1, gate.qubits[1]);
      FillTable();
    }
  }
}
