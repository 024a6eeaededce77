/**
 The order in which a scheduler picks gates, as a history: every pick with the list of
 waiting gates and the device it found, and the operations the router answered with.
 */
module PickingOrder {
  import opened Circuits
  import opened CircuitTopologies
  import opened Devices
  import opened Routers
  import opened TimedReplay

  /** Which available gate is routed next: an executable one if there is one, or a random one. */
  datatype Choice = Naive | Random(rand: nat -> nat)

  datatype Pick = Pick(gate: nat, waiting: seq<nat>, done: set<nat>, qs: seq<PhysicalQubit>, from: nat, ops: seq<Operation>)

  /** A waiting gate whose operands are coupled now. */
  predicate CanRun(adj: seq<seq<nat>>, qs: seq<PhysicalQubit>, c: Circuit, waiting: seq<nat>, i: nat) {
    i < |waiting| && waiting[i] in c.gates && ExecutableOn(adj, qs, c.gates[waiting[i]])
  }

  /** The first waiting gate that can run, or none if no one can. */
  predicate FirstExecutable(adj: seq<seq<nat>>, qs: seq<PhysicalQubit>, c: Circuit, waiting: seq<nat>, r: Option<nat>) {
    if r.Some? then
      exists i :: 0 <= i < |waiting| && waiting[i] == r.value && CanRun(adj, qs, c, waiting, i) && NoneBefore(adj, qs, c, waiting, i)
    else NoneBefore(adj, qs, c, waiting, |waiting|)
  }

  predicate NoneBefore(adj: seq<seq<nat>>, qs: seq<PhysicalQubit>, c: Circuit, waiting: seq<nat>, i: nat) {
    forall j :: 0 <= j < i ==> !CanRun(adj, qs, c, waiting, j)
  }

  /** The rule for the k-th pick. */
  predicate PickedBy(choice: Choice, adj: seq<seq<nat>>, c: Circuit, p: Pick, k: nat) {
    |p.waiting| > 0 &&
    if choice.Random? then p.gate == p.waiting[choice.rand(k) % |p.waiting|]
    else
      || FirstExecutable(adj, p.qs, c, p.waiting, Some(p.gate))
      || (FirstExecutable(adj, p.qs, c, p.waiting, None) && p.gate == p.waiting[0])
  }

  predicate AllPickedBy(choice: Choice, adj: seq<seq<nat>>, c: Circuit, picks: seq<Pick>) {
    forall k :: 0 <= k < |picks| ==> PickedBy(choice, adj, c, picks[k], k)
  }

  /** The pick found the device as the operations before it had left it, and its gate was routed there. */
  ghost predicate PickOk(adj: seq<seq<nat>>, start: seq<PhysicalQubit>, emitted: seq<Operation>, c: Circuit, tieMin: bool, p: Pick) {
    && Placement(Logicals(start), |start|) && AllFit(emitted, |start|)
    && p.gate in c.gates && p.gate in c.succs && p.gate in p.waiting
    && p.from + |p.ops| <= |emitted| && emitted[p.from..p.from + |p.ops|] == p.ops
    && Finds(start, emitted[..p.from], p.qs) && Idle(p.qs)
    && RouteOf(adj, p.qs, p.ops, c.gates[p.gate], tieMin)
  }

  ghost predicate Finds(start: seq<PhysicalQubit>, before: seq<Operation>, qs: seq<PhysicalQubit>)
    requires Placement(Logicals(start), |start|) && AllFit(before, |start|)
  {
    var s := Run(DeviceSim(start, seq(|start|, i => [])), before);
    s.map_ == Logicals(qs) && s.busy == Occupied(qs)
  }

  /** One pick goes on where the one before ended. */
  predicate Next(c: Circuit, p: Pick, waiting: seq<nat>, done: set<nat>, from: nat) {
    && p.gate in c.succs
    && waiting == WaitingAfter(c, p.waiting, p.done, p.gate) && done == p.done + {p.gate} && from == p.from + |p.ops|
  }

  /** Where the picks have led: the list of waiting gates, the executed gates and the number of operations. */
  predicate Leads(c: Circuit, picks: seq<Pick>, waiting: seq<nat>, done: set<nat>, from: nat) {
    if |picks| == 0 then Increasing(waiting) && ListsFrontier(c, waiting, {}) && done == {} && from == 0
    else
      var last := picks[|picks| - 1];
      Next(c, last, waiting, done, from) && Leads(c, picks[..|picks| - 1], last.waiting, last.done, last.from)
  }

  /** The operations emitted so far are those of the picks, one after the other. */
  ghost predicate History(adj: seq<seq<nat>>, start: seq<PhysicalQubit>, emitted: seq<Operation>, c: Circuit, tieMin: bool,
                          picks: seq<Pick>, waiting: seq<nat>, done: set<nat>)
  {
    && Leads(c, picks, waiting, done, |emitted|)
    && forall k :: 0 <= k < |picks| ==> PickOk(adj, start, emitted, c, tieMin, picks[k])
  }

  lemma HistoryStarts(adj: seq<seq<nat>>, start: seq<PhysicalQubit>, c: Circuit, tieMin: bool, waiting: seq<nat>)
    requires Increasing(waiting) && ListsFrontier(c, waiting, {})
    ensures History(adj, start, [], c, tieMin, [], waiting, {})
  {
  }

  lemma PickStays(adj: seq<seq<nat>>, start: seq<PhysicalQubit>, emitted: seq<Operation>, c: Circuit, tieMin: bool, p: Pick, more: seq<Operation>)
    requires PickOk(adj, start, emitted, c, tieMin, p) && AllFit(emitted + more, |start|)
    ensures PickOk(adj, start, emitted + more, c, tieMin, p)
  {
    hide RouteOf, Finds;
    assert (emitted + more)[..p.from] == emitted[..p.from];
    assert (emitted + more)[p.from..p.from + |p.ops|] == emitted[p.from..p.from + |p.ops|];
  }

  lemma HistoryGrows(adj: seq<seq<nat>>, start: seq<PhysicalQubit>, emitted: seq<Operation>, c: Circuit, tieMin: bool,
                     picks: seq<Pick>, p: Pick, waiting: seq<nat>)
    requires History(adj, start, emitted, c, tieMin, picks, p.waiting, p.done) && p.from == |emitted|
    requires PickOk(adj, start, emitted + p.ops, c, tieMin, p) && waiting == WaitingAfter(c, p.waiting, p.done, p.gate)
    ensures History(adj, start, emitted + p.ops, c, tieMin, picks + [p], waiting, p.done + {p.gate})
  {
    hide PickOk;
    assert (picks + [p])[..|picks|] == picks;
    PickFits(adj, start, emitted + p.ops, c, tieMin, p);
    forall k | 0 <= k < |picks + [p]| ensures PickOk(adj, start, emitted + p.ops, c, tieMin, (picks + [p])[k]) {
      if k < |picks| { PickStays(adj, start, emitted, c, tieMin, picks[k], p.ops); }
    }
  }

  lemma PickFits(adj: seq<seq<nat>>, start: seq<PhysicalQubit>, emitted: seq<Operation>, c: Circuit, tieMin: bool, p: Pick)
    requires PickOk(adj, start, emitted, c, tieMin, p)
    ensures AllFit(emitted, |start|) && p.gate in c.succs
  {
  }

  /**
   The operations are, in some order, those of a run of the scheduler from the given start:
   all gates picked by the rule, one after the other, each routed on the device as it then was.
   */
  ghost predicate Scheduled(adj: seq<seq<nat>>, start: seq<PhysicalQubit>, ops: seq<Operation>, c: Circuit, choice: Choice, tieMin: bool) {
    exists emitted, picks :: RunOf(adj, start, ops, c, choice, tieMin, emitted, picks)
  }

  ghost predicate RunOf(adj: seq<seq<nat>>, start: seq<PhysicalQubit>, ops: seq<Operation>, c: Circuit, choice: Choice, tieMin: bool,
                        emitted: seq<Operation>, picks: seq<Pick>)
  {
    && multiset(emitted) == multiset(ops)
    && History(adj, start, emitted, c, tieMin, picks, [], c.gates.Keys) && AllPickedBy(choice, adj, c, picks)
  }

  lemma AllPickedNext(choice: Choice, adj: seq<seq<nat>>, c: Circuit, picks: seq<Pick>, p: Pick)
    requires AllPickedBy(choice, adj, c, picks) && PickedBy(choice, adj, c, p, |picks|)
    ensures AllPickedBy(choice, adj, c, picks + [p])
  {
  }
}
