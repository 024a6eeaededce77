/**
 The checker of a mapping: walks through the physical gates, contracts three CX to a swap,
 and follows the logical circuit along its chains. If it accepts, the physical circuit is
 the expansion of operations that execute the part of the logical circuit it has passed. It
 accepts every circuit that is such an expansion, as long as no swap looks like a gate.
 */
module MappingCheckers {
  import opened CheckerPlans
  import opened CheckerReadings
  import opened Circuits
  import opened CircuitTopologies
  import opened Devices
  import opened Duostra
  import opened QCirs
  import opened Schedulers
  import opened TimedReplay
  import opened TopologicalOrder

  class MappingEquivalenceChecker {
    const physical: Circuit
    const logical: Circuit
    const device: Device
    var dependency: seq<Option<nat>>
    ghost const pchains: seq<seq<nat>>
    ghost const lchains: seq<seq<nat>>
    ghost const placement: seq<nat>
    ghost const prank: map<nat, int>
    ghost const lrank: map<nat, int>
    ghost const arity: string -> nat
    ghost var run: Reading

    ghost predicate Valid()
      reads this, device
    {
      && Chained(physical, pchains) && Chained(logical, lchains) && device.Valid()
      && Ranked(pchains, prank) && Ranked(lchains, lrank)
      && |pchains| <= |device.adj| && |lchains| <= |device.adj|
      && Typed(physical, arity) && Typed(logical, arity) && arity(CX) == 2
      && Checked(physical, pchains, logical, lchains, device.adj, placement, Logicals(device.qubits), dependency, run)
    }

    /** The dependencies are the first gates of the logical circuit. */
    constructor (physical: Circuit, logical: Circuit, device: Device,
                 ghost pchains: seq<seq<nat>>, ghost lchains: seq<seq<nat>>, ghost prank: map<nat, int>, ghost lrank: map<nat, int>,
                 ghost arity: string -> nat)
      requires Chained(physical, pchains) && Chained(logical, lchains) && device.Valid()
      requires Ranked(pchains, prank) && Ranked(lchains, lrank)
      requires |pchains| <= |device.adj| && |lchains| <= |device.adj|
      requires Typed(physical, arity) && Typed(logical, arity) && arity(CX) == 2
      ensures Valid() && run.seen == {} && run.found == [] && placement == Logicals(device.qubits)
      ensures this.physical == physical && this.logical == logical && this.device == device
      ensures this.pchains == pchains && this.lchains == lchains
    {
      this.physical, this.logical, this.device := physical, logical, device;
      this.pchains, this.lchains, this.prank, this.lrank, this.arity := pchains, lchains, prank, lrank, arity;
      this.placement := Logicals(device.qubits);
      dependency := logical.first;
      run := Reading({}, seq(|pchains|, i => 0), seq(|pchains|, i => []), [], seq(|lchains|, i => 0), {});
      new;
      CheckStarts(physical, pchains, logical, lchains, device.adj, placement);
    }

    /** Executes a one-qubit gate if it is the next logical gate. */
    method ExecuteSingle(g: nat) returns (ok: bool)
      requires Valid() && NextOn(physical, pchains, run.ppos, g) && |physical.gates[g].qubits| == 1
      modifies `dependency, `run
      ensures ok <==> old(Executable(physical, logical, device.adj, Logicals(device.qubits), dependency, g))
      ensures ok ==> Valid() && run.seen == old(run.seen) + {g} && run.found == old(run.found) + [OpOf(physical.gates[g])]
    {
      PhysicalShape(physical, pchains, run.ppos, g, |device.adj|);
      SingleDecides(physical, logical, lchains, run.pos, device.adj, Logicals(device.qubits), dependency, arity, g);
      var l := device.qubits[physical.gates[g].qubits[0]].logical;
      var dep := DependencyOf(dependency, l);
      if dep.None? {
        return false;
      }
      var lg := dep.value;
      if logical.gates[lg].kind != physical.gates[g].kind {
        return false;
      }
      if logical.gates[lg].qubits[0] != l {
        return false;
      }
      Pass(g, lg);
      ok := true;
    }

    /** Executes a two-qubit gate if it is the next logical gate on both qubits and the qubits are coupled. */
    method ExecuteDouble(g: nat) returns (ok: bool)
      requires Valid() && NextOn(physical, pchains, run.ppos, g) && |physical.gates[g].qubits| == 2
      modifies `dependency, `run
      ensures ok <==> old(Executable(physical, logical, device.adj, Logicals(device.qubits), dependency, g))
      ensures ok ==> Valid() && run.seen == old(run.seen) + {g} && run.found == old(run.found) + [OpOf(physical.gates[g])]
    {
      PhysicalShape(physical, pchains, run.ppos, g, |device.adj|);
      DoubleDecides(physical, logical, lchains, run.pos, device.adj, Logicals(device.qubits), dependency, arity, g);
      var p0, p1 := physical.gates[g].qubits[0], physical.gates[g].qubits[1];
      var ctrl, targ := device.qubits[p0].logical, device.qubits[p1].logical;
      if DependencyOf(dependency, ctrl) != DependencyOf(dependency, targ) {
        return false;
      }
      var dep := DependencyOf(dependency, targ);
      if dep.None? {
        return false;
      }
      var lg := dep.value;
      if logical.gates[lg].kind != physical.gates[g].kind {
        return false;
      }
      if logical.gates[lg].qubits[0] != ctrl {
        return false;
      }
      if logical.gates[lg].qubits[1] != targ {
        return false;
      }
      if !device.IsAdjacent(p0, p1) {
        return false;
      }
      Pass(g, lg);
      ok := true;
    }

    /** The CX the other way round that comes next on both qubits of a gate, if there is one. */
    method NextBack(g: nat) returns (r: Option<nat>)
      requires Valid() && g in physical.gates && |physical.gates[g].qubits| == 2
      ensures forall h: nat :: BackCX(physical, g, h) <==> r == Some(h)
    {
      hide Checked;
      BackDecided(physical, pchains, arity, g);
      var n0, n1 := GetNext(physical, g, 0), GetNext(physical, g, 1);
      if n0 != n1 || n0.None? || physical.gates[n0.value].kind != CX {
        return None;
      }
      if physical.gates[g].qubits[0] != physical.gates[n1.value].qubits[1] || physical.gates[g].qubits[1] != physical.gates[n0.value].qubits[0] {
        return None;
      }
      r := n0;
    }

    /**
     Whether a gate starts a swap: exactly when three CX in a row begin with it and no logical CX is due on the logical
     qubits it acts on.
     */
    method IsSwap(g: nat) returns (r: bool, ghost g1: nat, ghost g2: nat)
      requires Valid() && NextOn(physical, pchains, run.ppos, g) && |physical.gates[g].qubits| == 2
      ensures r ==> Triple(physical, g, g1, g2) && InARow(physical, g, g1, g2)
      ensures physical.gates[g].Shape(|device.qubits|)
      ensures r <==> ReadsSwap(physical, logical, Logicals(device.qubits), dependency, g)
    {
      hide Checked, Triple, InARow;
      g1, g2 := g, g;
      PhysicalShape(physical, pchains, run.ppos, g, |device.adj|);
      if physical.gates[g].kind != CX {
        return false, g1, g2;
      }
      var next := NextBack(g);
      if next.None? {
        return false, g1, g2;
      }
      var second := next.value;
      assert BackCX(physical, g, second);
      next := NextBack(second);
      if next.None? {
        return false, g1, g2;
      }
      assert BackCX(physical, second, next.value);
      g1, g2 := second, next.value;
      SwapIsTriple(physical, g, g1, g2);
      r := NoCXDue(g, second);
    }

    /** The test on the dependencies, which looks at the second CX. */
    method NoCXDue(g: nat, second: nat) returns (r: bool)
      requires Valid() && BackCX(physical, g, second) && physical.gates[g].Shape(|device.qubits|)
      ensures
        var a, b := physical.gates[g].qubits[0], physical.gates[g].qubits[1];
        r <==> !CXIsDue(logical, dependency, device.qubits[a].logical, device.qubits[b].logical)
    {
      var ctrl := device.qubits[physical.gates[second].qubits[0]].logical;
      var targ := device.qubits[physical.gates[second].qubits[1]].logical;
      var dep0, dep1 := DependencyOf(dependency, ctrl), DependencyOf(dependency, targ);
      DependencyInCircuit(logical, lchains, run.pos, dependency, ctrl);
      r := dep0 != dep1 || dep0.None? || logical.gates[dep0.value].kind != CX;
    }

    /** Exchanges the logical qubits of a swap and marks its three gates. */
    method ExecuteSwap(g: nat, swaps: set<nat>, ghost g1: nat, ghost g2: nat) returns (ok: bool, swaps': set<nat>)
      requires Valid() && NextOn(physical, pchains, run.ppos, g) && |physical.gates[g].qubits| == 2
      requires Triple(physical, g, g1, g2) && InARow(physical, g, g1, g2)
      requires physical.gates[g].Shape(|device.qubits|) && ReadsSwap(physical, logical, Logicals(device.qubits), dependency, g)
      modifies `run, device
      ensures ok <==> physical.gates[g].qubits[0] < |device.adj| && physical.gates[g].qubits[1] in device.adj[physical.gates[g].qubits[0]]
      ensures ok ==> Valid() && run.seen == old(run.seen) + {g, g1, g2} && swaps' == swaps + {g, g1, g2}
      ensures ok ==> run.found == old(run.found) + [SwapOf(physical.gates[g])]
    {
      hide Checked, Chained, Typed, Ranked, NextOn;
      swaps' := swaps;
      PhysicalShape(physical, pchains, run.ppos, g, |device.adj|);
      var a, b := physical.gates[g].qubits[0], physical.gates[g].qubits[1];
      if !device.IsAdjacent(a, b) {
        return false, swaps';
      }
      NextIsSuccessor(physical, pchains, g, 0);
      NextIsSuccessor(physical, pchains, g1, 0);
      var second := GetNext(physical, g, 0).value;
      var third := GetNext(physical, second, 0).value;
      swaps' := swaps + {g, second, third};
      ghost var labels := Logicals(device.qubits);
      run := SwapPassed(physical, pchains, logical, lchains, device.adj, placement, labels, dependency, run, g, g1, g2);
      var temp := device.qubits[a].logical;
      device.qubits := device.qubits[a := device.qubits[a].(logical := device.qubits[b].logical)];
      device.qubits := device.qubits[b := device.qubits[b].(logical := temp)];
      assert Logicals(device.qubits) == labels[a := labels[b]][b := labels[a]];
      ok := true;
    }

    /** Moves the dependencies of a logical gate on to its successors. */
    method Pass(g: nat, lg: nat)
      requires Valid() && NextOn(physical, pchains, run.ppos, g)
      requires Due(physical, logical, device.adj, Logicals(device.qubits), dependency, g, lg)
      modifies `dependency, `run
      ensures Valid() && run.seen == old(run.seen) + {g} && run.found == old(run.found) + [OpOf(physical.gates[g])]
    {
      DependentIsNext(logical, lchains, run.pos, dependency, lg);
      DependenciesMove(logical, lchains, run.pos, dependency, lg);
      ghost var before := dependency;
      var qubits := logical.gates[lg].qubits;
      dependency := dependency[qubits[0] := GetNext(logical, lg, 0)];
      if |qubits| == 2 {
        dependency := dependency[qubits[1] := GetNext(logical, lg, 1)];
      }
      assert dependency == MovedOn(logical, lg, before);
      run := GatePassed(physical, pchains, logical, lchains, device.adj, placement, Logicals(device.qubits), before, run, g, lg, dependency);
    }

    /** The logical qubits that have gates remaining. */
    method CheckRemaining() returns (remaining: seq<nat>)
      ensures forall q: nat :: q in remaining <==> q < |dependency| && dependency[q].Some?
    {
      remaining := [];
      for q := 0 to |dependency|
        invariant forall r: nat :: r in remaining <==> r < q && dependency[r].Some?
      {
        if dependency[q].Some? {
          remaining := remaining + [q];
        }
      }
    }

    /** Checks the gate that is next on its qubits, or the swap that starts with it. */
    method CheckGate(g: nat, swaps: set<nat>) returns (ok: bool, swaps': set<nat>, ghost extra: set<nat>)
      requires Valid() && NextOn(physical, pchains, run.ppos, g) && |physical.gates[g].qubits| > 0
      modifies this, device
      ensures ok <==> old(Acceptable(physical, logical, device.adj, Logicals(device.qubits), dependency, g))
      ensures ok ==> Valid() && run.seen == old(run.seen) + extra + {g} && swaps' == swaps + extra
      ensures ok ==> run.found == old(run.found) + [old(ReadAs(physical, logical, Logicals(device.qubits), dependency, g))]
    {
      hide Chained, Typed, Checked, Triple, InARow, Executable;
      swaps', extra := swaps, {};
      PhysicalShape(physical, pchains, run.ppos, g, |device.adj|);
      if |physical.gates[g].qubits| == 2 {
        var swap; ghost var g1, g2;
        swap, g1, g2 := IsSwap(g);
        if swap {
          extra := {g, g1, g2};
          ok, swaps' := ExecuteSwap(g, swaps, g1, g2);
        } else {
          ok := ExecuteDouble(g);
        }
      } else if |physical.gates[g].qubits| > 1 {
        ok := false;
        NotExecutable(physical, logical, device.adj, Logicals(device.qubits), dependency, g);
      } else {
        ok := ExecuteSingle(g);
      }
    }

    /** A plan and positions of the logical circuit that the physical circuit realizes. */
    ghost predicate Plans(plan: seq<Operation>, pos: seq<nat>) {
      Realizes(physical, pchains, logical, lchains, device.adj, placement, plan, pos)
    }

    /** The rest of the plan that is left behind the operations found, if there is a plan. */
    ghost predicate Left(planned: bool, rest: seq<Operation>, pos: seq<nat>)
      reads this
    {
      planned ==> Remains(physical, pchains, logical, lchains, device.adj, placement, run.found, rest, pos)
    }

    lemma PlanStarts(plan: seq<Operation>, pos: seq<nat>)
      requires run.found == []
      ensures Left(Plans(plan, pos), AllUntimed(plan), pos)
    {
      if Plans(plan, pos) { RemainsAll(physical, pchains, logical, lchains, device.adj, placement, plan, pos); }
    }

    lemma PlanStep(planned: bool, rest: seq<Operation>, pos: seq<nat>, g: nat) returns (rest': seq<Operation>)
      requires Valid() && Left(planned, rest, pos) && NextOn(physical, pchains, run.ppos, g) && |physical.gates[g].qubits| > 0
      ensures physical.gates[g].Shape(|Logicals(device.qubits)|)
      ensures planned ==>
        && Acceptable(physical, logical, device.adj, Logicals(device.qubits), dependency, g)
        && Remains(physical, pchains, logical, lchains, device.adj, placement,
                   run.found + [ReadAs(physical, logical, Logicals(device.qubits), dependency, g)], rest', pos)
    {
      PhysicalShape(physical, pchains, run.ppos, g, |device.adj|);
      rest' := rest;
      if planned {
        rest' := PlanGoesOn(physical, pchains, prank, logical, lchains, lrank, device.adj, placement, Logicals(device.qubits), dependency, run, rest, pos, g);
      }
    }

    lemma PlanEnds(planned: bool, rest: seq<Operation>, pos: seq<nat>)
      requires Valid() && Left(planned, rest, pos) && Spells(physical.gates, pchains, run.found)
      ensures Plans(run.found, run.pos) && (planned ==> run.pos == pos)
    {
      FoundRealizes(physical, pchains, logical, lchains, device.adj, placement, Logicals(device.qubits), dependency, run);
      if planned {
        RemainsNothing(physical, pchains, logical, lchains, device.adj, placement, Logicals(device.qubits), run.found, rest, pos, run.pos);
      }
    }

    /** Walks through the physical gates in topological order; if there is a plan, to the end. */
    method Check(order: seq<nat>, ghost plan: seq<Operation>, ghost pos: seq<nat>) returns (ok: bool)
      requires Valid() && run.seen == {} && run.found == [] && Topological(physical, pchains, order)
      modifies this, device
      ensures ok ==> Valid() && Spells(physical.gates, pchains, run.found) && Plans(run.found, run.pos)
      ensures Plans(plan, pos) ==> ok && run.pos == pos
    {
      hide Spells, Walked, Typed, Chained, NextOn, Ranked, Realizes, Remains, Acceptable, ReadAs;
      var swaps: set<nat> := {};
      WalkedNone(order);
      ghost var planned, rest := Plans(plan, pos), AllUntimed(plan);
      PlanStarts(plan, pos);
      for i := 0 to |order|
        invariant Valid() && Walked(order, i, run.seen, swaps) && Left(planned, rest, pos)
      {
        var g := order[i];
        if g in swaps {
          WalkedPast(order, i, run.seen, swaps);
          continue;
        }
        NextUnread(physical, pchains, order, i, run.seen, run.ppos, run.texts, swaps);
        ghost var seen, before := run.seen, swaps;
        rest := PlanStep(planned, rest, pos, g);
        var good: bool;
        ghost var extra;
        good, swaps, extra := CheckGate(g, swaps);
        if !good {
          return false;
        }
        WalkedOne(order, i, seen, before, extra);
      }
      AllRead(physical, pchains, order, run.seen, run.ppos, run.texts, run.found, swaps);
      PlanEnds(planned, rest, pos);
      ok := true;
    }
  }

  /**
   The physical circuit is the expansion of operations on coupled qubits that lead from the placement m0 to the
   final labels and execute exactly the passed gates of the logical circuit, on every qubit in order.
   */
  ghost predicate Implements(pc: Circuit, pchains: seq<seq<nat>>, lc: Circuit, lchains: seq<seq<nat>>, adj: seq<seq<nat>>,
                             m0: seq<nat>, labels: seq<nat>, run: Reading) {
    && Spells(pc.gates, pchains, run.found)
    && InCircuit(lc, lchains) && Cut(lc, lchains, run.pos, run.passed) && (forall l :: 0 <= l < |lchains| ==> run.pos[l] <= |lchains[l]|)
    && Found(adj, m0, run.found, labels, LogAt(lc, lchains, run.pos, |adj|))
  }

  lemma AtTheEnds(chains: seq<seq<nat>>, pos: seq<nat>, dependency: seq<Option<nat>>)
    requires Tracks(chains, pos, dependency)
    ensures pos == Ends(chains) <==> forall l :: 0 <= l < |dependency| ==> dependency[l] == None
  {
  }

  /** A plan for the whole circuit if there is one, else any plan, if there is one. */
  lemma BestPlan(pc: Circuit, pchains: seq<seq<nat>>, lc: Circuit, lchains: seq<seq<nat>>, adj: seq<seq<nat>>, m0: seq<nat>)
    returns (plan: seq<Operation>, pos: seq<nat>)
    ensures (exists p, k :: Realizes(pc, pchains, lc, lchains, adj, m0, p, k)) ==> Realizes(pc, pchains, lc, lchains, adj, m0, plan, pos)
    ensures (exists p :: Realizes(pc, pchains, lc, lchains, adj, m0, p, Ends(lchains)))
            ==> Realizes(pc, pchains, lc, lchains, adj, m0, plan, pos) && pos == Ends(lchains)
  {
    plan, pos := [], [];
    if p :| Realizes(pc, pchains, lc, lchains, adj, m0, p, Ends(lchains)) {
      plan, pos := p, Ends(lchains);
    } else if p, k :| Realizes(pc, pchains, lc, lchains, adj, m0, p, k) {
      plan, pos := p, k;
    }
  }

  /**
   Checks a physical against a logical circuit on a placed device; remaining are the logical qubits with gates left.
   It accepts exactly the circuits that realize some plan, and leaves nothing exactly if the plan executes everything.
   */
  method CheckMapping(physical: QCir, logical: QCir, device: Device, ghost arity: string -> nat)
    returns (ok: bool, remaining: seq<nat>, ghost run: Reading)
    requires physical.Valid() && logical.Valid() && device.Valid()
    requires |physical.chains| <= |device.adj| && |logical.chains| <= |device.adj|
    requires Typed(physical.View(), arity) && Typed(logical.View(), arity) && arity(CX) == 2
    modifies physical`gateList, physical`dirty, device
    ensures physical.Valid()
    ensures ok ==> Implements(physical.View(), physical.chains, logical.View(), logical.chains,
                              device.adj, Logicals(old(device.qubits)), Logicals(device.qubits), run)
    ensures ok ==> DownClosed(logical.View(), run.passed)
    ensures ok ==> (remaining == [] <==> run.pos == Ends(logical.chains))
    ensures ok && remaining == [] ==>
      LogAt(logical.View(), logical.chains, run.pos, |device.adj|) == FullLog(logical.View(), logical.chains, |device.adj|)
    ensures ok <==> exists plan, pos :: Realizes(physical.View(), physical.chains, logical.View(), logical.chains,
                                                 device.adj, Logicals(old(device.qubits)), plan, pos)
    ensures ok && remaining == [] <==> exists plan :: Realizes(physical.View(), physical.chains, logical.View(), logical.chains,
                                                               device.adj, Logicals(old(device.qubits)), plan, Ends(logical.chains))
  {
    hide Realizes, Chained, Ranked, Checked, DownClosed, Cut, Typed;
    ghost var lc, lchains, lrank := logical.View(), logical.chains, logical.rank;
    ghost var pc, pchains, prank := physical.View(), physical.chains, physical.rank;
    ghost var plan, pos := BestPlan(pc, pchains, lc, lchains, device.adj, Logicals(device.qubits));
    var order := physical.GetGates();
    var checker := new MappingEquivalenceChecker(physical.View(), logical.View(), device, pchains, lchains, prank, lrank, arity);
    ok := checker.Check(order, plan, pos);
    run := checker.run;
    remaining := [];
    if ok {
      remaining := checker.CheckRemaining();
      CheckedFacts(pc, pchains, lc, lchains, device.adj, checker.placement, Logicals(device.qubits), checker.dependency, run);
      CutIsClosed(lc, lchains, lrank, run.pos, run.passed);
      AtTheEnds(lchains, run.pos, checker.dependency);
      assert remaining == [] <==> run.pos == Ends(lchains) by {
        assert |remaining| > 0 ==> remaining[0] in remaining;
      }
      assert Realizes(pc, pchains, lc, lchains, device.adj, checker.placement, run.found, run.pos);
      if remaining == [] { NothingRemains(lc, lchains, run.pos, checker.dependency, |device.adj|); }
    }
  }
}
