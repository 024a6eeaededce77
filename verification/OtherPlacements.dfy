/**
 The placement the checker starts from: it accepts everything that is right from another
 placement exactly if the two placements are the same.
 */
module OtherPlacements {
  import opened CheckerPlans
  import opened CheckerReadings
  import opened Circuits
  import opened Duostra
  import opened QCirs
  import opened Routers
  import opened Schedulers
  import opened SwapPurposes
  import opened TimedReplay

  // ---------- a circuit of one gate ----------

  function EndsOf(n: nat, q: nat): seq<Option<nat>> { seq(n, i => if i == q then Some(0) else None) }

  /** An x on qubit q of n qubits. */
  function OneGate(n: nat, q: nat): Circuit {
    Circuit(map[0 := LogicalGate("x", [q])], map[0 := [None]], map[0 := [None]], EndsOf(n, q), EndsOf(n, q))
  }

  function OneChain(n: nat, q: nat): seq<seq<nat>> { seq(n, i => if i == q then [0] else []) }

  lemma OneGateChained(n: nat, q: nat)
    requires q < n
    ensures Chained(OneGate(n, q), OneChain(n, q))
  {
    var c, chains := OneGate(n, q), OneChain(n, q);
    assert GateShaped(c, 0);
    assert LinkAt(c, chains[q], q, 0);
    forall p | 0 <= p < n ensures ChainOk(c, chains[p], p) { }
  }

  lemma OneWord(n: nat, q: nat, p: nat)
    requires q < n && p < n
    ensures WordOn(OneGate(n, q).gates, OneChain(n, q), p) == if p == q then [LogicalGate("x", [q])] else []
  {
    var word := WordOn(OneGate(n, q).gates, OneChain(n, q), p);
    if p == q { assert word == [LogicalGate("x", [q])]; }
  }

  // ---------- from the right placement ----------

  /** From m the logical gate on m[q] is the physical gate on q. */
  lemma RightPlacement(adj: seq<seq<nat>>, m: seq<nat>, q: nat)
    requires Placement(m, |adj|) && q < |adj|
    ensures Realizes(OneGate(|adj|, q), OneChain(|adj|, q), OneGate(|adj|, m[q]), OneChain(|adj|, m[q]), adj, m,
                     [GateOp("x", [q], 0, 1)], Ends(OneChain(|adj|, m[q])))
  {
    var n, op := |adj|, GateOp("x", [q], 0, 1);
    hide Spells, LogAt, Run, Sensible;
    RightExpansion(n, q);
    RightRecord(m, q);
    RightSensible(m, q, OneGate(n, m[q]), OneChain(n, m[q]));
    assert InCircuit(OneGate(n, m[q]), OneChain(n, m[q]));
    assert Coupled(adj, op);
  }

  /** There is no swap in it. */
  lemma RightSensible(m: seq<nat>, q: nat, lc: Circuit, lchains: seq<seq<nat>>)
    requires Placement(m, |m|) && q < |m|
    ensures Sensible(lc, lchains, m, |m|, [GateOp("x", [q], 0, 1)])
  {
    hide Run, Step;
    var op := GateOp("x", [q], 0, 1);
    var none: seq<Operation> := [];
    assert op.Fits(|m|);
    PurposefulSnoc(CXGates(lc), lchains, Unstarted(m), none, op);
    assert none + [op] == [op];
  }

  lemma RightExpansion(n: nat, q: nat)
    requires q < n
    ensures Spells(OneGate(n, q).gates, OneChain(n, q), [GateOp("x", [q], 0, 1)])
  {
    hide WordOn, ExpandOn;
    forall p: nat | p < n ensures WordOn(OneGate(n, q).gates, OneChain(n, q), p) == ExpandOn([GateOp("x", [q], 0, 1)], p) {
      OneWord(n, q, p);
      ExpandOne(GateOp("x", [q], 0, 1), p);
    }
  }

  lemma RightRecord(m: seq<nat>, q: nat)
    requires Placement(m, |m|) && q < |m|
    ensures AllFit([GateOp("x", [q], 0, 1)], |m|)
    ensures Run(Unstarted(m), [GateOp("x", [q], 0, 1)]).log
            == LogAt(OneGate(|m|, m[q]), OneChain(|m|, m[q]), Ends(OneChain(|m|, m[q])), |m|)
  {
    var s, op := Unstarted(m), GateOp("x", [q], 0, 1);
    RunOne(s, op);
    var r, log := Run(s, [op]).log, LogAt(OneGate(|m|, m[q]), OneChain(|m|, m[q]), Ends(OneChain(|m|, m[q])), |m|);
    assert Operands(m, op) == [m[q]];
    forall l | 0 <= l < |m| ensures r[l] == log[l] {
      RecordAt(s, op, l);
    }
  }

  // ---------- from any other placement ----------

  lemma NotThere(plan: seq<Operation>, q: nat)
    requires |plan| > 0 && ExpandOn(plan, q) == []
    ensures q !in plan[0].Qubits()
  {
    hide ExpandOn;
    assert plan == [plan[0]] + plan[1..];
    ExpandConcat([plan[0]], plan[1..], q);
    ExpandOne(plan[0], q);
  }

  lemma OnlyThere(op: Operation, n: nat, q: nat)
    requires op.Fits(n) && forall p :: p in op.Qubits() ==> p == q
    ensures op.GateOp? && op.qs == [q]
  {
    var qubits := op.Qubits();
    assert qubits[0] in qubits && qubits[|qubits| - 1] in qubits;
  }

  /** Operations that expand to a gate on qubit q alone start with one there. */
  lemma FirstIsGate(plan: seq<Operation>, n: nat, q: nat)
    requires AllFit(plan, n) && ExpandOn(plan, q) != [] && forall p: nat :: p < n && p != q ==> ExpandOn(plan, p) == []
    ensures |plan| > 0 && plan[0].GateOp? && plan[0].qs == [q]
  {
    assert |plan| > 0;
    hide ExpandOn;
    forall p | p in plan[0].Qubits() ensures p == q {
      assert p < n;
      if p != q { NotThere(plan, p); }
    }
    OnlyThere(plan[0], n, q);
  }

  /** It is recorded on the logical qubit there. */
  lemma GateIsRecorded(s: Sim, plan: seq<Operation>, q: nat)
    requires SimOk(s, |s.map_|) && AllFit(plan, |s.map_|) && q < |s.map_|
    requires ExpandOn(plan, q) != [] && forall p: nat :: p < |s.map_| && p != q ==> ExpandOn(plan, p) == []
    ensures Run(s, plan).log[s.map_[q]] != []
  {
    hide ExpandOn;
    FirstIsGate(plan, |s.map_|, q);
    var op := plan[0];
    RecordAt(s, op, s.map_[q]);
    assert s.map_[q] in Operands(s.map_, op);
    assert Step(s, op).log[s.map_[q]] != [];
    hide Step;
    assert plan == [op] + plan[1..];
    RunConcat(s, [op], plan[1..]);
    RunOne(s, op);
    RunKeeps(Step(s, op), plan[1..], s.map_[q]);
  }

  /** From a placement that has another logical qubit on q no plan explains the physical gate there. */
  lemma WrongPlacement(adj: seq<seq<nat>>, w: seq<nat>, q: nat, l: nat, plan: seq<Operation>, pos: seq<nat>)
    requires Placement(w, |adj|) && q < |adj| && l < |adj| && w[q] != l
    ensures !Realizes(OneGate(|adj|, q), OneChain(|adj|, q), OneGate(|adj|, l), OneChain(|adj|, l), adj, w, plan, pos)
  {
    var n := |adj|;
    if Realizes(OneGate(n, q), OneChain(n, q), OneGate(n, l), OneChain(n, l), adj, w, plan, pos) {
      PlanFacts(adj, w, q, l, plan, pos);
      hide Realizes, ExpandOn;
      GateIsRecorded(Unstarted(w), plan, q);
    }
  }

  lemma PlanFacts(adj: seq<seq<nat>>, w: seq<nat>, q: nat, l: nat, plan: seq<Operation>, pos: seq<nat>)
    requires Placement(w, |adj|) && q < |adj| && l < |adj| && w[q] != l
    requires Realizes(OneGate(|adj|, q), OneChain(|adj|, q), OneGate(|adj|, l), OneChain(|adj|, l), adj, w, plan, pos)
    ensures AllFit(plan, |adj|) && ExpandOn(plan, q) != [] && forall p: nat :: p < |adj| && p != q ==> ExpandOn(plan, p) == []
    ensures Run(Unstarted(w), plan).log[w[q]] == []
  {
    var n := |adj|;
    var log := LogAt(OneGate(n, l), OneChain(n, l), pos, n);
    assert log[w[q]] == [];
    assert Spells(OneGate(n, q).gates, OneChain(n, q), plan);
    hide WordOn, ExpandOn, LogAt, Run;
    forall p: nat | p < n ensures ExpandOn(plan, p) == if p == q then [LogicalGate("x", [q])] else [] {
      OneWord(n, q, p);
      assert WordOn(OneGate(n, q).gates, OneChain(n, q), p) == ExpandOn(plan, p);
    }
  }

  // ---------- exactly when ----------

  /** The checker accepts from w whatever is a plan for a whole circuit from m. */
  ghost predicate AcceptsAll(adj: seq<seq<nat>>, m: seq<nat>, w: seq<nat>) {
    forall pc, pchains, lc, lchains ::
      Chained(pc, pchains) && Chained(lc, lchains) && Planned(pc, pchains, lc, lchains, adj, m) ==> Accepted(pc, pchains, lc, lchains, adj, w)
  }

  /** The physical circuit implements the whole logical one from the placement. */
  ghost predicate Planned(pc: Circuit, pchains: seq<seq<nat>>, lc: Circuit, lchains: seq<seq<nat>>, adj: seq<seq<nat>>, m: seq<nat>) {
    exists plan :: Realizes(pc, pchains, lc, lchains, adj, m, plan, Ends(lchains))
  }

  /** The condition under which the checker accepts from the placement. */
  ghost predicate Accepted(pc: Circuit, pchains: seq<seq<nat>>, lc: Circuit, lchains: seq<seq<nat>>, adj: seq<seq<nat>>, w: seq<nat>) {
    exists plan, pos :: Realizes(pc, pchains, lc, lchains, adj, w, plan, pos)
  }

  /**
   Wherever the placements put different logical qubits on q, a single gate is enough: what is right from m is
   rejected from w.
   */
  lemma OtherPlacementRejected(adj: seq<seq<nat>>, m: seq<nat>, w: seq<nat>, q: nat)
    requires Placement(m, |adj|) && Placement(w, |adj|) && q < |adj| && m[q] != w[q]
    ensures Chained(OneGate(|adj|, q), OneChain(|adj|, q)) && Chained(OneGate(|adj|, m[q]), OneChain(|adj|, m[q]))
    ensures Planned(OneGate(|adj|, q), OneChain(|adj|, q), OneGate(|adj|, m[q]), OneChain(|adj|, m[q]), adj, m)
    ensures !Accepted(OneGate(|adj|, q), OneChain(|adj|, q), OneGate(|adj|, m[q]), OneChain(|adj|, m[q]), adj, w)
  {
    hide Realizes, Chained;
    OneGateChained(|adj|, q);
    OneGateChained(|adj|, m[q]);
    RightPlacement(adj, m, q);
    forall plan, pos ensures !Realizes(OneGate(|adj|, q), OneChain(|adj|, q), OneGate(|adj|, m[q]), OneChain(|adj|, m[q]), adj, w, plan, pos) {
      WrongPlacement(adj, w, q, m[q], plan, pos);
    }
  }

  /** The checker accepts everything that is right from m if and only if it starts from m. */
  lemma AcceptsAllIffSame(adj: seq<seq<nat>>, m: seq<nat>, w: seq<nat>)
    requires Placement(m, |adj|) && Placement(w, |adj|)
    ensures AcceptsAll(adj, m, w) <==> m == w
  {
    hide Realizes, Chained;
    if m != w {
      var q :| 0 <= q < |adj| && m[q] != w[q];
      OtherPlacementRejected(adj, m, w, q);
    }
  }
}
