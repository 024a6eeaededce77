/**
 Swaps with a purpose: none exchanges two logical qubits that wait for the same gate. The
 property depends on the order of the operations only where they share a qubit.
 */
module SwapPurposes {
  import opened Sequences
  import opened TimedReplay

  /** Behind what is recorded, the same of the given gates comes next on both logical qubits. */
  predicate DueTogether(gates: set<nat>, chains: seq<seq<nat>>, log: seq<seq<Event>>, l0: nat, l1: nat) {
    && l0 < |chains| && l1 < |chains| && l0 < |log| && l1 < |log|
    && |log[l0]| < |chains[l0]| && |log[l1]| < |chains[l1]|
    && chains[l0][|log[l0]|] == chains[l1][|log[l1]|] && chains[l0][|log[l0]|] in gates
  }

  predicate PurposefulStep(gates: set<nat>, chains: seq<seq<nat>>, s: Sim, op: Operation)
    requires op.Fits(|s.map_|)
  {
    op.SwapOp? ==> !DueTogether(gates, chains, s.log, s.map_[op.a], s.map_[op.b])
  }

  /** No swap exchanges two logical qubits that wait for the same gate. */
  predicate Purposeful(gates: set<nat>, chains: seq<seq<nat>>, s: Sim, ops: seq<Operation>)
    requires SimOk(s, |s.map_|) && AllFit(ops, |s.map_|)
  {
    if |ops| == 0 then true
    else
      var k := |ops| - 1;
      Purposeful(gates, chains, s, ops[..k]) && PurposefulStep(gates, chains, Run(s, ops[..k]), ops[k])
  }

  lemma PurposefulSnoc(gates: set<nat>, chains: seq<seq<nat>>, s: Sim, ops: seq<Operation>, op: Operation)
    requires SimOk(s, |s.map_|) && AllFit(ops, |s.map_|) && op.Fits(|s.map_|)
    ensures AllFit(ops + [op], |s.map_|)
    ensures Purposeful(gates, chains, s, ops + [op])
            <==> Purposeful(gates, chains, s, ops) && PurposefulStep(gates, chains, Run(s, ops), op)
  {
    assert (ops + [op])[..|ops|] == ops;
  }

  lemma {:induction false} PurposefulConcat(gates: set<nat>, chains: seq<seq<nat>>, s: Sim, a: seq<Operation>, b: seq<Operation>)
    requires SimOk(s, |s.map_|) && AllFit(a, |s.map_|) && AllFit(b, |s.map_|)
    ensures AllFit(a + b, |s.map_|)
    ensures Purposeful(gates, chains, s, a + b)
            <==> Purposeful(gates, chains, s, a) && Purposeful(gates, chains, Run(s, a), b)
  {
    if |b| == 0 {
      assert a + b == a;
    } else {
      var k := |b| - 1;
      assert (a + b)[..|a + b| - 1] == a + b[..k];
      PurposefulConcat(gates, chains, s, a, b[..k]);
      RunConcat(s, a, b[..k]);
    }
  }

  /** Fewer gates to wait for, fewer swaps without purpose. */
  lemma {:induction false} PurposefulFor(gates: set<nat>, fewer: set<nat>, chains: seq<seq<nat>>, s: Sim, ops: seq<Operation>)
    requires SimOk(s, |s.map_|) && AllFit(ops, |s.map_|) && fewer <= gates && Purposeful(gates, chains, s, ops)
    ensures Purposeful(fewer, chains, s, ops)
  {
    if |ops| > 0 { PurposefulFor(gates, fewer, chains, s, ops[..|ops| - 1]); }
  }

  /** An operation on other qubits changes nothing for the two logical qubits of a swap. */
  lemma StepApart(gates: set<nat>, chains: seq<seq<nat>>, s: Sim, x: Operation, y: Operation)
    requires SimOk(s, |s.map_|) && x.Fits(|s.map_|) && y.Fits(|s.map_|) && Disjoint(x, y)
    ensures PurposefulStep(gates, chains, Step(s, x), y) <==> PurposefulStep(gates, chains, s, y)
  {
    if y.SwapOp? {
      assert y.a in y.Qubits() && y.b in y.Qubits();
      if x.SwapOp? {
        assert x.a in x.Qubits() && x.b in x.Qubits();
      } else {
        GateApart(s, x, y.a);
        GateApart(s, x, y.b);
      }
    }
  }

  /** A gate leaves the record of a logical qubit elsewhere alone. */
  lemma GateApart(s: Sim, x: Operation, p: nat)
    requires SimOk(s, |s.map_|) && x.Fits(|s.map_|) && x.GateOp? && p < |s.map_| && p !in x.Qubits()
    ensures Step(s, x).log[s.map_[p]] == s.log[s.map_[p]]
  {
    RecordAt(s, x, s.map_[p]);
    forall i | 0 <= i < |x.qs| ensures s.map_[x.qs[i]] != s.map_[p] {
      assert x.qs[i] in x.Qubits();
    }
  }

  lemma DisjointBack(x: Operation, y: Operation)
    requires Disjoint(x, y)
    ensures Disjoint(y, x)
  {
  }

  /** An operation may stand before or behind operations on other qubits. */
  lemma {:induction false} PurposefulBehind(gates: set<nat>, chains: seq<seq<nat>>, s: Sim, op: Operation, ops: seq<Operation>)
    requires SimOk(s, |s.map_|) && op.Fits(|s.map_|) && AllFit(ops, |s.map_|)
    requires forall i :: 0 <= i < |ops| ==> Disjoint(op, ops[i])
    ensures PurposefulStep(gates, chains, s, op) && Purposeful(gates, chains, Step(s, op), ops)
            <==> Purposeful(gates, chains, s, ops) && PurposefulStep(gates, chains, Run(s, ops), op)
  {
    hide Step, Disjoint, PurposefulStep;
    if |ops| > 0 {
      var k := |ops| - 1;
      var init := ops[..k];
      var r := Run(s, init);
      PurposefulBehind(gates, chains, s, op, init);
      MoveBehind(s, op, init);
      DisjointBack(op, ops[k]);
      StepApart(gates, chains, r, op, ops[k]);
      StepApart(gates, chains, r, ops[k], op);
    }
  }

  /** Taking an operation to the end of a list, past operations on other qubits. */
  lemma PurposefulAtEnd(gates: set<nat>, chains: seq<seq<nat>>, s: Sim, left: seq<Operation>, op: Operation, right: seq<Operation>)
    requires SimOk(s, |s.map_|) && AllFit(left, |s.map_|) && op.Fits(|s.map_|) && AllFit(right, |s.map_|)
    requires forall j :: 0 <= j < |right| ==> Disjoint(op, right[j])
    ensures AllFit(left + ([op] + right), |s.map_|) && AllFit(left + right, |s.map_|)
    ensures Purposeful(gates, chains, s, left + ([op] + right))
            <==> Purposeful(gates, chains, s, left + right) && PurposefulStep(gates, chains, Run(s, left + right), op)
  {
    hide Step, Disjoint, PurposefulStep;
    var t := Run(s, left);
    PurposefulConcat(gates, chains, s, left, [op] + right);
    PurposefulFirst(gates, chains, t, op, right);
    PurposefulBehind(gates, chains, t, op, right);
    PurposefulConcat(gates, chains, s, left, right);
    RunConcat(s, left, right);
  }

  lemma PurposefulFirst(gates: set<nat>, chains: seq<seq<nat>>, s: Sim, op: Operation, ops: seq<Operation>)
    requires SimOk(s, |s.map_|) && op.Fits(|s.map_|) && AllFit(ops, |s.map_|)
    ensures AllFit([op] + ops, |s.map_|)
    ensures Purposeful(gates, chains, s, [op] + ops)
            <==> PurposefulStep(gates, chains, s, op) && Purposeful(gates, chains, Step(s, op), ops)
  {
    PurposefulConcat(gates, chains, s, [op], ops);
    RunOne(s, op);
    assert [op][..0] == [];
    assert Run(s, [op][..0]) == s;
    assert Purposeful(gates, chains, s, [op][..0]);
  }

  /** Taking an operation to the front of a list, past operations on other qubits. */
  lemma PurposefulAtFront(gates: set<nat>, chains: seq<seq<nat>>, s: Sim, left: seq<Operation>, op: Operation, right: seq<Operation>)
    requires SimOk(s, |s.map_|) && AllFit(left, |s.map_|) && op.Fits(|s.map_|) && AllFit(right, |s.map_|)
    requires forall j :: 0 <= j < |left| ==> Disjoint(op, left[j])
    ensures AllFit(left + ([op] + right), |s.map_|) && AllFit(left + right, |s.map_|)
    ensures Purposeful(gates, chains, s, left + ([op] + right))
            <==> PurposefulStep(gates, chains, s, op) && Purposeful(gates, chains, Step(s, op), left + right)
    ensures Run(s, left + ([op] + right)) == Run(Step(s, op), left + right)
  {
    hide Step, Disjoint, PurposefulStep;
    var t := Run(s, left);
    PurposefulConcat(gates, chains, s, left, [op] + right);
    PurposefulFirst(gates, chains, t, op, right);
    PurposefulBehind(gates, chains, s, op, left);
    MoveBehind(s, op, left);
    PurposefulConcat(gates, chains, Step(s, op), left, right);
    RunConcat(s, left, [op] + right);
    RunConcat(t, [op], right);
    RunOne(t, op);
    RunConcat(Step(s, op), left, right);
  }

  /** Sorting operations that are kept apart by start time keeps the purpose of all swaps. */
  lemma {:induction false} SortedPurposeful(gates: set<nat>, chains: seq<seq<nat>>, s: Sim, a: seq<Operation>, b: seq<Operation>)
    requires SimOk(s, |s.map_|) && AllFit(a, |s.map_|) && Purposeful(gates, chains, s, a)
    requires Spaced(a) && SortedByStart(b) && multiset(a) == multiset(b)
    ensures AllFit(b, |s.map_|) && Purposeful(gates, chains, s, b)
    decreases |b|
  {
    hide Step, SimOk, PurposefulStep;
    SameMembers(a, b, |s.map_|);
    if |b| > 0 {
      var k := |b| - 1;
      var i := Locate(a, b);
      var left, right := a[..i], a[i + 1..];
      assert a == left + ([a[i]] + right);
      forall j | 0 <= j < |right| ensures Disjoint(a[i], right[j]) {
        LastSorted(b, right[j]) by { assert right[j] == a[i + 1 + j]; assert right[j] in a; }
        assert Follows(a[i], a[i + 1 + j]);
      }
      SpacedWithout(a, i);
      PurposefulAtEnd(gates, chains, s, left, a[i], right);
      SortedPurposeful(gates, chains, s, left + right, b[..k]);
      SortedReplay(s, left + right, b[..k]);
    }
  }
}
