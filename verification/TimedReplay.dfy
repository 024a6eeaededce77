/**
 Timed operations on physical qubits and their replay: swaps move the logical qubits,
 every other operation is recorded on the logical qubits it acts on.
 */
module TimedReplay {
  import opened Sequences

  /** What a logical qubit sees of a gate: its kind and its logical operands in order. */
  datatype Event = Event(kind: string, operands: seq<nat>)

  /** A swap or a gate on one or two physical qubits, from start to end. */
  datatype Operation =
    | SwapOp(a: nat, b: nat, start: nat, end: nat)
    | GateOp(kind: string, qs: seq<nat>, start: nat, end: nat)
  {
    function Qubits(): seq<nat> { if SwapOp? then [a, b] else qs }

    predicate Fits(n: nat) {
      && start < end
      && (SwapOp? ==> a < n && b < n && a != b)
      && (GateOp? ==>
            && (|qs| == 1 || (|qs| == 2 && qs[0] != qs[1]))
            && forall i :: 0 <= i < |qs| ==> qs[i] < n)
    }
  }

  predicate AllFit(ops: seq<Operation>, n: nat) { forall i :: 0 <= i < |ops| ==> ops[i].Fits(n) }

  /** The logical qubit on every physical one, the time until which it is busy, and the record of every logical qubit. */
  datatype Sim = Sim(map_: seq<nat>, busy: seq<nat>, log: seq<seq<Event>>)

  /** The placement is a permutation of 0..n-1. */
  predicate Placement(m: seq<nat>, n: nat) {
    && |m| == n
    && (forall i :: 0 <= i < n ==> m[i] < n)
    && forall i, j :: 0 <= i < j < n ==> m[i] != m[j]
  }

  predicate SimOk(s: Sim, n: nat) {
    Placement(s.map_, n) && |s.busy| == n && |s.log| == n
  }

  function Record(s: Sim, op: Operation): seq<seq<Event>>
    requires SimOk(s, |s.map_|) && op.GateOp? && op.Fits(|s.map_|)
  {
    if |op.qs| == 1 then
      var l := s.map_[op.qs[0]];
      s.log[l := s.log[l] + [Event(op.kind, [l])]]
    else
      var l0, l1 := s.map_[op.qs[0]], s.map_[op.qs[1]];
      var e := Event(op.kind, [l0, l1]);
      s.log[l0 := s.log[l0] + [e]][l1 := s.log[l1] + [e]]
  }

  function Busy(busy: seq<nat>, op: Operation): (r: seq<nat>)
    requires op.Fits(|busy|)
    ensures |r| == |busy|
    ensures forall i :: 0 <= i < |busy| ==> r[i] == if i in op.Qubits() then op.end else busy[i]
  {
    if op.SwapOp? then busy[op.a := op.end][op.b := op.end]
    else if |op.qs| == 1 then busy[op.qs[0] := op.end]
    else busy[op.qs[0] := op.end][op.qs[1] := op.end]
  }

  function Step(s: Sim, op: Operation): (r: Sim)
    requires SimOk(s, |s.map_|) && op.Fits(|s.map_|)
    ensures SimOk(r, |s.map_|)
  {
    if op.SwapOp? then
      Sim(s.map_[op.a := s.map_[op.b]][op.b := s.map_[op.a]], Busy(s.busy, op), s.log)
    else
      Sim(s.map_, Busy(s.busy, op), Record(s, op))
  }

  function Run(s: Sim, ops: seq<Operation>): (r: Sim)
    requires SimOk(s, |s.map_|) && AllFit(ops, |s.map_|)
    ensures SimOk(r, |s.map_|)
  {
    if |ops| == 0 then s
    else Step(Run(s, ops[..|ops| - 1]), ops[|ops| - 1])
  }

  lemma {:induction false} RunConcat(s: Sim, a: seq<Operation>, b: seq<Operation>)
    requires SimOk(s, |s.map_|) && AllFit(a, |s.map_|) && AllFit(b, |s.map_|)
    ensures AllFit(a + b, |s.map_|)
    ensures Run(s, a + b) == Run(Run(s, a), b)
  {
    if |b| == 0 {
      assert a + b == a;
    } else {
      var k := |b| - 1;
      assert (a + b)[..|a + b| - 1] == a + b[..k];
      RunConcat(s, a, b[..k]);
    }
  }

  lemma RunOne(s: Sim, op: Operation)
    requires SimOk(s, |s.map_|) && op.Fits(|s.map_|)
    ensures Run(s, [op]) == Step(s, op)
  {
    assert [op][..0] == [];
  }

  // ---------- operations on different qubits commute ----------

  predicate Disjoint(x: Operation, y: Operation) { forall q :: q in x.Qubits() ==> q !in y.Qubits() }

  lemma DisjointBusy(busy: seq<nat>, x: Operation, y: Operation)
    requires x.Fits(|busy|) && y.Fits(|busy|) && Disjoint(x, y)
    ensures Busy(Busy(busy, x), y) == Busy(Busy(busy, y), x)
  {
  }

  /** The logical qubits an operation acts on. */
  function Operands(m: seq<nat>, op: Operation): seq<nat>
    requires op.GateOp? && op.Fits(|m|)
  {
    if |op.qs| == 1 then [m[op.qs[0]]] else [m[op.qs[0]], m[op.qs[1]]]
  }

  lemma RecordAt(s: Sim, op: Operation, l: nat)
    requires SimOk(s, |s.map_|) && op.GateOp? && op.Fits(|s.map_|) && l < |s.map_|
    ensures Record(s, op)[l] == s.log[l] + if l in Operands(s.map_, op) then [Event(op.kind, Operands(s.map_, op))] else []
  {
  }

  /** Nothing that has been recorded is lost. */
  lemma StepKeeps(s: Sim, op: Operation, l: nat)
    requires SimOk(s, |s.map_|) && op.Fits(|s.map_|) && l < |s.map_|
    ensures s.log[l] <= Step(s, op).log[l]
  {
    if op.GateOp? { RecordAt(s, op, l); }
  }

  lemma DisjointOperands(m: seq<nat>, x: Operation, y: Operation)
    requires Placement(m, |m|) && x.GateOp? && y.GateOp? && x.Fits(|m|) && y.Fits(|m|) && Disjoint(x, y)
    ensures forall l :: l in Operands(m, x) ==> l !in Operands(m, y)
  {
    forall i, j | 0 <= i < |x.qs| && 0 <= j < |y.qs| ensures m[x.qs[i]] != m[y.qs[j]] {
      assert x.qs[i] in x.Qubits() && y.qs[j] in y.Qubits();
    }
  }

  lemma SwapKeepsOperands(m: seq<nat>, x: Operation, y: Operation)
    requires x.SwapOp? && y.GateOp? && x.Fits(|m|) && y.Fits(|m|) && Disjoint(x, y)
    ensures Operands(m[x.a := m[x.b]][x.b := m[x.a]], y) == Operands(m, y)
  {
    forall j | 0 <= j < |y.qs| ensures y.qs[j] != x.a && y.qs[j] != x.b {
      assert x.a in x.Qubits() && x.b in x.Qubits() && y.qs[j] in y.Qubits();
    }
  }

  lemma SwapThenGate(s: Sim, x: Operation, y: Operation)
    requires SimOk(s, |s.map_|) && x.SwapOp? && y.GateOp? && x.Fits(|s.map_|) && y.Fits(|s.map_|) && Disjoint(x, y)
    ensures Step(Step(s, x), y) == Step(Step(s, y), x)
  {
    DisjointBusy(s.busy, x, y);
    SwapKeepsOperands(s.map_, x, y);
    var l, r := Step(Step(s, x), y).log, Step(Step(s, y), x).log;
    forall i | 0 <= i < |s.map_| ensures l[i] == r[i] {
      RecordAt(Step(s, x), y, i);
      RecordAt(s, y, i);
    }
    assert l == r;
  }

  lemma DisjointSteps(s: Sim, x: Operation, y: Operation)
    requires SimOk(s, |s.map_|) && x.Fits(|s.map_|) && y.Fits(|s.map_|) && Disjoint(x, y)
    ensures Step(Step(s, x), y) == Step(Step(s, y), x)
  {
    if x.SwapOp? && y.SwapOp? {
      DisjointBusy(s.busy, x, y);
      assert x.a in x.Qubits() && x.b in x.Qubits() && y.a in y.Qubits() && y.b in y.Qubits();
      assert Step(Step(s, x), y).map_ == Step(Step(s, y), x).map_;
    } else if x.SwapOp? {
      SwapThenGate(s, x, y);
    } else if y.SwapOp? {
      assert Disjoint(y, x);
      SwapThenGate(s, y, x);
    } else {
      GateThenGate(s, x, y);
    }
  }

  lemma GateThenGate(s: Sim, x: Operation, y: Operation)
    requires SimOk(s, |s.map_|) && x.Fits(|s.map_|) && y.Fits(|s.map_|) && Disjoint(x, y) && x.GateOp? && y.GateOp?
    ensures Step(Step(s, x), y) == Step(Step(s, y), x)
  {
    DisjointBusy(s.busy, x, y);
    DisjointOperands(s.map_, x, y);
    var l, r := Step(Step(s, x), y).log, Step(Step(s, y), x).log;
    forall i | 0 <= i < |s.map_| ensures l[i] == r[i] {
      RecordAt(Step(s, x), y, i);
      RecordAt(Step(s, y), x, i);
      RecordAt(s, x, i);
      RecordAt(s, y, i);
    }
    assert l == r;
  }

  /** An operation can be moved behind operations on other qubits. */
  lemma {:induction false} MoveBehind(s: Sim, op: Operation, ops: seq<Operation>)
    requires SimOk(s, |s.map_|) && op.Fits(|s.map_|) && AllFit(ops, |s.map_|)
    requires forall i :: 0 <= i < |ops| ==> Disjoint(op, ops[i])
    ensures Run(Step(s, op), ops) == Step(Run(s, ops), op)
  {
    if |ops| > 0 {
      var k := |ops| - 1;
      MoveBehind(s, op, ops[..k]);
      DisjointSteps(Run(s, ops[..k]), op, ops[k]);
    }
  }

  // ---------- sorting by start time ----------

  /** Operations that share a qubit follow each other: the earlier one ends before the later one starts. */
  predicate Follows(x: Operation, y: Operation) { Disjoint(x, y) || x.end <= y.start }

  predicate Spaced(ops: seq<Operation>) {
    forall i, j :: 0 <= i < j < |ops| ==> Follows(ops[i], ops[j])
  }

  predicate SortedByStart(ops: seq<Operation>) {
    forall i, j :: 0 <= i < j < |ops| ==> ops[i].start <= ops[j].start
  }

  lemma SpacedWithout(ops: seq<Operation>, i: nat)
    requires i < |ops| && Spaced(ops)
    ensures Spaced(ops[..i] + ops[i + 1..])
  {
    var r := ops[..i] + ops[i + 1..];
    forall x, y | 0 <= x < y < |r| ensures Follows(r[x], r[y]) {
      var x', y' := if x < i then x else x + 1, if y < i then y else y + 1;
      assert Follows(ops[x'], ops[y']);
    }
  }

  lemma SameMembers(a: seq<Operation>, b: seq<Operation>, n: nat)
    requires multiset(a) == multiset(b) && AllFit(a, n)
    ensures AllFit(b, n)
    ensures forall x :: x in a <==> x in b
  {
    forall x ensures x in a <==> x in b {
      assert x in multiset(a) <==> x in multiset(b);
    }
    forall i | 0 <= i < |b| ensures b[i].Fits(n) {
      assert b[i] in a;
    }
  }

  /** Any permutation sorted by start time, ties in any order, replays like the original list. */
  lemma {:induction false} SortedReplay(s: Sim, a: seq<Operation>, b: seq<Operation>)
    requires SimOk(s, |s.map_|) && AllFit(a, |s.map_|)
    requires Spaced(a) && SortedByStart(b) && multiset(a) == multiset(b)
    ensures AllFit(b, |s.map_|)
    ensures Run(s, a) == Run(s, b)
    decreases |b|
  {
    hide Step, SimOk;
    SameMembers(a, b, |s.map_|);
    if |b| == 0 {
      assert |multiset(a)| == |multiset(b)|;
    } else {
      var k := |b| - 1;
      var i := Locate(a, b);
      var left, right := a[..i], a[i + 1..];
      assert a == left + ([a[i]] + right);
      forall j | 0 <= j < |right| ensures Disjoint(a[i], right[j]) {
        LastSorted(b, right[j]) by { assert right[j] == a[i + 1 + j]; assert right[j] in a; }
        assert Follows(a[i], a[i + 1 + j]);
      }
      SpacedWithout(a, i);
      SortedReplay(s, left + right, b[..k]);
      MovedToEnd(s, left, a[i], right);
    }
  }

  lemma MovedToEnd(s: Sim, left: seq<Operation>, op: Operation, right: seq<Operation>)
    requires SimOk(s, |s.map_|) && AllFit(left, |s.map_|) && op.Fits(|s.map_|) && AllFit(right, |s.map_|)
    requires forall j :: 0 <= j < |right| ==> Disjoint(op, right[j])
    ensures AllFit(left + ([op] + right), |s.map_|) && AllFit(left + right, |s.map_|)
    ensures Run(s, left + ([op] + right)) == Step(Run(s, left + right), op)
  {
    hide Step, Disjoint;
    RunConcat(s, left, [op] + right);
    RunConcat(Run(s, left), [op], right);
    RunOne(Run(s, left), op);
    MoveBehind(Run(s, left), op, right);
    RunConcat(s, left, right);
  }

  lemma LastSorted(b: seq<Operation>, x: Operation)
    requires |b| > 0 && SortedByStart(b) && x in b
    ensures x.start <= b[|b| - 1].start
  {
    var j :| 0 <= j < |b| && b[j] == x;
  }

  /** The sorted permutation keeps operations that share a qubit apart. */
  lemma SortedIsSpaced(a: seq<Operation>, b: seq<Operation>, n: nat)
    requires AllFit(a, n) && Spaced(a) && SortedByStart(b) && multiset(a) == multiset(b)
    ensures AllFit(b, n) && Spaced(b)
  {
    SameMembers(a, b, n);
    forall i, j | 0 <= i < j < |b| ensures Follows(b[i], b[j]) {
      var p, q := TwoPlaces(a, b, i, j);
      if p < q {
        assert Follows(a[p], a[q]);
      } else {
        assert Follows(a[q], a[p]);
        assert Disjoint(b[j], b[i]) ==> Disjoint(b[i], b[j]);
      }
    }
  }

  lemma WithoutAt<T>(s: seq<T>, p: nat, q: nat)
    requires p < |s| && q < |s| - 1
    ensures (s[..p] + s[p + 1..])[q] == s[if q < p then q else q + 1]
  {
  }

  lemma PlaceOf<T>(s: seq<T>, x: T) returns (p: nat)
    requires x in multiset(s)
    ensures p < |s| && s[p] == x
  {
    p :| 0 <= p < |s| && s[p] == x;
  }

  lemma TwoPlaces(a: seq<Operation>, b: seq<Operation>, i: nat, j: nat) returns (p: nat, q: nat)
    requires multiset(a) == multiset(b) && i < j < |b|
    ensures p < |a| && q < |a| && p != q && a[p] == b[i] && a[q] == b[j]
  {
    p := PlaceOf(a, b[i]);
    MultisetWithout(a, p);
    MultisetWithout(b, i);
    var a', b' := a[..p] + a[p + 1..], b[..i] + b[i + 1..];
    assert multiset(a') == multiset(a) - multiset{b[i]};
    assert multiset(b') == multiset(b) - multiset{b[i]};
    WithoutAt(b, i, j - 1);
    assert b'[j - 1] in multiset(b');
    var q' := PlaceOf(a', b[j]);
    WithoutAt(a, p, q');
    q := if q' < p then q' else q' + 1;
  }

  /** Sorts by start time; callers know no more than that, so ties may end up in any order. */
  method SortByStart(ops: seq<Operation>) returns (r: seq<Operation>)
    ensures SortedByStart(r) && multiset(r) == multiset(ops)
  {
    r := [];
    assert ops[..0] == [];
    for k := 0 to |ops|
      invariant SortedByStart(r) && multiset(r) == multiset(ops[..k])
    {
      TakeOne(ops, k);
      r := Insert(r, ops[k]);
    }
    assert ops[..|ops|] == ops;
  }

  lemma TakeOne(ops: seq<Operation>, k: nat)
    requires k < |ops|
    ensures multiset(ops[..k + 1]) == multiset(ops[..k]) + multiset{ops[k]}
  {
    assert ops[..k + 1] == ops[..k] + [ops[k]];
  }

  method Insert(r: seq<Operation>, op: Operation) returns (r': seq<Operation>)
    requires SortedByStart(r)
    ensures SortedByStart(r') && multiset(r') == multiset(r) + multiset{op}
  {
    var j := 0;
    while j < |r| && r[j].start <= op.start
      invariant 0 <= j <= |r|
      invariant forall a :: 0 <= a < j ==> r[a].start <= op.start
    {
      j := j + 1;
    }
    InsertSorted(r, op, j);
    InsertMembers(r, op, j);
    r' := r[..j] + [op] + r[j..];
  }

  lemma InsertMembers(r: seq<Operation>, op: Operation, j: nat)
    requires j <= |r|
    ensures multiset(r[..j] + [op] + r[j..]) == multiset(r) + multiset{op}
  {
    assert r == r[..j] + r[j..];
  }

  lemma InsertSorted(r: seq<Operation>, op: Operation, j: nat)
    requires SortedByStart(r) && j <= |r|
    requires forall a :: 0 <= a < j ==> r[a].start <= op.start
    requires j < |r| ==> op.start <= r[j].start
    ensures SortedByStart(r[..j] + [op] + r[j..])
  {
    var s := r[..j] + [op] + r[j..];
    forall a, b | 0 <= a < b < |s| ensures s[a].start <= s[b].start {
      assert s[a] == if a < j then r[a] else if a == j then op else r[a - 1];
      assert s[b] == if b < j then r[b] else if b == j then op else r[b - 1];
      if a >= j && b > j && j < |r| {
        assert r[j].start <= r[b - 1].start;
      }
    }
  }
}
