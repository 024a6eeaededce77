/**
 What a mapped circuit does to the data: if all gates are Clifford gates, the physical
 circuit acts on the products as placed as the logical circuit acts on the logical ones.
 The three CX of a routed swap exchange the data, as the replay exchanges the labels.
 */
module MappingMeaning {
  import opened PauliAlgebra
  import opened CliffordOps
  import opened Circuits
  import opened TimedReplay
  import Devices
  import Duostra
  import MappingFlow
  import QCirs
  import Routers
  import Schedulers
  import TopologicalOrder

  // ---------- operators by name ----------

  /** The operator a gate stands for, if it is a Clifford gate. */
  function OpFor(gate: LogicalGate): Option<Op> {
    var k, qs := gate.kind, gate.qubits;
    if |qs| == 1 then
      if k == "h" then Some(H(qs[0]))
      else if k == "s" then Some(S(qs[0]))
      else if k == "sdg" then Some(Sdg(qs[0]))
      else if k == "x" then Some(X(qs[0]))
      else if k == "y" then Some(Y(qs[0]))
      else if k == "z" then Some(Z(qs[0]))
      else if k == "sx" then Some(V(qs[0]))
      else if k == "sxdg" then Some(Vdg(qs[0]))
      else None
    else if |qs| == 2 then
      if k == "cx" then Some(CX(qs[0], qs[1]))
      else if k == "cz" then Some(CZ(qs[0], qs[1]))
      else if k == "ecr" then Some(Ecr(qs[0], qs[1]))
      else None
    else None
  }

  predicate AllKnown(gates: seq<LogicalGate>) { forall i :: 0 <= i < |gates| ==> OpFor(gates[i]).Some? }

  /** The operators of gates, one for each. */
  function OpsFor(gates: seq<LogicalGate>): (r: seq<Op>)
    requires AllKnown(gates)
    ensures |r| == |gates| && forall i :: 0 <= i < |gates| ==> r[i] == OpFor(gates[i]).value
  {
    seq(|gates|, i requires 0 <= i < |gates| => OpFor(gates[i]).value)
  }

  function QubitsOf(op: Op): set<nat> {
    if op.CX? || op.CZ? || op.Swap? || op.Ecr? then {op.c, op.t} else {op.q}
  }

  // ---------- operators act locally ----------

  predicate AgreeOn(p: Pauli, r: Pauli, s: set<nat>) {
    |p.ls| == |r.ls| && forall i :: 0 <= i < |p.ls| && i in s ==> p.ls[i] == r.ls[i]
  }

  /** From p to p' and from r to r' the same happens on the qubits of s, and nothing elsewhere. */
  predicate SameChange(p: Pauli, p': Pauli, r: Pauli, r': Pauli, s: set<nat>) {
    && |p'.ls| == |p.ls| && |r'.ls| == |r.ls| && AgreeOn(p', r', s)
    && (forall i :: 0 <= i < |p.ls| && i !in s ==> p'.ls[i] == p.ls[i])
    && (forall i :: 0 <= i < |r.ls| && i !in s ==> r'.ls[i] == r.ls[i])
    && (p'.neg != p.neg) == (r'.neg != r.neg)
  }

  lemma BasicLocal(op: Op, p: Pauli, r: Pauli, s: set<nat>)
    requires op.Basic() && op.Fits(|p.ls|) && QubitsOf(op) <= s && AgreeOn(p, r, s)
    ensures SameChange(p, Conj(op, p), r, Conj(op, r), s)
  {
    assert forall q :: q in QubitsOf(op) ==> q in s;
    if op.CX? {
      assert op.c in QubitsOf(op) && op.t in QubitsOf(op);
      CXForm(p, op.c, op.t);
      CXForm(r, op.c, op.t);
    } else {
      assert op.q in QubitsOf(op);
    }
  }

  lemma {:induction false} AllLocal(ops: seq<Op>, p: Pauli, r: Pauli, s: set<nat>)
    requires forall i :: 0 <= i < |ops| ==> ops[i].Basic() && ops[i].Fits(|p.ls|) && QubitsOf(ops[i]) <= s
    requires AgreeOn(p, r, s)
    ensures SameChange(p, ConjAll(ops, p), r, ConjAll(ops, r), s)
  {
    hide Conj;
    if |ops| > 0 {
      var k := |ops| - 1;
      AllLocal(ops[..k], p, r, s);
      BasicLocal(ops[k], ConjAll(ops[..k], p), ConjAll(ops[..k], r), s);
    }
  }

  lemma ExpandWithin(op: Op)
    ensures forall i :: 0 <= i < |Expand(op)| ==> QubitsOf(Expand(op)[i]) <= QubitsOf(op)
    decreases op.Rank()
  {
    match op
    case Vdg(q) => ExpandWithin(Sdg(q));
    case X(q) => ExpandWithin(Z(q));
    case Y(q) =>
      ExpandWithin(X(q));
      ExpandWithin(Z(q));
    case Ecr(c, t) =>
      ExpandWithin(X(c));
      ExpandWithin(V(t));
    case _ =>
  }

  lemma Local(op: Op, p: Pauli, r: Pauli)
    requires op.Fits(|p.ls|) && AgreeOn(p, r, QubitsOf(op))
    ensures SameChange(p, Conj(op, p), r, Conj(op, r), QubitsOf(op))
  {
    hide Expand, Conj, QubitsOf;
    ExpandWithin(op);
    ExpandConj(op, p);
    ExpandConj(op, r);
    AllLocal(Expand(op), p, r, QubitsOf(op));
  }

  /** Operators on different qubits commute. */
  lemma DisjointConj(x: Op, y: Op, p: Pauli)
    requires x.Fits(|p.ls|) && y.Fits(|p.ls|) && QubitsOf(x) !! QubitsOf(y)
    ensures Conj(y, Conj(x, p)) == Conj(x, Conj(y, p))
  {
    hide Conj, QubitsOf;
    var a, c := Conj(x, p), Conj(y, p);
    Local(x, p, p);
    Local(y, p, p);
    Local(y, p, a);
    Local(x, p, c);
    var b, d := Conj(y, a), Conj(x, c);
    assert b.ls == d.ls;
  }

  // ---------- gates in another order ----------

  /** The gates on a qubit, in order. */
  function OnQ(gates: seq<LogicalGate>, q: nat): seq<LogicalGate> {
    if |gates| == 0 then [] else OnQ(gates[..|gates| - 1], q) + if q in gates[|gates| - 1].qubits then [gates[|gates| - 1]] else []
  }

  lemma {:induction false} OnQConcat(a: seq<LogicalGate>, b: seq<LogicalGate>, q: nat)
    ensures OnQ(a + b, q) == OnQ(a, q) + OnQ(b, q)
  {
    if |b| == 0 {
      assert a + b == a;
    } else {
      assert (a + b)[..|a + b| - 1] == a + b[..|b| - 1];
      OnQConcat(a, b[..|b| - 1], q);
    }
  }

  lemma OnQOne(g: LogicalGate, q: nat)
    ensures OnQ([g], q) == if q in g.qubits then [g] else []
  {
    assert [g][..0] == [];
  }

  lemma {:induction false} NothingOnQ(gates: seq<LogicalGate>, q: nat)
    requires forall i :: 0 <= i < |gates| ==> q !in gates[i].qubits
    ensures OnQ(gates, q) == []
  {
    if |gates| > 0 { NothingOnQ(gates[..|gates| - 1], q); }
  }

  /** The first gate on a qubit. */
  lemma {:induction false} FirstOnQ(gates: seq<LogicalGate>, q: nat) returns (j: nat)
    requires OnQ(gates, q) != []
    ensures j < |gates| && q in gates[j].qubits && gates[j] == OnQ(gates, q)[0]
    ensures forall i :: 0 <= i < j ==> q !in gates[i].qubits
  {
    assert gates == [gates[0]] + gates[1..];
    OnQConcat([gates[0]], gates[1..], q);
    OnQOne(gates[0], q);
    if q in gates[0].qubits {
      j := 0;
    } else {
      j := FirstOnQ(gates[1..], q);
      j := j + 1;
    }
  }

  /** Clifford gates on n qubits. */
  predicate AllGates(gates: seq<LogicalGate>, n: nat) {
    AllKnown(gates) && forall i :: 0 <= i < |gates| ==> gates[i].Fits(n)
  }

  lemma OpForQubits(g: LogicalGate, n: nat)
    requires OpFor(g).Some? && g.Fits(n)
    ensures OpFor(g).value.Fits(n) && forall q :: q in QubitsOf(OpFor(g).value) <==> q in g.qubits
  {
  }

  lemma OpsForConcat(a: seq<LogicalGate>, b: seq<LogicalGate>)
    requires AllKnown(a) && AllKnown(b)
    ensures AllKnown(a + b) && OpsFor(a + b) == OpsFor(a) + OpsFor(b)
  {
  }

  /** A gate can act before gates on other qubits. */
  lemma {:induction false} ActsBefore(left: seq<LogicalGate>, g: LogicalGate, p: Pauli)
    requires AllGates(left, |p.ls|) && OpFor(g).Some? && g.Fits(|p.ls|)
    requires forall i, q :: 0 <= i < |left| && q in g.qubits ==> q !in left[i].qubits
    ensures Conj(OpFor(g).value, ConjAll(OpsFor(left), p)) == ConjAll(OpsFor(left), Conj(OpFor(g).value, p))
  {
    hide Conj, OpFor;
    if |left| > 0 {
      var k := |left| - 1;
      ActsBefore(left[..k], g, p);
      assert OpsFor(left)[..k] == OpsFor(left[..k]);
      OpForQubits(g, |p.ls|);
      OpForQubits(left[k], |p.ls|);
      DisjointConj(OpFor(left[k]).value, OpFor(g).value, ConjAll(OpsFor(left[..k]), p));
    }
  }

  /** Taking a gate to the front, past gates on other qubits. */
  lemma ToFront(left: seq<LogicalGate>, g: LogicalGate, right: seq<LogicalGate>, p: Pauli)
    requires AllGates(left, |p.ls|) && AllGates(right, |p.ls|) && OpFor(g).Some? && g.Fits(|p.ls|)
    requires forall i, q :: 0 <= i < |left| && q in g.qubits ==> q !in left[i].qubits
    ensures AllKnown(left + ([g] + right)) && AllKnown(left + right)
    ensures ConjAll(OpsFor(left + ([g] + right)), p) == ConjAll(OpsFor(left + right), Conj(OpFor(g).value, p))
  {
    hide Conj, OpFor, ConjAll;
    var x := OpFor(g).value;
    OpsForConcat([g], right);
    OpsForConcat(left, [g] + right);
    OpsForConcat(left, right);
    assert OpsFor([g]) == [x];
    ConjAllConcat(OpsFor(left), [x] + OpsFor(right), p);
    ConjAllConcat([x], OpsFor(right), ConjAll(OpsFor(left), p));
    ConjAllOne(x, ConjAll(OpsFor(left), p));
    ActsBefore(left, g, p);
    ConjAllConcat(OpsFor(left), OpsFor(right), Conj(x, p));
  }

  predicate SameOnQubits(a: seq<LogicalGate>, b: seq<LogicalGate>, n: nat) { forall q: nat :: q < n ==> OnQ(a, q) == OnQ(b, q) }

  /** Lists with the same gates in the same order on every qubit conjugate alike. */
  lemma {:induction false} SameTraceSameConj(a: seq<LogicalGate>, b: seq<LogicalGate>, p: Pauli)
    requires AllGates(a, |p.ls|) && AllGates(b, |p.ls|) && SameOnQubits(a, b, |p.ls|)
    ensures ConjAll(OpsFor(a), p) == ConjAll(OpsFor(b), p)
    decreases |a|
  {
    var n := |p.ls|;
    if |a| == 0 {
      NoGates(a, b, n);
    } else {
      var x, rest := a[0], a[1..];
      var j := SameFirst(a, b, n);
      var left, right := b[..j], b[j + 1..];
      PartsKnown(a, b, j, n);
      TakeFirst(a, b, j, p);
      SameTraceSameConj(rest, left + right, Conj(OpFor(x).value, p));
    }
  }

  /** Both lists start with the same gate, as far as it matters. */
  lemma TakeFirst(a: seq<LogicalGate>, b: seq<LogicalGate>, j: nat, p: Pauli)
    requires |a| > 0 && j < |b| && a[0] == b[j] && OpFor(a[0]).Some? && a[0].Fits(|p.ls|)
    requires AllGates(a[1..], |p.ls|) && AllGates(b[..j], |p.ls|) && AllGates(b[j + 1..], |p.ls|) && SameOnQubits(a, b, |p.ls|)
    requires forall i, q :: 0 <= i < j && q in a[0].qubits ==> q !in b[i].qubits
    ensures AllKnown(a) && AllKnown(b) && AllKnown(b[..j] + b[j + 1..])
    ensures ConjAll(OpsFor(a), p) == ConjAll(OpsFor(a[1..]), Conj(OpFor(a[0]).value, p))
    ensures ConjAll(OpsFor(b), p) == ConjAll(OpsFor(b[..j] + b[j + 1..]), Conj(OpFor(a[0]).value, p))
    ensures SameOnQubits(a[1..], b[..j] + b[j + 1..], |p.ls|)
  {
    var x, rest, left, right := a[0], a[1..], b[..j], b[j + 1..];
    var none: seq<LogicalGate> := [];
    assert a == none + ([x] + rest) && a == [x] + rest && b == left + ([x] + right) && none + rest == rest;
    assert AllGates(none, |p.ls|);
    hide *;
    ToFront(none, x, rest, p);
    ToFront(left, x, right, p);
    RestsAgree(x, rest, left, right, |p.ls|);
  }

  lemma PartsKnown(a: seq<LogicalGate>, b: seq<LogicalGate>, j: nat, n: nat)
    requires |a| > 0 && AllGates(a, n) && j < |b| && AllGates(b, n)
    ensures OpFor(a[0]).Some? && a[0].Fits(n) && AllGates(a[1..], n) && AllGates([], n)
    ensures AllGates(b[..j], n) && AllGates(b[j + 1..], n) && AllGates(b[..j] + b[j + 1..], n)
  {
  }

  lemma SomeGate(b: seq<LogicalGate>, n: nat) returns (q: nat)
    requires |b| > 0 && AllGates(b, n)
    ensures q < n && OnQ(b, q) != []
  {
    q := b[|b| - 1].qubits[0];
  }

  lemma NoGates(a: seq<LogicalGate>, b: seq<LogicalGate>, n: nat)
    requires |a| == 0 && AllGates(b, n) && SameOnQubits(a, b, n)
    ensures |b| == 0
  {
    if |b| > 0 {
      var q := SomeGate(b, n);
    }
  }

  /** The first gate of a is the first one of b on each of its qubits. */
  lemma SameFirst(a: seq<LogicalGate>, b: seq<LogicalGate>, n: nat) returns (j: nat)
    requires |a| > 0 && AllGates(a, n) && AllGates(b, n) && SameOnQubits(a, b, n)
    ensures j < |b| && b[j] == a[0] && forall i, q :: 0 <= i < j && q in a[0].qubits ==> q !in b[i].qubits
  {
    hide OnQ, AllKnown;
    var x := a[0];
    var q0, q1 := x.qubits[0], x.qubits[|x.qubits| - 1];
    j := SameFirstOn(a, b, n, q0);
    var k := SameFirstOn(a, b, n, q1);
    assert j == k;
    forall i, q | 0 <= i < j && q in x.qubits ensures q !in b[i].qubits {
      assert q == q0 || q == q1;
    }
  }

  lemma SameFirstOn(a: seq<LogicalGate>, b: seq<LogicalGate>, n: nat, q: nat) returns (j: nat)
    requires |a| > 0 && SameOnQubits(a, b, n) && q in a[0].qubits && q < n
    ensures j < |b| && b[j] == a[0] && forall i :: 0 <= i < j ==> q !in b[i].qubits
  {
    assert a == [a[0]] + a[1..];
    OnQConcat([a[0]], a[1..], q);
    OnQOne(a[0], q);
    assert OnQ(a, q) == OnQ(b, q);
    j := FirstOnQ(b, q);
  }

  lemma RestsAgree(x: LogicalGate, rest: seq<LogicalGate>, left: seq<LogicalGate>, right: seq<LogicalGate>, n: nat)
    requires SameOnQubits([x] + rest, left + ([x] + right), n)
    requires forall i, q :: 0 <= i < |left| && q in x.qubits ==> q !in left[i].qubits
    ensures SameOnQubits(rest, left + right, n)
  {
    hide OnQ;
    forall q: nat | q < n ensures OnQ(rest, q) == OnQ(left + right, q) {
      assert OnQ([x] + rest, q) == OnQ(left + ([x] + right), q);
      if q in x.qubits { NothingOnQ(left, q); }
      RestAgrees(x, rest, left, right, q);
    }
  }

  lemma RestAgrees(x: LogicalGate, rest: seq<LogicalGate>, left: seq<LogicalGate>, right: seq<LogicalGate>, q: nat)
    requires OnQ([x] + rest, q) == OnQ(left + ([x] + right), q) && (q in x.qubits ==> OnQ(left, q) == [])
    ensures OnQ(rest, q) == OnQ(left + right, q)
  {
    hide *;
    OnQConcat([x], rest, q);
    OnQConcat(left, [x] + right, q);
    OnQConcat([x], right, q);
    OnQConcat(left, right, q);
    OnQOne(x, q);
    Cancel(OnQ([x], q), OnQ(rest, q), OnQ(left, q), OnQ(right, q));
  }

  lemma Cancel<T>(here: seq<T>, rest: seq<T>, left: seq<T>, right: seq<T>)
    requires here + rest == left + (here + right) && (here == [] || left == [])
    ensures rest == left + right
  {
    assert (here + rest)[|here|..] == rest;
    if left == [] {
      assert (left + (here + right))[|here|..] == right;
    } else {
      assert left + (here + right) == left + right;
    }
  }

  // ---------- products as placed ----------

  /** A logical product on the physical qubits: every qubit carries the letter of the logical qubit placed there. */
  function Seen(m: seq<nat>, p: Pauli): (r: Pauli)
    requires Placement(m, |p.ls|)
    ensures |r.ls| == |p.ls| && r.neg == p.neg && forall q :: 0 <= q < |m| ==> r.ls[q] == p.ls[m[q]]
  {
    Pauli(seq(|m|, q requires 0 <= q < |m| => p.ls[m[q]]), p.neg)
  }

  /** The operator on the logical qubits placed where it acts. */
  function Moved(op: Op, m: seq<nat>): Op
    requires op.Fits(|m|)
  {
    match op
    case H(q) => H(m[q]) case S(q) => S(m[q]) case Sdg(q) => Sdg(m[q]) case V(q) => V(m[q])
    case Vdg(q) => Vdg(m[q]) case X(q) => X(m[q]) case Y(q) => Y(m[q]) case Z(q) => Z(m[q])
    case CX(c, t) => CX(m[c], m[t]) case CZ(c, t) => CZ(m[c], m[t])
    case Swap(c, t) => Swap(m[c], m[t]) case Ecr(c, t) => Ecr(m[c], m[t])
  }

  lemma MovedFits(op: Op, m: seq<nat>)
    requires Placement(m, |m|) && op.Fits(|m|)
    ensures Moved(op, m).Fits(|m|) && (op.Basic() ==> Moved(op, m).Basic())
  {
  }

  function AllMoved(ops: seq<Op>, m: seq<nat>): (r: seq<Op>)
    requires CliffordOps.AllFit(ops, |m|)
    ensures |r| == |ops| && forall i :: 0 <= i < |ops| ==> r[i] == Moved(ops[i], m)
  {
    seq(|ops|, i requires 0 <= i < |ops| => Moved(ops[i], m))
  }

  lemma BasicSeen(op: Op, m: seq<nat>, p: Pauli)
    requires Placement(m, |p.ls|) && op.Basic() && op.Fits(|p.ls|)
    ensures Conj(op, Seen(m, p)) == Seen(m, Conj(Moved(op, m), p))
  {
    var l, r := Conj(op, Seen(m, p)), Seen(m, Conj(Moved(op, m), p));
    if op.CX? {
      CXForm(Seen(m, p), op.c, op.t);
      CXForm(p, m[op.c], m[op.t]);
    }
    assert l.ls == r.ls;
  }

  lemma {:induction false} AllSeen(ops: seq<Op>, m: seq<nat>, p: Pauli)
    requires Placement(m, |p.ls|) && CliffordOps.AllFit(ops, |p.ls|) && forall i :: 0 <= i < |ops| ==> ops[i].Basic()
    ensures ConjAll(ops, Seen(m, p)) == Seen(m, ConjAll(AllMoved(ops, m), p))
  {
    hide Conj, Moved, Seen;
    if |ops| > 0 {
      var k := |ops| - 1;
      AllSeen(ops[..k], m, p);
      assert AllMoved(ops, m)[..k] == AllMoved(ops[..k], m);
      BasicSeen(ops[k], m, ConjAll(AllMoved(ops[..k], m), p));
    }
  }

  lemma MovedConcat(a: seq<Op>, b: seq<Op>, m: seq<nat>)
    requires CliffordOps.AllFit(a, |m|) && CliffordOps.AllFit(b, |m|)
    ensures CliffordOps.AllFit(a + b, |m|) && AllMoved(a + b, m) == AllMoved(a, m) + AllMoved(b, m)
  {
  }

  lemma MovedBetween(op: Op, ops: seq<Op>, m: seq<nat>)
    requires op.Fits(|m|) && CliffordOps.AllFit(ops, |m|)
    ensures CliffordOps.AllFit([op] + ops + [op], |m|)
    ensures AllMoved([op] + ops + [op], m) == [Moved(op, m)] + AllMoved(ops, m) + [Moved(op, m)]
  {
  }

  lemma ExpandMoved(op: Op, m: seq<nat>)
    requires op.Fits(|m|)
    ensures CliffordOps.AllFit(Expand(op), |m|) && Expand(Moved(op, m)) == AllMoved(Expand(op), m)
    decreases op.Rank(), 1
  {
    match op
    case Vdg(q) =>
      ExpandMoved(Sdg(q), m);
      MovedBetween(H(q), Expand(Sdg(q)), m);
    case X(q) =>
      ExpandMoved(Z(q), m);
      MovedBetween(H(q), Expand(Z(q)), m);
    case Y(q) =>
      ExpandMoved(X(q), m);
      ExpandMoved(Z(q), m);
      MovedConcat(Expand(X(q)), Expand(Z(q)), m);
    case Ecr(c, t) => EcrMoved(c, t, m);
    case _ => SimpleMoved(op, m);
  }

  lemma SimpleMoved(op: Op, m: seq<nat>)
    requires op.Fits(|m|) && !op.Vdg? && !op.X? && !op.Y? && !op.Ecr?
    ensures CliffordOps.AllFit(Expand(op), |m|) && Expand(Moved(op, m)) == AllMoved(Expand(op), m)
  {
  }

  lemma EcrMoved(c: nat, t: nat, m: seq<nat>)
    requires c != t && c < |m| && t < |m|
    ensures CliffordOps.AllFit(Expand(Ecr(c, t)), |m|) && Expand(Moved(Ecr(c, t), m)) == AllMoved(Expand(Ecr(c, t)), m)
    decreases Ecr(c, t).Rank(), 0
  {
    ExpandMoved(X(c), m);
    ExpandMoved(V(t), m);
    var first := [CX(c, t), S(c)];
    assert AllMoved(first, m) == [CX(m[c], m[t]), S(m[c])];
    MovedConcat(first, Expand(X(c)), m);
    MovedConcat(first + Expand(X(c)), Expand(V(t)), m);
  }

  /** An operator acts on the products as placed as the moved one acts on the logical products. */
  lemma OpSeen(op: Op, m: seq<nat>, p: Pauli)
    requires Placement(m, |p.ls|) && op.Fits(|p.ls|)
    ensures Conj(op, Seen(m, p)) == Seen(m, Conj(Moved(op, m), p))
  {
    hide Conj, Expand, Moved, Seen;
    MovedFits(op, m);
    ExpandMoved(op, m);
    ExpandConj(op, Seen(m, p));
    ExpandConj(Moved(op, m), p);
    AllSeen(Expand(op), m, p);
  }

  // ---------- the gates of a swap ----------

  /** The three gates a swap becomes exchange the letters of its qubits, as the replay exchanges the labels. */
  lemma SwapMovesData(op: Operation, m: seq<nat>, p: Pauli)
    requires Placement(m, |p.ls|) && op.SwapOp? && op.Fits(|p.ls|)
    ensures AllKnown(Duostra.Expand(op))
    ensures ConjAll(OpsFor(Duostra.Expand(op)), Seen(m, p)) == Seen(m[op.a := m[op.b]][op.b := m[op.a]], p)
    ensures ConjAll(OpsFor(Duostra.Expand(op)), Seen(m, p)) == Conj(Swap(op.a, op.b), Seen(m, p))
  {
    var a, b, r := op.a, op.b, Seen(m, p);
    assert OpsFor(Duostra.Expand(op)) == [CX(a, b), CX(b, a), CX(a, b)];
    ThreeCX(r, a, b);
    SwapForm(r, a, b);
    assert Conj(Swap(a, b), r).ls == Seen(m[a := m[b]][b := m[a]], p).ls;
  }

  lemma ThreeCX(r: Pauli, a: nat, b: nat)
    requires a < |r.ls| && b < |r.ls| && a != b
    ensures ConjAll([CX(a, b), CX(b, a), CX(a, b)], r) == Conj(Swap(a, b), r)
  {
    hide ConjCX;
    var gates := [CX(a, b), CX(b, a), CX(a, b)];
    assert gates[..2] == [CX(a, b), CX(b, a)] && gates[..2][..1] == [CX(a, b)];
    ConjAllOne(CX(a, b), r);
  }

  // ---------- the replay ----------

  /** The gates built for the operations, in order. */
  function Built(ops: seq<Operation>): seq<LogicalGate> {
    if |ops| == 0 then [] else Built(ops[..|ops| - 1]) + Duostra.Expand(ops[|ops| - 1])
  }

  /** The logical gates the operations execute, in order. */
  function Executed(s: Sim, ops: seq<Operation>): seq<LogicalGate>
    requires SimOk(s, |s.map_|) && TimedReplay.AllFit(ops, |s.map_|)
  {
    if |ops| == 0 then []
    else
      var k := |ops| - 1;
      Executed(s, ops[..k])
      + if ops[k].GateOp? then [LogicalGate(ops[k].kind, Operands(Run(s, ops[..k]).map_, ops[k]))] else []
  }

  predicate KnownOps(ops: seq<Operation>) { forall i :: 0 <= i < |ops| && ops[i].GateOp? ==> OpFor(LogicalGate(ops[i].kind, ops[i].qs)).Some? }

  /** The physical gate does to the data as placed what the logical gate does to the logical data. */
  lemma GateMovesData(op: Operation, m: seq<nat>, p: Pauli)
    requires Placement(m, |p.ls|) && op.GateOp? && op.Fits(|p.ls|) && OpFor(LogicalGate(op.kind, op.qs)).Some?
    ensures
      var g, l := LogicalGate(op.kind, op.qs), LogicalGate(op.kind, Operands(m, op));
      OpFor(l).Some? && Conj(OpFor(g).value, Seen(m, p)) == Seen(m, Conj(OpFor(l).value, p))
  {
    hide Conj, Seen;
    var g, l := LogicalGate(op.kind, op.qs), LogicalGate(op.kind, Operands(m, op));
    OpForQubits(g, |p.ls|);
    OpSeen(OpFor(g).value, m, p);
    assert OpFor(l) == Some(Moved(OpFor(g).value, m));
  }

  /** What one more operation adds. */
  lemma OneMoreOperation(s: Sim, ops: seq<Operation>)
    requires SimOk(s, |s.map_|) && TimedReplay.AllFit(ops, |s.map_|) && |ops| > 0
    ensures
      var init, op := ops[..|ops| - 1], ops[|ops| - 1];
      var t := Run(s, init);
      && TimedReplay.AllFit(init, |s.map_|) && op.Fits(|s.map_|) && SimOk(t, |s.map_|)
      && Built(ops) == Built(init) + Duostra.Expand(op) && Run(s, ops) == Step(t, op)
      && (op.SwapOp? ==> Executed(s, ops) == Executed(s, init) && Step(t, op).map_ == t.map_[op.a := t.map_[op.b]][op.b := t.map_[op.a]])
      && (op.GateOp? ==> Executed(s, ops) == Executed(s, init) + [LogicalGate(op.kind, Operands(t.map_, op))] && Step(t, op).map_ == t.map_)
  {
    hide Record, Busy, Operands, Duostra.Expand;
  }

  /** What has been shown for the operations so far. */
  ghost predicate Replayed(s: Sim, ops: seq<Operation>, p: Pauli)
    requires SimOk(s, |p.ls|) && TimedReplay.AllFit(ops, |p.ls|)
  {
    && AllKnown(Built(ops)) && AllKnown(Executed(s, ops))
    && ConjAll(OpsFor(Built(ops)), Seen(s.map_, p)) == Seen(Run(s, ops).map_, ConjAll(OpsFor(Executed(s, ops)), p))
  }

  lemma SwapReplayed(s: Sim, ops: seq<Operation>, p: Pauli)
    requires SimOk(s, |p.ls|) && TimedReplay.AllFit(ops, |p.ls|) && |ops| > 0 && ops[|ops| - 1].SwapOp?
    requires TimedReplay.AllFit(ops[..|ops| - 1], |p.ls|) && Replayed(s, ops[..|ops| - 1], p)
    ensures Replayed(s, ops, p)
  {
    hide Conj, Seen, OpFor, OpsFor, ConjAll, AllKnown, Duostra.Expand, Run, Step, Built, Executed, SimOk;
    var init, op := ops[..|ops| - 1], ops[|ops| - 1];
    PlacedLater(s, |p.ls|);
    OneMoreOperation(s, ops);
    var m, r := Run(s, init).map_, ConjAll(OpsFor(Executed(s, init)), p);
    PlacedLater(Run(s, init), |p.ls|);
    SwapMovesData(op, m, r);
    OpsForConcat(Built(init), Duostra.Expand(op));
    ConjAllConcat(OpsFor(Built(init)), OpsFor(Duostra.Expand(op)), Seen(s.map_, p));
  }

  lemma PlacedLater(s: Sim, n: nat)
    requires SimOk(s, n)
    ensures Placement(s.map_, n) && |s.map_| == n
  {
  }

  lemma OneGateOps(g: LogicalGate, p: Pauli)
    requires OpFor(g).Some?
    ensures AllKnown([g]) && ConjAll(OpsFor([g]), p) == Conj(OpFor(g).value, p)
  {
    assert OpsFor([g]) == [OpFor(g).value];
    ConjAllOne(OpFor(g).value, p);
  }

  lemma ExpandOfGate(op: Operation)
    requires op.GateOp?
    ensures Duostra.Expand(op) == [LogicalGate(op.kind, op.qs)]
  {
  }

  lemma GateReplayed(s: Sim, ops: seq<Operation>, p: Pauli)
    requires SimOk(s, |p.ls|) && TimedReplay.AllFit(ops, |p.ls|) && KnownOps(ops) && |ops| > 0 && ops[|ops| - 1].GateOp?
    requires TimedReplay.AllFit(ops[..|ops| - 1], |p.ls|) && Replayed(s, ops[..|ops| - 1], p)
    ensures Replayed(s, ops, p)
  {
    hide Conj, Seen, OpFor, OpsFor, ConjAll, AllKnown, Duostra.Expand, Run, Step, Built, Executed, SimOk, Operands;
    var init, op := ops[..|ops| - 1], ops[|ops| - 1];
    PlacedLater(s, |p.ls|);
    OneMoreOperation(s, ops);
    var m, r := Run(s, init).map_, ConjAll(OpsFor(Executed(s, init)), p);
    PlacedLater(Run(s, init), |p.ls|);
    GateMovesData(op, m, r);
    var g, l := LogicalGate(op.kind, op.qs), LogicalGate(op.kind, Operands(m, op));
    ExpandOfGate(op);
    OneGateOps(g, Seen(m, r));
    OneGateOps(l, r);
    OpsForConcat(Built(init), [g]);
    OpsForConcat(Executed(s, init), [l]);
    ConjAllConcat(OpsFor(Built(init)), OpsFor([g]), Seen(s.map_, p));
    ConjAllConcat(OpsFor(Executed(s, init)), OpsFor([l]), p);
  }

  /** The built gates do to the data as placed what the executed logical gates do to the logical data. */
  lemma {:induction false} ReplayMeans(s: Sim, ops: seq<Operation>, p: Pauli)
    requires SimOk(s, |p.ls|) && TimedReplay.AllFit(ops, |p.ls|) && KnownOps(ops)
    ensures Replayed(s, ops, p)
  {
    if |ops| > 0 {
      hide Replayed, OpFor, Operands, SimOk;
      ReplayMeans(s, ops[..|ops| - 1], p);
      if ops[|ops| - 1].SwapOp? {
        SwapReplayed(s, ops, p);
      } else {
        GateReplayed(s, ops, p);
      }
    }
  }

  // ---------- whole circuits ----------

  /** The gates of a list, one by one. */
  function GatesOf(c: Circuit, list: seq<nat>): (r: seq<LogicalGate>)
    requires forall g :: g in list ==> g in c.gates
    ensures |r| == |list| && forall i :: 0 <= i < |list| ==> list[i] in c.gates && r[i] == c.gates[list[i]]
  {
    seq(|list|, i requires 0 <= i < |list| => assert list[i] in list; c.gates[list[i]])
  }

  /** On every qubit a topological list has the gates of its chain. */
  lemma {:induction false} OnQOfList(c: Circuit, list: seq<nat>, q: nat)
    requires forall g :: g in list ==> g in c.gates
    ensures forall g :: g in TopologicalOrder.OnQubit(c, list, q) ==> g in c.gates
    ensures OnQ(GatesOf(c, list), q) == GatesOf(c, TopologicalOrder.OnQubit(c, list, q))
  {
    if |list| > 0 {
      var k := |list| - 1;
      OnQOfList(c, list[..k], q);
      assert GatesOf(c, list)[..k] == GatesOf(c, list[..k]);
      assert list[k] in list;
    }
  }

  lemma {:induction false} OnQOfBuilt(ops: seq<Operation>, q: nat)
    ensures OnQ(Built(ops), q) == Duostra.ExpandOn(ops, q)
  {
    if |ops| > 0 {
      var k := |ops| - 1;
      OnQOfBuilt(ops[..k], q);
      OnQConcat(Built(ops[..k]), Duostra.Expand(ops[k]), q);
      OnQOfOperation(ops[k], q);
    }
  }

  /** All gates of an operation act on all its qubits. */
  lemma OnQOfOperation(op: Operation, q: nat)
    ensures OnQ(Duostra.Expand(op), q) == if q in op.Qubits() then Duostra.Expand(op) else []
  {
    var gates := Duostra.Expand(op);
    if op.SwapOp? {
      assert gates[..2] == [gates[0], gates[1]] && gates[..2][..1] == [gates[0]];
      OnQOne(gates[0], q);
    } else {
      OnQOne(gates[0], q);
    }
  }

  function EventsOf(gates: seq<LogicalGate>): (r: seq<Event>)
    ensures |r| == |gates| && forall i :: 0 <= i < |gates| ==> r[i] == Routers.EventOf(gates[i])
  {
    seq(|gates|, i requires 0 <= i < |gates| => Routers.EventOf(gates[i]))
  }

  /** The record of a logical qubit are the executed gates on it, in order. */
  lemma {:induction false} RecordIsExecuted(s: Sim, ops: seq<Operation>, l: nat)
    requires SimOk(s, |s.map_|) && TimedReplay.AllFit(ops, |s.map_|) && l < |s.map_|
    ensures Run(s, ops).log[l] == s.log[l] + EventsOf(OnQ(Executed(s, ops), l))
  {
    hide Step, Operands;
    if |ops| > 0 {
      RecordIsExecuted(s, ops[..|ops| - 1], l);
      RecordNext(s, ops, l);
    }
  }

  lemma RecordNext(s: Sim, ops: seq<Operation>, l: nat)
    requires SimOk(s, |s.map_|) && TimedReplay.AllFit(ops, |s.map_|) && l < |s.map_| && |ops| > 0
    requires Run(s, ops[..|ops| - 1]).log[l] == s.log[l] + EventsOf(OnQ(Executed(s, ops[..|ops| - 1]), l))
    ensures Run(s, ops).log[l] == s.log[l] + EventsOf(OnQ(Executed(s, ops), l))
  {
    hide Step, Run, Executed, Operands, OnQ, EventsOf, Built, Duostra.Expand, Placement;
    var init, op := ops[..|ops| - 1], ops[|ops| - 1];
    var t := Run(s, init);
    OneMoreOperation(s, ops);
    if op.SwapOp? {
      SwapRecordsNothing(t, op);
    } else {
      var g := LogicalGate(op.kind, Operands(t.map_, op));
      GateRecorded(t, op, l);
      var more := if l in g.qubits then [g] else [];
      OnQConcat(Executed(s, init), [g], l);
      OnQOne(g, l);
      EventsNext(OnQ(Executed(s, init), l), more);
      assert s.log[l] + EventsOf(OnQ(Executed(s, init), l)) + EventsOf(more)
          == s.log[l] + (EventsOf(OnQ(Executed(s, init), l)) + EventsOf(more));
    }
  }

  lemma SwapRecordsNothing(t: Sim, op: Operation)
    requires SimOk(t, |t.map_|) && op.Fits(|t.map_|) && op.SwapOp?
    ensures Step(t, op).log == t.log
  {
  }

  lemma GateRecorded(t: Sim, op: Operation, l: nat)
    requires SimOk(t, |t.map_|) && op.Fits(|t.map_|) && op.GateOp? && l < |t.map_|
    ensures var g := LogicalGate(op.kind, Operands(t.map_, op));
      Step(t, op).log[l] == t.log[l] + EventsOf(if l in g.qubits then [g] else [])
  {
    RecordAt(t, op, l);
  }

  lemma EventsNext(a: seq<LogicalGate>, b: seq<LogicalGate>)
    ensures EventsOf(a + b) == EventsOf(a) + EventsOf(b)
    ensures |b| == 1 ==> EventsOf(b) == [Routers.EventOf(b[0])]
    ensures b == [] ==> EventsOf(b) == []
  {
  }

  lemma EventsDetermine(a: seq<LogicalGate>, b: seq<LogicalGate>)
    requires EventsOf(a) == EventsOf(b)
    ensures a == b
  {
    forall i | 0 <= i < |a| ensures a[i] == b[i] {
      assert EventsOf(a)[i] == EventsOf(b)[i];
    }
  }

  /** All gates of the circuit are Clifford gates. */
  predicate Clifford(c: Circuit) { forall g :: g in c.gates ==> OpFor(c.gates[g]).Some? }

  predicate Lists(c: Circuit, list: seq<nat>) { forall g :: g in list ==> g in c.gates }

  lemma KnownByShape(a: LogicalGate, b: LogicalGate)
    requires a.kind == b.kind && |a.qubits| == |b.qubits| && OpFor(a).Some?
    ensures OpFor(b).Some?
  {
  }

  /** Operations that simulate a Clifford circuit are Clifford gates and swaps. */
  lemma SimulationKnown(adj: seq<seq<nat>>, start: seq<Devices.PhysicalQubit>, ops: seq<Operation>, qs: seq<Devices.PhysicalQubit>, c: Circuit, chains: seq<seq<nat>>)
    requires Schedulers.Simulates(adj, start, ops, qs, c, chains) && Clifford(c)
    ensures KnownOps(ops)
  {
    var s := Routers.DeviceSim(start, seq(|start|, i => []));
    forall i | 0 <= i < |ops| && ops[i].GateOp? ensures OpFor(LogicalGate(ops[i].kind, ops[i].qs)).Some? {
      var l := MappingFlow.Recorded(s, ops, i);
      var log := Schedulers.FullLog(c, chains, |start|)[l];
      assert MappingFlow.HasEvent(log, ops[i]);
      var j :| 0 <= j < |log| && log[j].kind == ops[i].kind && |log[j].operands| == |ops[i].qs|;
      assert l < |chains| && log == Schedulers.Events(c, chains[l], |chains[l]|);
      assert chains[l][j] in chains[l] && log[j] == Routers.EventOf(c.gates[chains[l][j]]);
      KnownByShape(c.gates[chains[l][j]], LogicalGate(ops[i].kind, ops[i].qs));
    }
  }

  lemma {:induction false} OnQMembers(gates: seq<LogicalGate>, q: nat, g: LogicalGate)
    ensures g in OnQ(gates, q) <==> g in gates && q in g.qubits
  {
    if |gates| > 0 {
      OnQMembers(gates[..|gates| - 1], q, g);
      assert gates == gates[..|gates| - 1] + [gates[|gates| - 1]];
    }
  }

  lemma {:induction false} BuiltFits(ops: seq<Operation>, n: nat)
    requires TimedReplay.AllFit(ops, n) && AllKnown(Built(ops))
    ensures AllGates(Built(ops), n)
  {
    if |ops| > 0 {
      var init, op := ops[..|ops| - 1], ops[|ops| - 1];
      var all := Built(ops);
      forall i | 0 <= i < |Built(init)| ensures OpFor(Built(init)[i]).Some? { assert Built(init)[i] == all[i]; }
      BuiltFits(init, n);
      assert forall i :: 0 <= i < |Duostra.Expand(op)| ==> Duostra.Expand(op)[i].Fits(n);
    }
  }

  lemma {:induction false} ExecutedFits(s: Sim, ops: seq<Operation>)
    requires SimOk(s, |s.map_|) && TimedReplay.AllFit(ops, |s.map_|) && AllKnown(Executed(s, ops))
    ensures AllGates(Executed(s, ops), |s.map_|)
  {
    hide Step;
    if |ops| > 0 {
      var init := ops[..|ops| - 1];
      var all := Executed(s, ops);
      forall i | 0 <= i < |Executed(s, init)| ensures OpFor(Executed(s, init)[i]).Some? { assert Executed(s, init)[i] == all[i]; }
      ExecutedFits(s, init);
    }
  }

  /** The same gates on every qubit: if one list holds Clifford gates on n qubits only, so does the other. */
  lemma SameMembersFit(a: seq<LogicalGate>, b: seq<LogicalGate>, n: nat)
    requires AllGates(a, n) && SameOnQubits(a, b, n) && forall i :: 0 <= i < |b| ==> |b[i].qubits| > 0 && b[i].qubits[0] < n
    ensures AllGates(b, n)
  {
    forall i | 0 <= i < |b| ensures OpFor(b[i]).Some? && b[i].Fits(n) {
      var q := b[i].qubits[0];
      assert OnQ(a, q) == OnQ(b, q) && q in b[i].qubits;
      OnQMembers(b, q, b[i]);
      OnQMembers(a, q, b[i]);
    }
  }

  /** The circuit has on every qubit the gates built for the operations. */
  lemma PhysicalSide(pc: Circuit, pchains: seq<seq<nat>>, list: seq<nat>, ops: seq<Operation>)
    requires Chained(pc, pchains) && TopologicalOrder.Topological(pc, pchains, list) && Duostra.Spells(pc.gates, pchains, ops)
    ensures Lists(pc, list) && SameOnQubits(Built(ops), GatesOf(pc, list), |pchains|)
  {
    QCirs.ChainsInGates(pc, pchains);
    forall q: nat | q < |pchains| ensures OnQ(Built(ops), q) == OnQ(GatesOf(pc, list), q) {
      OnQOfBuilt(ops, q);
      OnQOfList(pc, list, q);
      assert TopologicalOrder.OnQubit(pc, list, q) == pchains[q];
      assert QCirs.WordOn(pc.gates, pchains, q) == Duostra.ExpandOn(ops, q);
      assert QCirs.ChainInGates(pc.gates, pchains[q]);
      assert QCirs.Word(pc.gates, pchains[q]) == GatesOf(pc, pchains[q]);
    }
  }

  lemma {:induction false} NoGateBeyond(c: Circuit, list: seq<nat>, q: nat)
    requires Circuits.Shaped(c) && Lists(c, list) && q >= |c.first|
    ensures TopologicalOrder.OnQubit(c, list, q) == []
  {
    if |list| > 0 {
      NoGateBeyond(c, list[..|list| - 1], q);
      assert list[|list| - 1] in list && GateShaped(c, list[|list| - 1]);
    }
  }

  /** On every logical qubit the executed gates are those of the circuit. */
  lemma LogicalSide(s: Sim, ops: seq<Operation>, c: Circuit, chains: seq<seq<nat>>, list: seq<nat>)
    requires SimOk(s, |s.map_|) && TimedReplay.AllFit(ops, |s.map_|) && s.log == seq(|s.map_|, i => [])
    requires Chained(c, chains) && TopologicalOrder.Topological(c, chains, list) && Schedulers.InCircuit(c, chains)
    requires Run(s, ops).log == Schedulers.FullLog(c, chains, |s.map_|)
    ensures Lists(c, list) && SameOnQubits(Executed(s, ops), GatesOf(c, list), |s.map_|)
  {
    hide Step;
    forall l: nat | l < |s.map_| ensures OnQ(Executed(s, ops), l) == OnQ(GatesOf(c, list), l) {
      RecordIsExecuted(s, ops, l);
      OnQOfList(c, list, l);
      var mine, theirs := OnQ(Executed(s, ops), l), OnQ(GatesOf(c, list), l);
      assert [] + EventsOf(mine) == EventsOf(mine);
      if l < |chains| {
        assert TopologicalOrder.OnQubit(c, list, l) == chains[l];
        assert EventsOf(GatesOf(c, chains[l])) == Schedulers.Events(c, chains[l], |chains[l]|);
      } else {
        NoGateBeyond(c, list, l);
      }
      assert EventsOf(mine) == EventsOf(theirs);
      EventsDetermine(mine, theirs);
    }
  }

  /**
   A mapped Clifford circuit is right on the data: in whatever topological order its gates act, they take every
   product as placed at the start to what the logical circuit makes of it, as placed at the end.
   */
  lemma MappingMeans(adj: seq<seq<nat>>, start: seq<Devices.PhysicalQubit>, ops: seq<Operation>, qs: seq<Devices.PhysicalQubit>,
                     c: Circuit, chains: seq<seq<nat>>, list: seq<nat>, pc: Circuit, pchains: seq<seq<nat>>, plist: seq<nat>, p: Pauli)
    requires Chained(c, chains) && TopologicalOrder.Topological(c, chains, list) && Clifford(c) && |chains| <= |adj|
    requires Chained(pc, pchains) && TopologicalOrder.Topological(pc, pchains, plist) && |pchains| == |adj| == |p.ls|
    requires Schedulers.Simulates(adj, start, ops, qs, c, chains) && Duostra.Spells(pc.gates, pchains, ops)
    ensures Lists(c, list) && Lists(pc, plist) && AllKnown(GatesOf(c, list)) && AllKnown(GatesOf(pc, plist))
    ensures Placement(Devices.Logicals(start), |p.ls|) && Placement(Devices.Logicals(qs), |p.ls|)
    ensures ConjAll(OpsFor(GatesOf(pc, plist)), Seen(Devices.Logicals(start), p))
            == Seen(Devices.Logicals(qs), ConjAll(OpsFor(GatesOf(c, list)), p))
  {
    var s := Routers.DeviceSim(start, seq(|start|, i => []));
    var n := |p.ls|;
    SimulationKnown(adj, start, ops, qs, c, chains);
    ListQubits(c, chains, list, n);
    ListQubits(pc, pchains, plist, n);
    PhysicalSide(pc, pchains, plist, ops);
    LogicalSide(s, ops, c, chains, list);
    assert SimOk(Run(s, ops), n);
    hide Conj, ConjAll, OpFor, OnQ, Built, Executed, Run, Seen, Chained, TopologicalOrder.Topological;
    ReplayMeans(s, ops, p);
    BuiltFits(ops, n);
    ExecutedFits(s, ops);
    SameMembersFit(Built(ops), GatesOf(pc, plist), n);
    SameMembersFit(Executed(s, ops), GatesOf(c, list), n);
    SameTraceSameConj(Built(ops), GatesOf(pc, plist), Seen(s.map_, p));
    SameTraceSameConj(Executed(s, ops), GatesOf(c, list), p);
  }

  lemma ListQubits(c: Circuit, chains: seq<seq<nat>>, list: seq<nat>, n: nat)
    requires Chained(c, chains) && TopologicalOrder.Topological(c, chains, list) && |chains| <= n
    ensures Lists(c, list)
    ensures forall i :: 0 <= i < |list| ==> |GatesOf(c, list)[i].qubits| > 0 && GatesOf(c, list)[i].qubits[0] < n
  {
    forall i | 0 <= i < |list| ensures |GatesOf(c, list)[i].qubits| > 0 && GatesOf(c, list)[i].qubits[0] < n {
      assert list[i] in list && GateShaped(c, list[i]);
    }
  }
}
