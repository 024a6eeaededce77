/**
 Pauli rotations with phases modulo 2 (in units of pi), their normal form, and the
 meaning of lists of rotations.
 */
module PauliRotations {
  import opened PauliAlgebra
  import opened CliffordOps
  import opened CliffordTableaux
  import opened ProgramSemantics

  // ---------- phases ----------

  /** q and r differ by m full turns. */
  predicate Turns(q: real, r: real, m: int) { q == r - 2.0 * m as real }

  /** The representative in (-1, 1] of a phase modulo 2. */
  function Normalize(r: real): (q: real)
    ensures -1.0 < q <= 1.0
    ensures exists m: int :: Turns(q, r, m)
  {
    var m := (r / 2.0).Floor;
    var q := r - 2.0 * m as real;
    assert Turns(q, r, m) && (q > 1.0 ==> Turns(q - 2.0, r, m + 1));
    if q > 1.0 then q - 2.0 else q
  }

  lemma {:induction false} NormalizeUnique(r: real, q: real, m: int)
    requires -1.0 < q <= 1.0 && Turns(q, r, m)
    ensures Normalize(r) == q
  {
    var m' :| Turns(Normalize(r), r, m');
    assert -2.0 < 2.0 * (m - m') as real < 2.0;
    assert m == m';
  }

  lemma NormalizeFixed(r: real)
    requires -1.0 < r <= 1.0
    ensures Normalize(r) == r
  {
    NormalizeUnique(r, r, 0);
  }

  lemma NormalizeNegTwice(r: real)
    requires -1.0 < r <= 1.0
    ensures Normalize(-Normalize(-r)) == r
  {
    var m :| Turns(Normalize(-r), -r, m);
    NormalizeUnique(-Normalize(-r), r, m);
  }

  lemma {:induction false} FullTurns(k: Trig, m: nat)
    requires Lawful(k)
    ensures k.cos(2.0 * m as real) == 1.0 && k.sin(2.0 * m as real) == 0.0
  {
    if m > 0 {
      FullTurns(k, m - 1);
      assert AngleSum(k, 0.5, 0.5) && AngleSum(k, 0.5 + 0.5, 0.5 + 0.5);
      assert AngleSum(k, 2.0 * (m - 1) as real, 2.0);
      assert 2.0 * m as real == 2.0 * (m - 1) as real + 2.0;
    }
  }

  lemma ManyTurns(k: Trig, a: real, m: int)
    requires Lawful(k)
    ensures k.cos(a + 2.0 * m as real) == k.cos(a) && k.sin(a + 2.0 * m as real) == k.sin(a)
  {
    var t := 2.0 * m as real;
    if m >= 0 {
      FullTurns(k, m);
    } else {
      FullTurns(k, -m);
      assert AngleNegated(k, 2.0 * (-m) as real);
      assert -(2.0 * (-m) as real) == t;
    }
    assert AngleSum(k, a, t);
  }

  /** The meaning of a rotation depends on its phase modulo 2 only. */
  lemma NormalizeRotation(n: nat, p: Pauli, a: real)
    ensures Equivalent(n, [Rot(p, a)], [Rot(p, Normalize(a))])
  {
    var m: int :| Turns(Normalize(a), a, m);
    forall k: Trig, f: Pauli -> real, l: Pauli | Lawful(k) && Odd(f) && |l.ls| == n
      ensures Agree(k, [Rot(p, a)], [Rot(p, Normalize(a))], f, l)
    {
      ManyTurns(k, Normalize(a), m);
      assert Normalize(a) + 2.0 * m as real == a;
      assert [Rot(p, a)][..0] == [] && [Rot(p, Normalize(a))][..0] == [];
    }
  }

  // ---------- rotations ----------

  datatype Rotation = Rotation(p: Pauli, phase: real) {
    /** The axis is positive and the phase is the representative of its class. */
    predicate Normal(n: nat) {
      |p.ls| == n && !p.neg && -1.0 < phase <= 1.0
    }
  }

  predicate AllNormal(rs: seq<Rotation>, n: nat) { forall i :: 0 <= i < |rs| ==> rs[i].Normal(n) }

  predicate NoBlankAxis(rs: seq<Rotation>, n: nat) { forall i :: 0 <= i < |rs| ==> rs[i].p.ls != Blank(n) }

  /** Moves the sign of the axis into the phase. */
  function MakeRotation(p: Pauli, phase: real): Rotation {
    if p.neg then Rotation(Neg(p), Normalize(-phase)) else Rotation(p, phase)
  }

  function ConjRotation(op: Op, r: Rotation): Rotation {
    MakeRotation(Conj(op, r.p), r.phase)
  }

  function ConjRotationAll(ops: seq<Op>, r: Rotation): Rotation {
    MakeRotation(ConjAll(ops, r.p), r.phase)
  }

  function ConjRotations(ops: seq<Op>, rs: seq<Rotation>): (r: seq<Rotation>)
    ensures |r| == |rs| && forall i :: 0 <= i < |rs| ==> r[i] == ConjRotationAll(ops, rs[i])
  {
    seq(|rs|, i requires 0 <= i < |rs| => ConjRotationAll(ops, rs[i]))
  }

  lemma ConjRotationNormal(ops: seq<Op>, r: Rotation, n: nat)
    requires r.Normal(n)
    ensures ConjRotationAll(ops, r).Normal(n)
  {
  }

  /** Normalizing after every gate gives the same rotation as normalizing once. */
  lemma ConjRotationSnoc(ops: seq<Op>, op: Op, r: Rotation, n: nat)
    requires r.Normal(n)
    ensures ConjRotation(op, ConjRotationAll(ops, r)) == ConjRotationAll(ops + [op], r)
  {
    assert (ops + [op])[..|ops|] == ops;
    var q := ConjAll(ops, r.p);
    if q.neg {
      ConjNeg(op, Neg(q));
      assert Neg(Neg(q)) == q;
      NormalizeNegTwice(r.phase);
    }
  }

  lemma MakeRotationNeg(q: Pauli, phase: real)
    requires -1.0 < phase <= 1.0
    ensures MakeRotation(Neg(q), Normalize(-phase)) == MakeRotation(q, phase)
  {
    assert Neg(Neg(q)) == q;
    NormalizeNegTwice(phase);
  }

  lemma ConjRotationAfter(a: seq<Op>, b: seq<Op>, r: Rotation, n: nat)
    requires r.Normal(n)
    ensures ConjRotationAll(b, ConjRotationAll(a, r)) == ConjRotationAll(a + b, r)
  {
    var q := ConjAll(a, r.p);
    assert ConjAll(a + b, r.p) == ConjAll(b, q) by { ConjAllConcat(a, b, r.p); }
    if q.neg {
      assert ConjAll(b, Neg(q)) == Neg(ConjAll(b, q)) by { ConjAllNeg(b, q); }
      MakeRotationNeg(ConjAll(b, q), r.phase);
    }
  }

  // ---------- the meaning of lists of rotations ----------

  function Item1(r: Rotation): Item { Rot(r.p, r.phase) }

  function Rots(rs: seq<Rotation>): (r: seq<Item>)
    ensures |r| == |rs| && forall i :: 0 <= i < |rs| ==> r[i] == Item1(rs[i])
  {
    seq(|rs|, i requires 0 <= i < |rs| => Item1(rs[i]))
  }

  lemma RotsConcat(a: seq<Rotation>, b: seq<Rotation>)
    ensures Rots(a + b) == Rots(a) + Rots(b)
  {
  }

  lemma MakeRotationMeaning(n: nat, p: Pauli, a: real)
    requires |p.ls| == n
    ensures Equivalent(n, [Rot(p, a)], [Item1(MakeRotation(p, a))])
  {
    hide Equivalent;
    if p.neg {
      assert Neg(Neg(p)) == p;
      NegateAxis(n, Neg(p), a);
      NormalizeRotation(n, Neg(p), -a);
      EquivalentTransitive(n, [Rot(p, a)], [Rot(Neg(p), -a)], [Item1(MakeRotation(p, a))]);
    } else {
      EquivalentReflexive(n, [Rot(p, a)]);
    }
  }

  /** A list of rotations moves past a Clifford circuit, which conjugates every one of them. */
  lemma {:induction false} PushRotations(n: nat, rs: seq<Rotation>, ops: seq<Op>)
    requires AllNormal(rs, n) && AllFit(ops, n)
    ensures Equivalent(n, Rots(rs) + Gates(ops), Gates(ops) + Rots(ConjRotations(ops, rs)))
  {
    if |rs| == 0 {
      assert Rots(rs) + Gates(ops) == Gates(ops) == Gates(ops) + Rots(ConjRotations(ops, rs));
      EquivalentReflexive(n, Gates(ops));
    } else {
      var k := |rs| - 1;
      var init, last := rs[..k], rs[k];
      var last', init' := ConjRotationAll(ops, last), ConjRotations(ops, init);
      PushThroughGates(n, last.p, last.phase, ops);
      MakeRotationMeaning(n, ConjAll(ops, last.p), last.phase);
      EquivalentAfter(n, Gates(ops), [Rot(ConjAll(ops, last.p), last.phase)], [Item1(last')]);
      EquivalentTransitive(n, [Item1(last)] + Gates(ops), Gates(ops) + [Rot(ConjAll(ops, last.p), last.phase)],
                           Gates(ops) + [Item1(last')]);
      EquivalentAfter(n, Rots(init), [Item1(last)] + Gates(ops), Gates(ops) + [Item1(last')]);
      assert Rots(init) + ([Item1(last)] + Gates(ops)) == Rots(rs) + Gates(ops);
      PushRotations(n, init, ops);
      EquivalentBefore(n, Rots(init) + Gates(ops), Gates(ops) + Rots(init'), [Item1(last')]);
      assert Rots(init) + (Gates(ops) + [Item1(last')]) == Rots(init) + Gates(ops) + [Item1(last')];
      assert Gates(ops) + Rots(init') + [Item1(last')] == Gates(ops) + Rots(ConjRotations(ops, rs));
      EquivalentTransitive(n, Rots(rs) + Gates(ops), Rots(init) + (Gates(ops) + [Item1(last')]),
                           Gates(ops) + Rots(ConjRotations(ops, rs)));
    }
  }

  /** A rotation moves past a list of rotations that commute with it. */
  lemma {:induction false} MovePast(n: nat, rs: seq<Rotation>, r: Rotation)
    requires AllNormal(rs, n) && r.Normal(n)
    requires forall i :: 0 <= i < |rs| ==> Commute(r.p, rs[i].p)
    ensures Equivalent(n, Rots(rs) + [Item1(r)], [Item1(r)] + Rots(rs))
  {
    if |rs| == 0 {
      assert Rots(rs) + [Item1(r)] == [Item1(r)] == [Item1(r)] + Rots(rs);
      EquivalentReflexive(n, [Item1(r)]);
    } else {
      var k := |rs| - 1;
      var init, last := rs[..k], rs[k];
      AnticommutesSymmetric(r.p.ls, last.p.ls);
      SwapRotations(n, last.p, last.phase, r.p, r.phase);
      EquivalentAfter(n, Rots(init), [Item1(last), Item1(r)], [Item1(r), Item1(last)]);
      MovePast(n, init, r);
      EquivalentBefore(n, Rots(init) + [Item1(r)], [Item1(r)] + Rots(init), [Item1(last)]);
      assert Rots(init) + [Item1(last), Item1(r)] == Rots(rs) + [Item1(r)];
      assert Rots(init) + [Item1(r), Item1(last)] == Rots(init) + [Item1(r)] + [Item1(last)];
      assert [Item1(r)] + Rots(init) + [Item1(last)] == [Item1(r)] + Rots(rs);
      EquivalentTransitive(n, Rots(rs) + [Item1(r)], Rots(init) + [Item1(r), Item1(last)], [Item1(r)] + Rots(rs));
    }
  }

  // ---------- circuits given by a tableau ----------

  ghost predicate Reachable(n: nat, rows: seq<Pauli>) {
    exists ops :: AllFit(ops, n) && TableauOf(n, ops) == rows
  }

  /** Some circuit with the given tableau. */
  ghost function CircuitOf(n: nat, rows: seq<Pauli>): (ops: seq<Op>)
    requires Reachable(n, rows)
    ensures AllFit(ops, n) && TableauOf(n, ops) == rows
  {
    var ops :| AllFit(ops, n) && TableauOf(n, ops) == rows;
    ops
  }

  lemma ReachableIsSymplectic(n: nat, rows: seq<Pauli>)
    requires Reachable(n, rows)
    ensures Symplectic(rows, n)
  {
    IdentitySymplectic(n);
    SymplecticPreserved(CircuitOf(n, rows), Identity(n), n);
  }

  lemma TableauConcat(n: nat, a: seq<Op>, b: seq<Op>)
    ensures TableauOf(n, a + b) == ConjRows(b, TableauOf(n, a))
  {
    ConjRowsConcat(a, b, Identity(n));
  }

  lemma AdjointIsInverse(n: nat, ops: seq<Op>)
    requires AllFit(ops, n)
    ensures Equivalent(n, Gates(ops) + Gates(Adjoint(ops)), [])
  {
    AdjointFits(ops, n);
    ConjRowsAdjoint(ops, Identity(n), n);
    TableauConcat(n, ops, Adjoint(ops));
    assert TableauOf(n, []) == Identity(n);
    SameTableauSameMeaning(n, ops + Adjoint(ops), []);
    GatesConcat(ops, Adjoint(ops));
    assert Gates([]) == [];
  }

  // ---------- a rotation as a conjugated diagonal rotation ----------

  /** If ops turn the axis p into Z on qubit q, the rotation about p is ops, the rotation about Z, and ops undone. */
  lemma DiagonalizedRotation(n: nat, p: Pauli, a: real, ops: seq<Op>, q: nat)
    requires AllFit(ops, n) && q < n && |p.ls| == n
    requires ConjAll(ops, p) == Pauli(ZLetters(n, q), false)
    ensures Equivalent(n, [Rot(p, a)], Gates(ops) + [Rot(Pauli(ZLetters(n, q), false), a)] + Gates(Adjoint(ops)))
  {
    var z := Rot(Pauli(ZLetters(n, q), false), a);
    var back := Gates(Adjoint(ops));
    PushThroughGates(n, p, a, ops);
    EquivalentBefore(n, [Rot(p, a)] + Gates(ops), Gates(ops) + [z], back);
    AdjointIsInverse(n, ops);
    EquivalentAfter(n, [Rot(p, a)], Gates(ops) + back, []);
    assert [Rot(p, a)] + (Gates(ops) + back) == [Rot(p, a)] + Gates(ops) + back;
    assert [Rot(p, a)] + [] == [Rot(p, a)];
    EquivalentSymmetric(n, [Rot(p, a)] + (Gates(ops) + back), [Rot(p, a)] + []);
    EquivalentTransitive(n, [Rot(p, a)], [Rot(p, a)] + Gates(ops) + back, Gates(ops) + [z] + back);
  }

  /** The Clifford gate for a phase of 1/2, -1/2 or 1 about Z on one qubit. */
  function TurnGate(phase: real, q: nat): Op {
    if phase == 0.5 then S(q) else if phase == -0.5 then Sdg(q) else Z(q)
  }

  lemma TurnIsGate(n: nat, q: nat, phase: real)
    requires q < n && (phase == 0.5 || phase == -0.5 || phase == 1.0)
    ensures Equivalent(n, [Rot(Pauli(ZLetters(n, q), false), phase)], [Gate(TurnGate(phase, q))])
  {
    var z := Pauli(ZLetters(n, q), false);
    QuarterTurnIsS(n, q);
    if phase == 1.0 {
      HalfTurn(n, q);
    } else if phase == -0.5 {
      HalfTurn(n, q);
      EquivalentBefore(n, [Rot(z, 1.0)], [Gate(Z(q))], [Gate(S(q))]);
      EquivalentAfter(n, [Rot(z, 1.0)], [Rot(z, 0.5)], [Gate(S(q))]);
      FuseRotations(n, z, 1.0, 0.5);
      NormalizeRotation(n, z, 1.0 + 0.5);
      NormalizeUnique(1.0 + 0.5, -0.5, 1);
      SameTableauSameMeaning(n, [Z(q), S(q)], [Sdg(q)]) by { ThreeS(n, q); }
      assert Gates([Z(q), S(q)]) == [Gate(Z(q))] + [Gate(S(q))];
      assert Gates([Sdg(q)]) == [Gate(Sdg(q))];
      assert [Rot(z, 1.0)] + [Rot(z, 0.5)] == [Rot(z, 1.0), Rot(z, 0.5)];
      EquivalentSymmetric(n, [Rot(z, 1.0), Rot(z, 0.5)], [Rot(z, 1.0 + 0.5)]);
      EquivalentSymmetric(n, [Rot(z, 1.0 + 0.5)], [Rot(z, -0.5)]);
      EquivalentTransitive(n, [Rot(z, -0.5)], [Rot(z, 1.0 + 0.5)], [Rot(z, 1.0), Rot(z, 0.5)]);
      EquivalentTransitive(n, [Rot(z, -0.5)], [Rot(z, 1.0)] + [Rot(z, 0.5)], [Rot(z, 1.0)] + [Gate(S(q))]);
      EquivalentTransitive(n, [Rot(z, -0.5)], [Rot(z, 1.0)] + [Gate(S(q))], [Gate(Z(q))] + [Gate(S(q))]);
      EquivalentTransitive(n, [Rot(z, -0.5)], [Gate(Z(q))] + [Gate(S(q))], [Gate(Sdg(q))]);
    }
  }

  lemma ThreeS(n: nat, q: nat)
    ensures TableauOf(n, [Z(q), S(q)]) == TableauOf(n, [Sdg(q)])
    ensures TableauOf(n, [S(q), S(q)]) == TableauOf(n, [Z(q)])
  {
    forall i | 0 <= i < 2 * n
      ensures ConjAll([Z(q), S(q)], Generator(n, i)) == ConjAll([Sdg(q)], Generator(n, i))
      ensures ConjAll([S(q), S(q)], Generator(n, i)) == ConjAll([Z(q)], Generator(n, i))
    {
      var g := Generator(n, i);
      ConjAllTwo(Z(q), S(q), g);
      ConjAllTwo(S(q), S(q), g);
      ConjAllOne(Sdg(q), g);
      ConjAllOne(Z(q), g);
    }
  }

  lemma HalfTurn(n: nat, q: nat)
    requires q < n
    ensures Equivalent(n, [Rot(Pauli(ZLetters(n, q), false), 1.0)], [Gate(Z(q))])
  {
    var z := Pauli(ZLetters(n, q), false);
    QuarterTurnIsS(n, q);
    EquivalentBefore(n, [Rot(z, 0.5)], [Gate(S(q))], [Gate(S(q))]);
    EquivalentAfter(n, [Rot(z, 0.5)], [Rot(z, 0.5)], [Gate(S(q))]);
    FuseRotations(n, z, 0.5, 0.5);
    ThreeS(n, q);
    SameTableauSameMeaning(n, [S(q), S(q)], [Z(q)]);
    assert Gates([S(q), S(q)]) == [Gate(S(q))] + [Gate(S(q))];
    assert Gates([Z(q)]) == [Gate(Z(q))];
    assert [Rot(z, 0.5)] + [Rot(z, 0.5)] == [Rot(z, 0.5), Rot(z, 0.5)];
    EquivalentSymmetric(n, [Rot(z, 0.5), Rot(z, 0.5)], [Rot(z, 1.0)]);
    EquivalentTransitive(n, [Rot(z, 1.0)], [Rot(z, 0.5)] + [Rot(z, 0.5)], [Rot(z, 0.5)] + [Gate(S(q))]);
    EquivalentTransitive(n, [Rot(z, 1.0)], [Rot(z, 0.5)] + [Gate(S(q))], [Gate(S(q))] + [Gate(S(q))]);
    EquivalentTransitive(n, [Rot(z, 1.0)], [Gate(S(q))] + [Gate(S(q))], [Gate(Z(q))]);
  }
}
