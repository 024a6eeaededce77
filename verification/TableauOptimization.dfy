/**
 Rewriting of programs of Clifford tableaux and Pauli rotations: collapsing, merging
 rotations and absorbing Clifford-angled ones, all with the meaning kept.
 */
module TableauOptimization {
  import opened PauliAlgebra
  import opened CliffordOps
  import opened CliffordTableaux
  import opened StabilizerTableaux
  import opened ProgramSemantics
  import opened PauliRotations
  import opened RotationDiagonalization

  // ---------- lists of rotations ----------

  predicate Trivial(r: Rotation) { r.phase == 0.0 || r.p.ls == Blank(|r.p.ls|) }

  predicate CliffordAngle(r: Rotation) { r.phase == 0.5 || r.phase == -0.5 || r.phase == 1.0 }

  /** Between two rotations about the same axis there is one that anticommutes with them. */
  predicate Separated(rs: seq<Rotation>, i: nat, j: nat)
    requires i < j < |rs|
    requires forall k :: 0 <= k < |rs| ==> |rs[k].p.ls| == |rs[i].p.ls|
  {
    rs[i].p == rs[j].p ==> exists k :: i < k < j && !Commute(rs[i].p, rs[k].p)
  }

  predicate AllSeparated(rs: seq<Rotation>, n: nat)
    requires AllNormal(rs, n)
  {
    forall i, j :: 0 <= i < j < |rs| ==> Separated(rs, i, j)
  }

  predicate HasZero(rs: seq<Rotation>) { exists z :: 0 <= z < |rs| && rs[z].phase == 0.0 }

  function Kept(rs: seq<Rotation>): (r: seq<Rotation>)
    ensures |r| <= |rs|
    ensures forall i :: 0 <= i < |r| ==> r[i] in rs && !Trivial(r[i])
    ensures HasZero(rs) ==> |r| < |rs|
    ensures |r| == |rs| ==> r == rs
  {
    if |rs| == 0 then []
    else
      var k := |rs| - 1;
      var init := Kept(rs[..k]);
      assert rs == rs[..k] + [rs[k]];
      if Trivial(rs[k]) then init else init + [rs[k]]
  }

  /** Rotations by zero and about the identity can be dropped. */
  lemma {:induction false} KeptMeaning(n: nat, rs: seq<Rotation>)
    requires AllNormal(rs, n)
    ensures Equivalent(n, Rots(rs), Rots(Kept(rs)))
    ensures AllNormal(Kept(rs), n)
  {
    if |rs| == 0 {
      EquivalentReflexive(n, Rots(rs));
    } else {
      var k := |rs| - 1;
      var r := Item1(rs[k]);
      KeptMeaning(n, rs[..k]);
      EquivalentBefore(n, Rots(rs[..k]), Rots(Kept(rs[..k])), [r]);
      assert Rots(rs) == Rots(rs[..k]) + [r];
      if Trivial(rs[k]) {
        DropRotation(n, rs[k].p, rs[k].phase);
        EquivalentAfter(n, Rots(Kept(rs[..k])), [r], []);
        assert Rots(Kept(rs[..k])) + [] == Rots(Kept(rs));
        EquivalentTransitive(n, Rots(rs), Rots(Kept(rs[..k])) + [r], Rots(Kept(rs)));
      } else {
        assert Rots(Kept(rs[..k])) + [r] == Rots(Kept(rs));
      }
    }
  }

  /** Adding the phase of rotation j to rotation i, when everything from i to j commutes with them. */
  function Merged(rs: seq<Rotation>, i: nat, j: nat): seq<Rotation>
    requires i < j < |rs|
  {
    rs[i := rs[i].(phase := Normalize(rs[i].phase + rs[j].phase))][j := rs[j].(phase := 0.0)]
  }

  /** Two rotations about one axis fuse across a list that commutes with them. */
  lemma FuseAcross(n: nat, r1: Rotation, m: seq<Rotation>, r2: Rotation)
    requires r1.Normal(n) && r2.Normal(n) && AllNormal(m, n) && r1.p == r2.p
    requires forall k :: 0 <= k < |m| ==> Commute(r1.p, m[k].p)
    ensures Equivalent(n, [Item1(r1)] + Rots(m) + [Item1(r2)],
                       [Rot(r1.p, Normalize(r1.phase + r2.phase))] + Rots(m) + [Rot(r1.p, 0.0)])
  {
    hide Equivalent, Normalize, Rots;
    var i1, i2, M := Item1(r1), Item1(r2), Rots(m);
    var plain := Rot(r1.p, r1.phase + r2.phase);
    var sum, zero := Rot(r1.p, Normalize(r1.phase + r2.phase)), Rot(r1.p, 0.0);
    // the two rotations meet and fuse
    MovePast(n, m, r2);
    EquivalentAfter(n, [i1], M + [i2], [i2] + M);
    FuseRotations(n, r1.p, r1.phase, r2.phase);
    NormalizeRotation(n, r1.p, r1.phase + r2.phase);
    EquivalentTransitive(n, [i1, i2], [plain], [sum]);
    EquivalentBefore(n, [i1, i2], [sum], M);
    assert [i1] + (M + [i2]) == [i1] + M + [i2];
    assert [i1] + ([i2] + M) == [i1, i2] + M;
    EquivalentTransitive(n, [i1] + M + [i2], [i1, i2] + M, [sum] + M);
    // a rotation by zero takes the second place
    DropRotation(n, r1.p, 0.0);
    EquivalentSymmetric(n, [zero], []);
    EquivalentAfter(n, [sum] + M, [], [zero]);
    assert [sum] + M + [] == [sum] + M;
    EquivalentTransitive(n, [i1] + M + [i2], [sum] + M, [sum] + M + [zero]);
  }

  lemma RotsSplit(rs: seq<Rotation>, i: nat, j: nat)
    requires i < j < |rs|
    ensures Rots(rs) == Rots(rs[..i]) + ([Item1(rs[i])] + Rots(rs[i + 1..j]) + [Item1(rs[j])]) + Rots(rs[j + 1..])
  {
  }

  lemma MergeMeaning(n: nat, rs: seq<Rotation>, i: nat, j: nat)
    requires AllNormal(rs, n) && i < j < |rs| && rs[i].p == rs[j].p
    requires forall k :: i < k < j ==> Commute(rs[i].p, rs[k].p)
    ensures Equivalent(n, Rots(rs), Rots(Merged(rs, i, j)))
  {
    var m, rs' := rs[i + 1..j], Merged(rs, i, j);
    FuseAcross(n, rs[i], m, rs[j]);
    EquivalentWithin(n, Rots(rs[..i]), [Item1(rs[i])] + Rots(m) + [Item1(rs[j])],
                     [Item1(rs'[i])] + Rots(m) + [Item1(rs'[j])], Rots(rs[j + 1..]));
    RotsSplit(rs, i, j);
    RotsSplit(rs', i, j);
    assert rs'[..i] == rs[..i] && rs'[i + 1..j] == m && rs'[j + 1..] == rs[j + 1..];
  }

  /** The list of rotations shared by the passes. */
  class RotationList {
    var rs: seq<Rotation>

    constructor (rs: seq<Rotation>)
      ensures this.rs == rs
    {
      this.rs := rs;
    }

    method RemoveIdentities()
      modifies this
      ensures rs == Kept(old(rs))
    {
      var kept := [];
      for i := 0 to |rs|
        invariant rs == old(rs)
        invariant kept == Kept(rs[..i])
      {
        assert rs[..i + 1][..i] == rs[..i];
        if !Trivial(rs[i]) {
          kept := kept + [rs[i]];
        }
      }
      assert rs[..|rs|] == rs;
      rs := kept;
    }

    /** Merges every later rotation about the same axis into rotation i, up to the first that anticommutes with it. */
    method MergeInto(i: nat, n: nat)
      requires AllNormal(rs, n) && i < |rs|
      modifies this
      ensures AllNormal(rs, n) && |rs| == |old(rs)|
      ensures Equivalent(n, Rots(old(rs)), Rots(rs))
      ensures rs == old(rs) || HasZero(rs)
      ensures rs == old(rs) && !HasZero(rs) ==> forall j :: i < j < |rs| ==> Separated(rs, i, j)
    {
      hide Equivalent;
      var j := i + 1;
      var axis := rs[i].p;
      EquivalentReflexive(n, Rots(rs));
      while j < |rs|
        invariant i < j <= |rs| == |old(rs)|
        invariant AllNormal(rs, n) && rs[i].p == axis
        invariant Equivalent(n, Rots(old(rs)), Rots(rs))
        invariant rs == old(rs) || HasZero(rs)
        invariant forall k :: i < k < j ==> Commute(axis, rs[k].p)
        invariant !HasZero(rs) ==> forall k :: i < k < j ==> Separated(rs, i, k)
      {
        if !Commute(rs[i].p, rs[j].p) {
          forall k | i < k < |rs| && !HasZero(rs) ensures Separated(rs, i, k) {
            if k == j { SelfCommutes(axis.ls); }
          }
          break;
        }
        if rs[i].p == rs[j].p {
          ghost var before := rs;
          MergeMeaning(n, rs, i, j);
          EquivalentTransitive(n, Rots(old(rs)), Rots(rs), Rots(Merged(rs, i, j)));
          rs := Merged(rs, i, j);
          assert rs[j].phase == 0.0;
          assert HasZero(rs);
          assert forall k :: 0 <= k < |rs| ==> rs[k].p == before[k].p;
        }
        j := j + 1;
      }
    }

    /** Merging keeps the meaning; if it removes nothing it changes nothing, and equal axes are separated. */
    method MergeRotations(n: nat)
      requires AllNormal(rs, n)
      modifies this
      ensures AllNormal(rs, n) && |rs| <= |old(rs)|
      ensures Equivalent(n, Rots(old(rs)), Rots(rs))
      ensures forall i :: 0 <= i < |rs| ==> !Trivial(rs[i])
      ensures |rs| == |old(rs)| ==> rs == old(rs) && AllSeparated(rs, n)
    {
      EquivalentReflexive(n, Rots(rs));
      for i := 0 to |rs|
        invariant |rs| == |old(rs)| && AllNormal(rs, n)
        invariant Equivalent(n, Rots(old(rs)), Rots(rs))
        invariant rs == old(rs) || HasZero(rs)
        invariant !HasZero(rs) ==> forall a, b :: 0 <= a < i && a < b < |rs| ==> Separated(rs, a, b)
      {
        ghost var before := rs;
        label L:
        MergeInto(i, n);
        EquivalentTransitive(n, Rots(old(rs)), Rots(before), Rots(rs));
      }
      KeptMeaning(n, rs);
      EquivalentTransitive(n, Rots(old(rs)), Rots(rs), Rots(Kept(rs)));
      RemoveIdentities();
    }
  }

  // ---------- conjugating a Clifford tableau together with the first rotations ----------

  function ConjFirst(ops: seq<Op>, rs: seq<Rotation>, upto: nat): (r: seq<Rotation>)
    ensures |r| == |rs|
    ensures forall i :: 0 <= i < |rs| ==> r[i] == if i < upto then ConjRotationAll(ops, rs[i]) else rs[i]
  {
    seq(|rs|, i requires 0 <= i < |rs| => if i < upto then ConjRotationAll(ops, rs[i]) else rs[i])
  }

  lemma ConjFirstNormal(ops: seq<Op>, rs: seq<Rotation>, upto: nat, n: nat)
    requires AllNormal(rs, n)
    ensures AllNormal(ConjFirst(ops, rs, upto), n)
  {
    forall i | 0 <= i < |rs| ensures ConjFirst(ops, rs, upto)[i].Normal(n) {
      ConjRotationNormal(ops, rs[i], n);
    }
  }

  lemma ConjFirstAfter(a: seq<Op>, b: seq<Op>, rs: seq<Rotation>, upto: nat, n: nat)
    requires AllNormal(rs, n)
    ensures ConjFirst(b, ConjFirst(a, rs, upto), upto) == ConjFirst(a + b, rs, upto)
  {
    forall i | 0 <= i < |rs|
      ensures ConjFirst(b, ConjFirst(a, rs, upto), upto)[i] == ConjFirst(a + b, rs, upto)[i]
    {
      ConjRotationAfter(a, b, rs[i], n);
    }
  }

  lemma ConjFirstNone(rs: seq<Rotation>, upto: nat, n: nat)
    requires AllNormal(rs, n)
    ensures ConjFirst([], rs, upto) == rs
  {
  }

  lemma ConjFirstOne(op: Op, rs: seq<Rotation>, upto: nat, i: nat)
    requires i < |rs|
    ensures ConjFirst([op], rs, upto)[i] == if i < upto then ConjRotation(op, rs[i]) else rs[i]
  {
    ConjAllOne(op, rs[i].p);
  }

  /** A Clifford tableau and the first rotations of a list, to which operators are applied together. */
  class ConjugationView {
    const clifford: StabilizerTableau
    const rotations: RotationList
    const upto: nat

    constructor (clifford: StabilizerTableau, rotations: RotationList, upto: nat)
      ensures this.clifford == clifford && this.rotations == rotations && this.upto == upto
    {
      this.clifford := clifford;
      this.rotations := rotations;
      this.upto := upto;
    }

    method ApplyBasic(op: Op)
      requires Shaped(clifford.rows, clifford.n) && AllNormal(rotations.rs, clifford.n) && upto <= |rotations.rs|
      modifies clifford, rotations
      ensures clifford.rows == ConjEach(op, old(clifford.rows))
      ensures rotations.rs == ConjFirst([op], old(rotations.rs), upto)
    {
      clifford.Apply(op);
      for i := 0 to upto
        invariant clifford.rows == ConjEach(op, old(clifford.rows))
        invariant |rotations.rs| == |old(rotations.rs)|
        invariant forall j :: 0 <= j < i ==> rotations.rs[j] == ConjRotation(op, old(rotations.rs)[j])
        invariant forall j :: i <= j < |rotations.rs| ==> rotations.rs[j] == old(rotations.rs)[j]
      {
        rotations.rs := rotations.rs[i := ConjRotation(op, rotations.rs[i])];
      }
      forall j | 0 <= j < |rotations.rs| ensures rotations.rs[j] == ConjFirst([op], old(rotations.rs), upto)[j] {
        ConjFirstOne(op, old(rotations.rs), upto, j);
      }
    }

    /** Applies a string of operators, each through the h, s and cx it is made of. */
    method ApplyAll(ops: seq<Op>)
      requires Shaped(clifford.rows, clifford.n) && AllNormal(rotations.rs, clifford.n) && upto <= |rotations.rs|
      modifies clifford, rotations
      ensures clifford.rows == ConjRows(ops, old(clifford.rows))
      ensures rotations.rs == ConjFirst(ops, old(rotations.rs), upto)
      ensures AllNormal(rotations.rs, clifford.n)
    {
      ConjFirstNone(rotations.rs, upto, clifford.n);
      for i := 0 to |ops|
        invariant clifford.rows == ConjRows(ops[..i], old(clifford.rows))
        invariant rotations.rs == ConjFirst(ops[..i], old(rotations.rs), upto)
        invariant AllNormal(rotations.rs, clifford.n)
      {
        Apply(ops[i]);
        ConjFirstAfter(ops[..i], [ops[i]], old(rotations.rs), upto, clifford.n);
        ConjRowsConcat(ops[..i], [ops[i]], old(clifford.rows));
        assert ops[..i + 1] == ops[..i] + [ops[i]];
        ConjFirstNormal(ops[..i + 1], old(rotations.rs), upto, clifford.n);
      }
      assert ops[..|ops|] == ops;
    }

    method Apply(op: Op)
      requires Shaped(clifford.rows, clifford.n) && AllNormal(rotations.rs, clifford.n) && upto <= |rotations.rs|
      modifies clifford, rotations
      ensures clifford.rows == ConjRows([op], old(clifford.rows))
      ensures rotations.rs == ConjFirst([op], old(rotations.rs), upto)
    {
      var es := Expand(op);
      ConjFirstNone(rotations.rs, upto, clifford.n);
      for i := 0 to |es|
        invariant clifford.rows == ConjRows(es[..i], old(clifford.rows))
        invariant rotations.rs == ConjFirst(es[..i], old(rotations.rs), upto)
        invariant AllNormal(rotations.rs, clifford.n)
      {
        ApplyBasic(es[i]);
        ConjFirstAfter(es[..i], [es[i]], old(rotations.rs), upto, clifford.n);
        ConjRowsSnoc(es[..i], es[i], old(clifford.rows));
        assert es[..i + 1] == es[..i] + [es[i]];
        ConjFirstNormal(es[..i + 1], old(rotations.rs), upto, clifford.n);
      }
      assert es[..|es|] == es;
      ExpandedView(op, old(clifford.rows), old(rotations.rs), upto);
    }
  }

  lemma ExpandedView(op: Op, rows: seq<Pauli>, rs: seq<Rotation>, upto: nat)
    ensures ConjRows(Expand(op), rows) == ConjRows([op], rows)
    ensures ConjFirst(Expand(op), rs, upto) == ConjFirst([op], rs, upto)
  {
    forall i | 0 <= i < |rows| ensures ConjAll(Expand(op), rows[i]) == ConjAll([op], rows[i]) {
      ExpandConj(op, rows[i]);
      ConjAllOne(op, rows[i]);
    }
    forall i | 0 <= i < |rs| ensures ConjAll(Expand(op), rs[i].p) == ConjAll([op], rs[i].p) {
      ExpandConj(op, rs[i].p);
      ConjAllOne(op, rs[i].p);
    }
  }

  // ---------- absorbing Clifford-angled rotations ----------

  /** The operators a Clifford-angled rotation is replaced by. */
  function TurnCircuit(ops: seq<Op>, phase: real, q: nat): seq<Op> {
    ops + [TurnGate(phase, q)] + Adjoint(ops)
  }

  predicate Diagonalizes(ops: seq<Op>, p: Pauli, q: nat, n: nat) {
    && AllFit(ops, n) && q < n && |p.ls| == n
    && ConjAll(ops, p) == Pauli(ZLetters(n, q), false)
  }

  lemma TurnCircuitFits(ops: seq<Op>, phase: real, q: nat, n: nat)
    requires AllFit(ops, n) && q < n
    ensures AllFit(TurnCircuit(ops, phase, q), n)
  {
    AdjointFits(ops, n);
  }

  lemma TurnMeaning(n: nat, r: Rotation, ops: seq<Op>, q: nat)
    requires Diagonalizes(ops, r.p, q, n) && CliffordAngle(r)
    ensures Equivalent(n, [Item1(r)], Gates(TurnCircuit(ops, r.phase, q)))
  {
    var z := Rot(Pauli(ZLetters(n, q), false), r.phase);
    var g := TurnGate(r.phase, q);
    DiagonalizedRotation(n, r.p, r.phase, ops, q);
    TurnIsGate(n, q, r.phase);
    EquivalentWithin(n, Gates(ops), [z], [Gate(g)], Gates(Adjoint(ops)));
    GatesConcat(ops + [g], Adjoint(ops));
    GatesConcat(ops, [g]);
    assert Gates([g]) == [Gate(g)];
    EquivalentTransitive(n, [Item1(r)], Gates(ops) + [z] + Gates(Adjoint(ops)), Gates(TurnCircuit(ops, r.phase, q)));
  }

  lemma SIsProduct(n: nat, q: nat, l: Pauli)
    requires q < n == |l.ls|
    ensures var z := Pauli(ZLetters(n, q), false);
            ConjS(l, q) == if Commute(z, l) then l else Mul(z, l)
  {
    hide Anticommutes, PowerSum;
    var z := Pauli(ZLetters(n, q), false);
    AnticommutesGenerator(l.ls, q);
    if l.ls[q].x {
      GeneratorLetters(n, q);
      PowerSumZero(Blank(n), l.ls);
      PowerSumUpdate(Blank(n), l.ls, q, LZ, l.ls[q]);
      assert l.ls[q := l.ls[q]] == l.ls;
      assert PowerSum(z.ls, l.ls) == PowerOfI(LZ, l.ls[q]);
      assert ConjS(l, q).ls == Mul(z, l).ls;
    } else {
      assert ConjS(l, q).ls == l.ls;
    }
  }

  /** Absorbing a quarter turn about P takes every Q that anticommutes with P to P*Q and keeps the others. */
  lemma QuarterTurnConjugates(n: nat, p: Pauli, ops: seq<Op>, q: nat, l: Pauli)
    requires Diagonalizes(ops, p, q, n) && |l.ls| == n
    ensures ConjAll(TurnCircuit(ops, 0.5, q), l) == if Commute(p, l) then l else Mul(p, l)
  {
    var z := Pauli(ZLetters(n, q), false);
    var l' := ConjAll(ops, l);
    ConjAllConcat(ops + [S(q)], Adjoint(ops), l);
    ConjAllConcat(ops, [S(q)], l);
    ConjAllOne(S(q), l');
    SIsProduct(n, q, l');
    HomomorphismAll(ops, p, l);
    AdjointAllCancels(ops, l);
    AdjointFits(ops, n);
    if !Commute(p, l) {
      AdjointAllCancels(ops, Mul(p, l));
    }
  }

  /** One absorbed rotation: the earlier rotations and the Clifford are conjugated, the later ones stay. */
  lemma AbsorbMeaning(n: nat, circuit: seq<Op>, rs: seq<Rotation>, i: nat, ops: seq<Op>, q: nat)
    requires AllFit(circuit, n) && AllNormal(rs, n) && i < |rs|
    requires Diagonalizes(ops, rs[i].p, q, n) && CliffordAngle(rs[i])
    ensures
      var g := TurnCircuit(ops, rs[i].phase, q);
      Equivalent(n, Gates(circuit) + Rots(rs), Gates(circuit + g) + Rots(ConjFirst(g, rs, i)[i := rs[i].(phase := 0.0)]))
  {
    var g := TurnCircuit(ops, rs[i].phase, q);
    var a, b := rs[..i], rs[i + 1..];
    var a' := ConjRotations(g, a);
    var zero := rs[i].(phase := 0.0);
    TurnCircuitFits(ops, rs[i].phase, q, n);
    TurnMeaning(n, rs[i], ops, q);
    EquivalentAfter(n, Rots(a), [Item1(rs[i])], Gates(g));
    PushRotations(n, a, g);
    EquivalentTransitive(n, Rots(a) + [Item1(rs[i])], Rots(a) + Gates(g), Gates(g) + Rots(a'));
    DropRotation(n, rs[i].p, 0.0);
    EquivalentSymmetric(n, [Item1(zero)], []);
    EquivalentAfter(n, Gates(g) + Rots(a'), [], [Item1(zero)]);
    assert Gates(g) + Rots(a') + [] == Gates(g) + Rots(a');
    EquivalentTransitive(n, Rots(a) + [Item1(rs[i])], Gates(g) + Rots(a'), Gates(g) + Rots(a') + [Item1(zero)]);
    EquivalentWithin(n, Gates(circuit), Rots(a) + [Item1(rs[i])], Gates(g) + Rots(a') + [Item1(zero)], Rots(b));
    AbsorbShape(circuit, g, rs, i);
  }

  /** The items of a list around its i-th rotation. */
  lemma RotsAround(rs: seq<Rotation>, i: nat)
    requires i < |rs|
    ensures Rots(rs) == Rots(rs[..i]) + [Item1(rs[i])] + Rots(rs[i + 1..])
  {
    assert rs == rs[..i] + [rs[i]] + rs[i + 1..];
    assert Rots([rs[i]]) == [Item1(rs[i])];
    hide Rots;
    RotsConcat(rs[..i] + [rs[i]], rs[i + 1..]);
    RotsConcat(rs[..i], [rs[i]]);
  }

  lemma ConjFirstParts(g: seq<Op>, rs: seq<Rotation>, i: nat, r: Rotation)
    requires i < |rs|
    ensures
      var rs' := ConjFirst(g, rs, i)[i := r];
      |rs'| == |rs| && rs'[..i] == ConjRotations(g, rs[..i]) && rs'[i] == r && rs'[i + 1..] == rs[i + 1..]
  {
  }

  lemma AbsorbShape(circuit: seq<Op>, g: seq<Op>, rs: seq<Rotation>, i: nat)
    requires i < |rs|
    ensures Gates(circuit) + Rots(rs) == Gates(circuit) + (Rots(rs[..i]) + [Item1(rs[i])]) + Rots(rs[i + 1..])
    ensures
      var zero := rs[i].(phase := 0.0);
      Gates(circuit + g) + Rots(ConjFirst(g, rs, i)[i := zero])
      == Gates(circuit) + (Gates(g) + Rots(ConjRotations(g, rs[..i])) + [Item1(zero)]) + Rots(rs[i + 1..])
  {
    hide Rots, Gates, ConjFirst, ConjRotations;
    var zero := rs[i].(phase := 0.0);
    RotsAround(rs, i);
    ConjFirstParts(g, rs, i, zero);
    RotsAround(ConjFirst(g, rs, i)[i := zero], i);
    GatesConcat(circuit, g);
    JoinedAgain(Gates(circuit), [], Rots(rs[..i]), [Item1(rs[i])], Rots(rs[i + 1..]));
    JoinedAgain(Gates(circuit), Gates(g), Rots(ConjRotations(g, rs[..i])), [Item1(zero)], Rots(rs[i + 1..]));
  }

  lemma JoinedAgain(a: seq<Item>, b: seq<Item>, c: seq<Item>, d: seq<Item>, e: seq<Item>)
    ensures a + b + (c + d + e) == a + (b + c + d) + e
    ensures a + (c + d + e) == a + (c + d) + e
  {
  }

  lemma BlankOnlyFromBlank(n: nat, ops: seq<Op>, p: Pauli)
    requires AllFit(ops, n) && |p.ls| == n && ConjAll(ops, p).ls == Blank(n)
    ensures p.ls == Blank(n)
  {
    var r, e := ConjAll(ops, p), Pauli(Blank(n), false);
    AdjointFits(ops, n);
    AdjointAllCancels(ops, p);
    BlankImage(n, Adjoint(ops));
    ConjAllNeg(Adjoint(ops), e);
    assert r == e || r == Neg(e);
  }

  lemma StaysNonblank(n: nat, ops: seq<Op>, p: Pauli)
    requires AllFit(ops, n) && |p.ls| == n && p.ls != Blank(n)
    ensures ConjAll(ops, p).ls != Blank(n)
  {
    if ConjAll(ops, p).ls == Blank(n) {
      BlankOnlyFromBlank(n, ops, p);
    }
  }

  lemma ConjFirstNonblank(ops: seq<Op>, rs: seq<Rotation>, upto: nat, n: nat)
    requires AllNormal(rs, n) && AllFit(ops, n) && NoBlankAxis(rs, n)
    ensures NoBlankAxis(ConjFirst(ops, rs, upto), n)
  {
    forall i | 0 <= i < |rs| ensures ConjFirst(ops, rs, upto)[i].p.ls != Blank(n) {
      StaysNonblank(n, ops, rs[i].p);
    }
  }

  /**
   Absorbs every rotation by a quarter or half turn into the Clifford.  The meaning is
   kept; if no rotation disappears nothing has changed and no such rotation is left.
   */
  method AbsorbCliffordRotations(clifford: StabilizerTableau, list: RotationList, ghost circuit: seq<Op>)
    returns (ghost circuit': seq<Op>)
    requires AllFit(circuit, clifford.n) && clifford.rows == TableauOf(clifford.n, circuit)
    requires AllNormal(list.rs, clifford.n) && NoBlankAxis(list.rs, clifford.n)
    modifies clifford, list
    ensures AllFit(circuit', clifford.n) && clifford.rows == TableauOf(clifford.n, circuit')
    ensures AllNormal(list.rs, clifford.n) && |list.rs| <= |old(list.rs)|
    ensures Equivalent(clifford.n, Gates(circuit) + Rots(old(list.rs)), Gates(circuit') + Rots(list.rs))
    ensures |list.rs| == |old(list.rs)| ==>
              list.rs == old(list.rs) && circuit' == circuit && forall i :: 0 <= i < |list.rs| ==> !CliffordAngle(list.rs[i])
  {
    var n := clifford.n;
    circuit' := circuit;
    EquivalentReflexive(n, Gates(circuit) + Rots(list.rs));
    for i := 0 to |list.rs|
      invariant |list.rs| == |old(list.rs)| && AllNormal(list.rs, n) && NoBlankAxis(list.rs, n)
      invariant AllFit(circuit', n) && clifford.rows == TableauOf(n, circuit')
      invariant Equivalent(n, Gates(circuit) + Rots(old(list.rs)), Gates(circuit') + Rots(list.rs))
      invariant (list.rs == old(list.rs) && circuit' == circuit) || HasZero(list.rs)
      invariant !HasZero(list.rs) ==> forall k :: 0 <= k < i ==> !CliffordAngle(list.rs[k])
    {
      if CliffordAngle(list.rs[i]) {
        circuit' := AbsorbOne(clifford, list, i, circuit', Gates(circuit) + Rots(old(list.rs)));
      }
    }
    KeptMeaning(n, list.rs);
    EquivalentAfter(n, Gates(circuit'), Rots(list.rs), Rots(Kept(list.rs)));
    EquivalentTransitive(n, Gates(circuit) + Rots(old(list.rs)), Gates(circuit') + Rots(list.rs),
                         Gates(circuit') + Rots(Kept(list.rs)));
    list.RemoveIdentities();
  }

  method AbsorbOne(clifford: StabilizerTableau, list: RotationList, i: nat, ghost circuit: seq<Op>, ghost prog: seq<Item>)
    returns (ghost circuit': seq<Op>)
    requires AllFit(circuit, clifford.n) && clifford.rows == TableauOf(clifford.n, circuit)
    requires AllNormal(list.rs, clifford.n) && NoBlankAxis(list.rs, clifford.n)
    requires i < |list.rs| && CliffordAngle(list.rs[i])
    requires Equivalent(clifford.n, prog, Gates(circuit) + Rots(list.rs))
    modifies clifford, list
    ensures AllFit(circuit', clifford.n) && clifford.rows == TableauOf(clifford.n, circuit')
    ensures AllNormal(list.rs, clifford.n) && NoBlankAxis(list.rs, clifford.n) && |list.rs| == |old(list.rs)|
    ensures Equivalent(clifford.n, prog, Gates(circuit') + Rots(list.rs))
    ensures HasZero(list.rs)
  {
    var n := clifford.n;
    var r := list.rs[i];
    var view := new ConjugationView(clifford, list, i);
    var ops, q := ExtractCliffordOperators(r.p);
    ghost var g := TurnCircuit(ops, r.phase, q);
    TurnCircuitFits(ops, r.phase, q, n);
    AdjointFits(ops, n);
    view.ApplyAll(ops);
    ConjFirstNormal(ops, old(list.rs), i, n);
    view.ApplyAll([TurnGate(r.phase, q)]);
    ConjFirstAfter(ops, [TurnGate(r.phase, q)], old(list.rs), i, n);
    ConjRowsConcat(ops, [TurnGate(r.phase, q)], old(clifford.rows));
    view.ApplyAll(Adjoint(ops));
    ConjFirstAfter(ops + [TurnGate(r.phase, q)], Adjoint(ops), old(list.rs), i, n);
    ConjRowsConcat(ops + [TurnGate(r.phase, q)], Adjoint(ops), old(clifford.rows));
    assert list.rs == ConjFirst(g, old(list.rs), i);
    ConjFirstNonblank(g, old(list.rs), i, n);
    list.rs := list.rs[i := list.rs[i].(phase := 0.0)];
    assert list.rs[i].phase == 0.0;
    circuit' := circuit + g;
    TableauConcat(n, circuit, g);
    AbsorbMeaning(n, circuit, old(list.rs), i, ops, q);
    EquivalentTransitive(n, prog, Gates(circuit) + Rots(old(list.rs)), Gates(circuit') + Rots(list.rs));
  }
}
