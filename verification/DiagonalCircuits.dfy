/**
 Circuits of CX and phase gates built while diagonal rotations are re-expressed in the
 current basis: what one more gate does to the meaning, and how the circuit is finished.
 */
module DiagonalCircuits {
  import opened Sequences
  import opened PauliAlgebra
  import opened CliffordOps
  import opened CliffordTableaux
  import opened StabilizerTableaux
  import opened ProgramSemantics
  import opened PauliRotations
  import opened RotationDiagonalization
  import opened StabilizerRank
  import AGSynthesis

  /** What a synthesis returns: it rejects lists it cannot handle. */
  datatype Outcome = Rejected | Circuit(gates: seq<Item>)

  /** A positive product of Z letters only. */
  predicate Diagonal(p: Pauli) { !p.neg && forall j :: 0 <= j < |p.ls| ==> !p.ls[j].x }

  predicate OnlyCX(ops: seq<Op>) { forall i :: 0 <= i < |ops| ==> ops[i].CX? }

  /** The rotation cur is the rotation orig seen after the given CX gates. */
  predicate Tracks(n: nat, cxs: seq<Op>, orig: Rotation, cur: Rotation) {
    && |orig.p.ls| == n && cur.p == ConjAll(cxs, orig.p) && cur.phase == orig.phase
    && Diagonal(cur.p)
  }

  lemma TracksStart(n: nat, r: Rotation)
    requires r.Normal(n) && Diagonal(r.p)
    ensures Tracks(n, [], r, r)
  {
  }

  lemma TracksShape(n: nat, cxs: seq<Op>, orig: Rotation, cur: Rotation)
    requires Tracks(n, cxs, orig, cur)
    ensures |cur.p.ls| == n && Diagonal(cur.p)
  {
  }

  /** A CX adds the z-bit of its target to the z-bit of its control, and the sign stays positive. */
  lemma DiagonalCX(p: Pauli, c: nat, t: nat)
    requires Diagonal(p) && c < |p.ls| && t < |p.ls| && c != t
    ensures ConjCX(p, c, t) == Pauli(p.ls[c := Letter(p.ls[c].z != p.ls[t].z, false)], false)
    ensures Diagonal(ConjCX(p, c, t))
  {
    assert ConjCX(p, c, t).ls == p.ls[c := Letter(p.ls[c].z != p.ls[t].z, false)];
  }

  lemma TracksCX(n: nat, cxs: seq<Op>, orig: Rotation, cur: Rotation, c: nat, t: nat)
    requires Tracks(n, cxs, orig, cur) && c < n && t < n && c != t
    ensures Tracks(n, cxs + [CX(c, t)], orig, ConjRotation(CX(c, t), cur))
  {
    assert (cxs + [CX(c, t)])[..|cxs|] == cxs;
    DiagonalCX(cur.p, c, t);
  }

  lemma TracksNonblank(n: nat, cxs: seq<Op>, orig: Rotation, cur: Rotation)
    requires Tracks(n, cxs, orig, cur) && AllFit(cxs, n) && orig.p.ls != Blank(n)
    ensures cur.p.ls != Blank(n)
  {
    if cur.p.ls == Blank(n) {
      var e := Pauli(Blank(n), false);
      assert cur.p == e;
      AdjointAllCancels(cxs, orig.p);
      AdjointFits(cxs, n);
      BlankImage(n, Adjoint(cxs));
    }
  }

  function Select(rotations: seq<Rotation>, ids: seq<nat>): (r: seq<Rotation>)
    requires forall i :: 0 <= i < |ids| ==> ids[i] < |rotations|
    ensures |r| == |ids| && forall i :: 0 <= i < |ids| ==> r[i] == rotations[ids[i]]
  {
    seq(|ids|, i requires 0 <= i < |ids| => rotations[ids[i]])
  }

  // ---------- one more gate ----------

  /** The circuit so far means the emitted rotations followed by the CX gates, and consists of these and one phase gate each. */
  ghost predicate Means(n: nat, qcir: seq<Item>, emitted: seq<Rotation>, cxs: seq<Op>) {
    && AllFit(cxs, n) && OnlyCX(cxs)
    && Equivalent(n, qcir, Rots(emitted) + Gates(cxs))
    && OpsIn(qcir) == cxs && RotationsIn(qcir) == |emitted|
  }

  lemma MeansStart(n: nat)
    ensures Means(n, [], [], [])
  {
    assert Rots([]) + Gates([]) == [];
    EquivalentReflexive(n, []);
  }

  lemma MeansShape(n: nat, qcir: seq<Item>, emitted: seq<Rotation>, cxs: seq<Op>)
    requires Means(n, qcir, emitted, cxs)
    ensures AllFit(cxs, n)
  {
  }

  lemma OneItem(g: Item)
    ensures OpsIn([g]) == (if g.Gate? then [g.op] else []) && RotationsIn([g]) == if g.Rot? then 1 else 0
  {
    assert [g][..0] == [];
  }

  lemma MeansCX(n: nat, qcir: seq<Item>, emitted: seq<Rotation>, cxs: seq<Op>, c: nat, t: nat)
    requires Means(n, qcir, emitted, cxs) && c < n && t < n && c != t
    ensures Means(n, qcir + [Gate(CX(c, t))], emitted, cxs + [CX(c, t)])
  {
    hide Equivalent, OpsIn, RotationsIn, Rots, Gates;
    var g := Gate(CX(c, t));
    OneItem(g);
    CountsConcat(qcir, [g]);
    MeaningCX(n, qcir, emitted, cxs, CX(c, t));
  }

  lemma MeaningCX(n: nat, qcir: seq<Item>, emitted: seq<Rotation>, cxs: seq<Op>, op: Op)
    requires Equivalent(n, qcir, Rots(emitted) + Gates(cxs))
    ensures Equivalent(n, qcir + [Gate(op)], Rots(emitted) + Gates(cxs + [op]))
  {
    hide Equivalent;
    var g := Gate(op);
    EquivalentBefore(n, qcir, Rots(emitted) + Gates(cxs), [g]);
    GatesConcat(cxs, [op]);
    assert Gates([op]) == [g];
    assert Rots(emitted) + Gates(cxs) + [g] == Rots(emitted) + Gates(cxs + [op]);
  }

  /** A phase gate on qubit t emits the rotation whose current form is Z on qubit t. */
  lemma MeansPhase(n: nat, qcir: seq<Item>, emitted: seq<Rotation>, cxs: seq<Op>, orig: Rotation, cur: Rotation, t: nat)
    requires Means(n, qcir, emitted, cxs) && t < n
    requires Tracks(n, cxs, orig, cur) && cur.p.ls == ZLetters(n, t)
    ensures Means(n, qcir + [PhaseGate(n, cur.phase, t)], emitted + [orig], cxs)
  {
    var g := PhaseGate(n, cur.phase, t);
    OneItem(g);
    CountsConcat(qcir, [g]);
    EquivalentBefore(n, qcir, Rots(emitted) + Gates(cxs), [g]);
    PushThroughGates(n, orig.p, orig.phase, cxs);
    assert Rot(ConjAll(cxs, orig.p), orig.phase) == g;
    EquivalentSymmetric(n, [Item1(orig)] + Gates(cxs), Gates(cxs) + [g]);
    EquivalentAfter(n, Rots(emitted), Gates(cxs) + [g], [Item1(orig)] + Gates(cxs));
    assert Rots(emitted) + (Gates(cxs) + [g]) == Rots(emitted) + Gates(cxs) + [g];
    assert Rots(emitted) + ([Item1(orig)] + Gates(cxs)) == Rots(emitted + [orig]) + Gates(cxs);
    EquivalentTransitive(n, qcir + [g], Rots(emitted) + Gates(cxs) + [g], Rots(emitted + [orig]) + Gates(cxs));
  }

  // ---------- finishing ----------

  /** Prepending a CX to the tableau of the reversed gates. */
  lemma PrependReversed(n: nat, cxs: seq<Op>, c: nat, t: nat)
    requires AllFit(cxs, n) && c < n && t < n && c != t
    ensures AllFit(Reversed(cxs), n)
    ensures PrependCX(TableauOf(n, Reversed(cxs)), n, c, t) == TableauOf(n, Reversed(cxs + [CX(c, t)]))
  {
    PrependCXIsFirst(n, c, t, Reversed(cxs));
    assert Reversed(cxs + [CX(c, t)]) == [CX(c, t)] + Reversed(cxs);
  }

  lemma ReverseIsAdjoint(cxs: seq<Op>)
    requires OnlyCX(cxs)
    ensures Reversed(cxs) == Adjoint(cxs)
  {
  }

  /** A circuit with the tableau of the reversed CX gates undoes them. */
  lemma UndoesCX(n: nat, qcir: seq<Item>, emitted: seq<Rotation>, cxs: seq<Op>, ops: seq<Op>)
    requires Means(n, qcir, emitted, cxs) && AllFit(ops, n)
    requires TableauOf(n, ops) == TableauOf(n, Reversed(cxs))
    ensures Equivalent(n, qcir + Gates(ops), Rots(emitted))
  {
    ReverseIsAdjoint(cxs);
    AdjointFits(cxs, n);
    EquivalentBefore(n, qcir, Rots(emitted) + Gates(cxs), Gates(ops));
    SameTableauSameMeaning(n, ops, Adjoint(cxs));
    EquivalentAfter(n, Gates(cxs), Gates(ops), Gates(Adjoint(cxs)));
    AdjointIsInverse(n, cxs);
    EquivalentTransitive(n, Gates(cxs) + Gates(ops), Gates(cxs) + Gates(Adjoint(cxs)), []);
    EquivalentAfter(n, Rots(emitted), Gates(cxs) + Gates(ops), []);
    assert Rots(emitted) + (Gates(cxs) + Gates(ops)) == Rots(emitted) + Gates(cxs) + Gates(ops);
    assert Rots(emitted) + [] == Rots(emitted);
    EquivalentTransitive(n, qcir + Gates(ops), Rots(emitted) + Gates(cxs) + Gates(ops), Rots(emitted));
  }

  /** Without h the stabilizers of a linear map stay diagonal. */
  lemma {:induction false} LinearIsDiagonal(n: nat, cxs: seq<Op>)
    requires OnlyCX(cxs) && AllFit(cxs, n)
    ensures DiagonalStabilizers(TableauOf(n, cxs), n)
  {
    if |cxs| == 0 {
      ConjRowsNone(Identity(n));
    } else {
      var k := |cxs| - 1;
      LinearIsDiagonal(n, cxs[..k]);
      assert cxs[..k] + [cxs[k]] == cxs;
      ConjRowsSnoc(cxs[..k], cxs[k], Identity(n));
      DiagonalPreserved(cxs[k], TableauOf(n, cxs[..k]), n);
    }
  }

  lemma FinishedItems(qcir: seq<Item>, cxs: seq<Op>, ops: seq<Op>)
    requires OpsIn(qcir) == cxs && OnlyCX(cxs) && NoH(ops)
    ensures HCount(OpsIn(qcir + Gates(ops))) == 0 && RotationsIn(qcir + Gates(ops)) == RotationsIn(qcir)
  {
    ItemsOfGates(ops);
    CountsConcat(qcir, Gates(ops));
    HCountConcat(cxs, ops);
    HCountNone(cxs);
    HCountNone(ops);
  }

  /** Appends the synthesized inverse of the linear map; no h is left anywhere. */
  method Finish(n: nat, qcir: seq<Item>, final: StabilizerTableau, ghost emitted: seq<Rotation>, ghost cxs: seq<Op>)
    returns (r: seq<Item>)
    requires Means(n, qcir, emitted, cxs)
    requires final.n == n && final.rows == TableauOf(n, Reversed(cxs))
    ensures Equivalent(n, r, Rots(emitted))
    ensures RotationsIn(r) == |emitted| && HCount(OpsIn(r)) == 0 && qcir <= r
  {
    IdentitySymplectic(n);
    ReverseIsAdjoint(cxs);
    AdjointFits(cxs, n);
    SymplecticPreserved(Reversed(cxs), Identity(n), n);
    LinearIsDiagonal(n, Reversed(cxs));
    var ops := AGSynthesis.Synthesize(n, final.rows);
    FinishedItems(qcir, cxs, ops);
    UndoesCX(n, qcir, emitted, cxs, ops);
    r := qcir + Gates(ops);
  }

  // ---------- the order of diagonal rotations does not matter ----------

  predicate AllDiagonal(rs: seq<Rotation>) { forall i :: 0 <= i < |rs| ==> Diagonal(rs[i].p) }

  predicate InRange(ids: seq<nat>, m: nat) { forall i :: 0 <= i < |ids| ==> ids[i] < m }

  lemma MoveToEnd(n: nat, rs: seq<Rotation>, i: nat)
    requires AllNormal(rs, n) && AllDiagonal(rs) && i < |rs|
    ensures Equivalent(n, Rots(rs), Rots(rs[..i] + rs[i + 1..] + [rs[i]]))
  {
    var a, r, b := rs[..i], rs[i], rs[i + 1..];
    forall k | 0 <= k < |b| ensures Commute(r.p, b[k].p) {
      NoXCommutes(r.p.ls, b[k].p.ls);
    }
    MovePast(n, b, r);
    EquivalentSymmetric(n, Rots(b) + [Item1(r)], [Item1(r)] + Rots(b));
    EquivalentAfter(n, Rots(a), [Item1(r)] + Rots(b), Rots(b) + [Item1(r)]);
    assert Rots(rs) == Rots(a) + ([Item1(r)] + Rots(b));
    assert Rots(a + b + [r]) == Rots(a) + (Rots(b) + [Item1(r)]);
  }

  lemma SelectWithout(rotations: seq<Rotation>, a: seq<nat>, i: nat)
    requires InRange(a, |rotations|) && i < |a|
    ensures Select(rotations, a)[..i] + Select(rotations, a)[i + 1..] == Select(rotations, a[..i] + a[i + 1..])
  {
  }

  lemma RotsSnoc(rs: seq<Rotation>, r: Rotation)
    ensures Rots(rs + [r]) == Rots(rs) + [Item1(r)]
  {
  }

  lemma SelectLast(rotations: seq<Rotation>, ids: seq<nat>)
    requires InRange(ids, |rotations|) && |ids| > 0
    ensures var k := |ids| - 1; Select(rotations, ids) == Select(rotations, ids[..k]) + [rotations[ids[k]]]
  {
  }

  /** Two orders of the same diagonal rotations have the same meaning. */
  lemma {:induction false} OrderIrrelevant(n: nat, rotations: seq<Rotation>, a: seq<nat>, b: seq<nat>)
    requires AllNormal(rotations, n) && AllDiagonal(rotations)
    requires InRange(a, |rotations|) && InRange(b, |rotations|)
    requires multiset(a) == multiset(b)
    ensures Equivalent(n, Rots(Select(rotations, a)), Rots(Select(rotations, b)))
    decreases |b|
  {
    hide Equivalent, Rots, Select;
    if |b| == 0 {
      assert |multiset(a)| == |multiset(b)|;
      assert a == [];
      EquivalentReflexive(n, Rots(Select(rotations, b)));
    } else {
      var k := |b| - 1;
      var i := Locate(a, b);
      var a' := a[..i] + a[i + 1..];
      var r := rotations[b[k]];
      var sa, sb := Select(rotations, a'), Select(rotations, b[..k]);
      OrderIrrelevant(n, rotations, a', b[..k]);
      MoveToEnd(n, Select(rotations, a), i);
      SelectWithout(rotations, a, i);
      EquivalentBefore(n, Rots(sa), Rots(sb), [Item1(r)]);
      RotsSnoc(sa, r);
      SelectLast(rotations, b);
      RotsSnoc(sb, r);
      EquivalentTransitive(n, Rots(Select(rotations, a)), Rots(sa) + [Item1(r)], Rots(Select(rotations, b)));
    }
  }

  function Upto(m: nat): (r: seq<nat>)
    ensures |r| == m && forall i :: 0 <= i < m ==> r[i] == i
  {
    seq(m, i requires 0 <= i < m => i)
  }

  lemma SameLength(a: seq<nat>, b: seq<nat>)
    requires multiset(a) == multiset(b)
    ensures |a| == |b|
  {
    assert |multiset(a)| == |a| && |multiset(b)| == |b|;
  }

  lemma SelectAll(rotations: seq<Rotation>)
    ensures Select(rotations, Upto(|rotations|)) == rotations
  {
  }
}
