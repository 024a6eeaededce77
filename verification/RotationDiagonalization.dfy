/**
 Clifford operators that turn the axis of a rotation into Z on a single qubit, and the
 synthesis of rotations that uses them one by one.
 */
module RotationDiagonalization {
  import opened PauliAlgebra
  import opened CliffordOps
  import opened CliffordTableaux
  import opened ProgramSemantics
  import opened PauliRotations
  import opened StabilizerRank

  /** Letters after the basis changes on the first k qubits. */
  predicate Changed(p: seq<Letter>, r: seq<Letter>, k: nat) {
    && |r| == |p|
    && forall j :: 0 <= j < |p| ==> r[j] == if j < k && p[j] != LI then LZ else p[j]
  }

  lemma BasisChange(p: seq<Letter>, r: Pauli, k: nat)
    requires k < |p| && Changed(p, r.ls, k) && !r.neg
    ensures p[k] == LX ==> Changed(p, ConjH(r, k).ls, k + 1) && !ConjH(r, k).neg
    ensures p[k] == LY ==> Changed(p, ConjV(r, k).ls, k + 1) && !ConjV(r, k).neg
    ensures p[k] != LX && p[k] != LY ==> Changed(p, r.ls, k + 1)
  {
    VForm(r, k);
    assert p[k] == LI || p[k] == LX || p[k] == LY || p[k] == LZ;
  }

  /** Z on the listed qubits from position m on, nothing elsewhere. */
  predicate ZFrom(r: seq<Letter>, qs: seq<nat>, m: nat)
    requires m <= |qs|
  {
    forall j :: 0 <= j < |r| ==> r[j] == if j in qs[m..] then LZ else LI
  }

  lemma LadderStep(r: Pauli, qs: seq<nat>, m: nat)
    requires m + 1 < |qs| && ZFrom(r.ls, qs, m) && !r.neg
    requires forall a, b :: 0 <= a < b < |qs| ==> qs[a] < qs[b] < |r.ls|
    ensures ZFrom(ConjCX(r, qs[m], qs[m + 1]).ls, qs, m + 1) && !ConjCX(r, qs[m], qs[m + 1]).neg
  {
    var c, t := qs[m], qs[m + 1];
    assert c < t < |r.ls|;
    assert qs[m..] == [c] + qs[m + 1..];
    assert qs[m + 1..][0] == t;
    assert c !in qs[m + 1..];
    var r' := ConjCX(r, c, t).ls;
    forall j | 0 <= j < |r'| ensures r'[j] == if j in qs[m + 1..] then LZ else LI {
      assert j in qs[m..] <==> j == c || j in qs[m + 1..];
    }
  }

  lemma SomeLetter(ls: seq<Letter>) returns (j: nat)
    requires ls != Blank(|ls|)
    ensures j < |ls| && ls[j] != LI
  {
    j :| 0 <= j < |ls| && ls[j] != Blank(|ls|)[j];
  }

  lemma ConjAllSnoc(ops: seq<Op>, op: Op, p: Pauli)
    ensures ConjAll(ops + [op], p) == Conj(op, ConjAll(ops, p))
  {
    assert (ops + [op])[..|ops|] == ops;
  }

  /** The number of X letters. */
  function CountX(ls: seq<Letter>): nat {
    if |ls| == 0 then 0 else CountX(ls[..|ls| - 1]) + if ls[|ls| - 1] == LX then 1 else 0
  }

  lemma CountXNext(ls: seq<Letter>, i: nat)
    requires i < |ls|
    ensures CountX(ls[..i + 1]) == CountX(ls[..i]) + if ls[i] == LX then 1 else 0
  {
    assert ls[..i + 1][..i] == ls[..i];
  }

  /** Turns every letter that is not the identity into Z, with one h for every X. */
  method ChangeBasis(p: Pauli) returns (ops: seq<Op>)
    requires !p.neg
    ensures HCount(ops) == CountX(p.ls)
    ensures AllFit(ops, |p.ls|) && Changed(p.ls, ConjAll(ops, p).ls, |p.ls|) && !ConjAll(ops, p).neg
  {
    hide ConjAll, ConjH, ConjV;
    var n := |p.ls|;
    ops := [];
    assert ConjAll([], p) == p by { NoOps(p); }
    for i := 0 to n
      invariant AllFit(ops, n)
      invariant Changed(p.ls, ConjAll(ops, p).ls, i) && !ConjAll(ops, p).neg
      invariant HCount(ops) == CountX(p.ls[..i])
    {
      BasisChange(p.ls, ConjAll(ops, p), i);
      CountXNext(p.ls, i);
      if p.ls[i] == LX {
        ConjAllSnoc(ops, H(i), p);
        HCountSnoc(ops, H(i));
        ops := ops + [H(i)];
      } else if p.ls[i] == LY {
        ConjAllSnoc(ops, V(i), p);
        HCountSnoc(ops, V(i));
        ops := ops + [V(i)];
      }
    }
    assert p.ls[..n] == p.ls;
  }

  lemma NoOps(p: Pauli)
    ensures ConjAll([], p) == p
  {
  }

  /** The qubits on which the product has a letter, in order. */
  method NonIdentities(p: Pauli) returns (qs: seq<nat>)
    ensures forall a, b :: 0 <= a < b < |qs| ==> qs[a] < qs[b]
    ensures forall j: nat :: j in qs <==> j < |p.ls| && p.ls[j] != LI
  {
    qs := [];
    for i := 0 to |p.ls|
      invariant forall a, b :: 0 <= a < b < |qs| ==> qs[a] < qs[b]
      invariant forall j: nat :: j in qs <==> j < i && p.ls[j] != LI
    {
      if p.ls[i] != LI {
        assert forall a :: 0 <= a < |qs| ==> qs[a] in qs;
        qs := qs + [i];
      }
    }
  }

  method ExtractCliffordOperators(p: Pauli) returns (ops: seq<Op>, q: nat)
    requires !p.neg && p.ls != Blank(|p.ls|)
    ensures AllFit(ops, |p.ls|) && q < |p.ls|
    ensures ConjAll(ops, p) == Pauli(ZLetters(|p.ls|, q), false)
    ensures HCount(ops) == CountX(p.ls)
  {
    hide ConjAll, ConjCX, Blank, HCount, CountX, ZFrom, Changed;
    var n := |p.ls|;
    ops := ChangeBasis(p);
    var qs := NonIdentities(p);
    ghost var some := SomeLetter(p.ls);
    assert some in qs;
    AllZ(p.ls, ConjAll(ops, p).ls, qs);
    assert forall a :: 0 <= a < |qs| ==> qs[a] in qs;
    for m := 0 to |qs| - 1
      invariant AllFit(ops, n)
      invariant ZFrom(ConjAll(ops, p).ls, qs, m) && !ConjAll(ops, p).neg
      invariant HCount(ops) == CountX(p.ls)
    {
      LadderStep(ConjAll(ops, p), qs, m);
      HCountSnoc(ops, CX(qs[m], qs[m + 1]));
      ConjAllSnoc(ops, CX(qs[m], qs[m + 1]), p);
      ops := ops + [CX(qs[m], qs[m + 1])];
    }
    q := qs[|qs| - 1];
    LastZ(ConjAll(ops, p).ls, qs);
  }

  lemma AllZ(ls: seq<Letter>, r: seq<Letter>, qs: seq<nat>)
    requires Changed(ls, r, |ls|) && forall j: nat :: j in qs <==> j < |ls| && ls[j] != LI
    ensures ZFrom(r, qs, 0)
  {
    assert qs[0..] == qs;
  }

  lemma LastZ(r: seq<Letter>, qs: seq<nat>)
    requires |qs| > 0 && qs[|qs| - 1] < |r| && ZFrom(r, qs, |qs| - 1)
    ensures r == ZLetters(|r|, qs[|qs| - 1])
  {
    assert qs[|qs| - 1..] == [qs[|qs| - 1]];
  }

  /** A phase gate on one qubit. */
  function PhaseGate(n: nat, phase: real, q: nat): Item {
    Rot(Pauli(ZLetters(n, q), false), phase)
  }

  lemma NoRotations(n: nat)
    ensures Equivalent(n, Rots([]), [])
  {
    assert Rots([]) == [];
    EquivalentReflexive(n, []);
  }

  /** The operators of a program, without its rotations. */
  function OpsIn(items: seq<Item>): seq<Op> {
    if |items| == 0 then []
    else
      var k := |items| - 1;
      if items[k].Gate? then OpsIn(items[..k]) + [items[k].op] else OpsIn(items[..k])
  }

  /** The number of rotations in a program. */
  function RotationsIn(items: seq<Item>): nat {
    if |items| == 0 then 0
    else RotationsIn(items[..|items| - 1]) + if items[|items| - 1].Rot? then 1 else 0
  }

  lemma {:induction false} CountsConcat(a: seq<Item>, b: seq<Item>)
    ensures OpsIn(a + b) == OpsIn(a) + OpsIn(b)
    ensures RotationsIn(a + b) == RotationsIn(a) + RotationsIn(b)
  {
    if |b| == 0 {
      assert a + b == a;
    } else {
      assert (a + b)[..|a + b| - 1] == a + b[..|b| - 1];
      CountsConcat(a, b[..|b| - 1]);
    }
  }

  lemma {:induction false} ItemsOfGates(ops: seq<Op>)
    ensures OpsIn(Gates(ops)) == ops && RotationsIn(Gates(ops)) == 0
  {
    if |ops| > 0 {
      var k := |ops| - 1;
      assert Gates(ops)[..k] == Gates(ops[..k]);
      ItemsOfGates(ops[..k]);
    }
  }

  lemma BlockItems(ops: seq<Op>, g: Item)
    requires g.Rot?
    ensures OpsIn(Gates(ops) + [g] + Gates(Adjoint(ops))) == ops + Adjoint(ops)
    ensures RotationsIn(Gates(ops) + [g] + Gates(Adjoint(ops))) == 1
  {
    ItemsOfGates(ops);
    ItemsOfGates(Adjoint(ops));
    assert [g][..0] == [];
    CountsConcat(Gates(ops), [g]);
    CountsConcat(Gates(ops) + [g], Gates(Adjoint(ops)));
  }

  /** The h around the rotations of a list: two for every X of an axis. */
  function BasisChanges(rs: seq<Rotation>): nat {
    if |rs| == 0 then 0 else BasisChanges(rs[..|rs| - 1]) + 2 * CountX(rs[|rs| - 1].p.ls)
  }

  /** One rotation: the operators that take its axis to Z on a qubit, a phase gate there, and the operators undone. */
  ghost predicate IsBlock(n: nat, r: Rotation, block: seq<Item>, ops: seq<Op>, q: nat) {
    && AllFit(ops, n) && q < n && ConjAll(ops, r.p) == Pauli(ZLetters(n, q), false)
    && block == Gates(ops) + [PhaseGate(n, r.phase, q)] + Gates(Adjoint(ops))
  }

  /** One block for every rotation, in their order. */
  ghost predicate ByBlocks(n: nat, rotations: seq<Rotation>, gates: seq<Item>) {
    if |rotations| == 0 then gates == []
    else
      var k := |rotations| - 1;
      exists before: seq<Item>, block: seq<Item>, ops: seq<Op>, q: nat ::
        gates == before + block && IsBlock(n, rotations[k], block, ops, q) && ByBlocks(n, rotations[..k], before)
  }

  lemma BlockAdded(n: nat, rotations: seq<Rotation>, i: nat, before: seq<Item>, block: seq<Item>, ops: seq<Op>, q: nat)
    requires i < |rotations| && ByBlocks(n, rotations[..i], before) && IsBlock(n, rotations[i], block, ops, q)
    ensures ByBlocks(n, rotations[..i + 1], before + block)
  {
    hide IsBlock;
    assert rotations[..i + 1][..i] == rotations[..i];
  }

  /** The circuit means the list, with one phase gate for each rotation and an h on either side for every X of its axis. */
  ghost predicate DoneNaively(n: nat, rotations: seq<Rotation>, gates: seq<Item>) {
    && Equivalent(n, Rots(rotations), gates)
    && RotationsIn(gates) == |rotations| && HCount(OpsIn(gates)) == BasisChanges(rotations)
    && ByBlocks(n, rotations, gates)
  }

  lemma NothingDone(n: nat)
    ensures DoneNaively(n, [], [])
  {
    NoRotations(n);
  }

  /** The counts of one more block. */
  lemma BlockCounts(n: nat, rotations: seq<Rotation>, i: nat, gates: seq<Item>, ops: seq<Op>, g: Item)
    requires i < |rotations| && g.Rot? && HCount(ops) == CountX(rotations[i].p.ls)
    requires RotationsIn(gates) == i && HCount(OpsIn(gates)) == BasisChanges(rotations[..i])
    ensures var all := gates + (Gates(ops) + [g] + Gates(Adjoint(ops)));
      RotationsIn(all) == i + 1 && HCount(OpsIn(all)) == BasisChanges(rotations[..i + 1])
  {
    hide HCount, OpsIn, RotationsIn, CountX, Gates, Adjoint;
    BlockItems(ops, g);
    CountsConcat(gates, Gates(ops) + [g] + Gates(Adjoint(ops)));
    HCountConcat(OpsIn(gates), ops + Adjoint(ops));
    HCountConcat(ops, Adjoint(ops));
    HCountAdjoint(ops);
    assert rotations[..i + 1][..i] == rotations[..i];
  }

  lemma BlockMeaning(n: nat, rotations: seq<Rotation>, i: nat, gates: seq<Item>, ops: seq<Op>, q: nat)
    requires AllNormal(rotations, n) && i < |rotations| && AllFit(ops, n) && q < n
    requires Equivalent(n, Rots(rotations[..i]), gates) && ConjAll(ops, rotations[i].p) == Pauli(ZLetters(n, q), false)
    ensures Equivalent(n, Rots(rotations[..i + 1]), gates + (Gates(ops) + [PhaseGate(n, rotations[i].phase, q)] + Gates(Adjoint(ops))))
  {
    hide Equivalent;
    var r := rotations[i];
    var block := Gates(ops) + [PhaseGate(n, r.phase, q)] + Gates(Adjoint(ops));
    DiagonalizedRotation(n, r.p, r.phase, ops, q);
    EquivalentBefore(n, Rots(rotations[..i]), gates, [Item1(r)]);
    EquivalentAfter(n, gates, [Item1(r)], block);
    EquivalentTransitive(n, Rots(rotations[..i]) + [Item1(r)], gates + [Item1(r)], gates + block);
    assert Rots(rotations[..i + 1]) == Rots(rotations[..i]) + [Item1(r)];
  }

  lemma BlockDone(n: nat, rotations: seq<Rotation>, i: nat, gates: seq<Item>, block: seq<Item>, ops: seq<Op>, q: nat)
    requires AllNormal(rotations, n) && i < |rotations| && DoneNaively(n, rotations[..i], gates)
    requires IsBlock(n, rotations[i], block, ops, q) && HCount(ops) == CountX(rotations[i].p.ls)
    ensures DoneNaively(n, rotations[..i + 1], gates + block)
  {
    hide Equivalent, HCount, OpsIn, RotationsIn, CountX, ByBlocks, Rots, Gates, Adjoint, BasisChanges;
    BlockMeaning(n, rotations, i, gates, ops, q);
    BlockAdded(n, rotations, i, gates, block, ops, q);
    BlockCounts(n, rotations, i, gates, ops, PhaseGate(n, rotations[i].phase, q));
  }

  /** Every rotation is surrounded by the operators that diagonalize it. */
  method NaiveSynthesize(n: nat, rotations: seq<Rotation>) returns (qcir: seq<Item>)
    requires AllNormal(rotations, n)
    requires forall i :: 0 <= i < |rotations| ==> rotations[i].p.ls != Blank(n)
    ensures DoneNaively(n, rotations, qcir)
  {
    hide DoneNaively;
    qcir := [];
    NothingDone(n);
    for i := 0 to |rotations|
      invariant DoneNaively(n, rotations[..i], qcir)
    {
      var r := rotations[i];
      var ops, q := ExtractCliffordOperators(r.p);
      var block := Gates(ops) + [PhaseGate(n, r.phase, q)] + Gates(Adjoint(ops));
      BlockDone(n, rotations, i, qcir, block, ops, q);
      qcir := qcir + block;
    }
    assert rotations[..|rotations|] == rotations;
  }
}
