/**
 Making rotations proper: the multiples of a quarter turn are split off every rotation,
 from the last to the first, and absorbed into the Clifford in front.
 */
module TableauProperization {
  import opened PauliAlgebra
  import opened CliffordOps
  import opened CliffordTableaux
  import opened StabilizerTableaux
  import opened ProgramSemantics
  import opened PauliRotations
  import opened RotationDiagonalization
  import opened TableauOptimization

  /** A phase from zero up to, but not including, a quarter turn. */
  predicate Proper(phase: real) { 0.0 <= phase < 0.5 }

  predicate Differ(phase: real, rest: real, complement: real, m: int) { rest + complement == phase + 2.0 * m as real }

  /** The rest and the complement make up the phase, up to full turns. */
  ghost predicate MakesUp(phase: real, rest: real, complement: real) { exists m: int :: Differ(phase, rest, complement, m) }

  /** How often a quarter turn has to be taken off. */
  function Quarters(phase: real): nat
    requires -1.0 < phase <= 1.0
  {
    if phase < -0.5 then 2 else if phase < 0.0 then 3 else if phase < 0.5 then 0 else if phase < 1.0 then 1 else 2
  }

  lemma TakeQuarter(phase: real)
    requires -1.0 < phase <= 1.0 && !Proper(phase)
    ensures Quarters(Normalize(phase - 0.5)) == Quarters(phase) - 1
  {
    if phase <= -0.5 {
      NormalizeUnique(phase - 0.5, phase + 1.5, -1);
    } else {
      NormalizeFixed(phase - 0.5);
    }
  }

  /** The complement after k quarter turns. */
  function Complement(k: nat): real
    requires k <= 3
  {
    if k == 0 then 0.0 else if k == 1 then 0.5 else if k == 2 then 1.0 else -0.5
  }

  lemma NextComplement(k: nat)
    requires k < 3
    ensures Normalize(Complement(k) + 0.5) == Complement(k + 1)
  {
    if k == 2 {
      NormalizeUnique(1.5, -0.5, 1);
    } else {
      NormalizeFixed(Complement(k) + 0.5);
    }
  }

  lemma StillMakesUp(phase: real, rest: real, complement: real)
    requires MakesUp(phase, rest, complement)
    ensures MakesUp(phase, Normalize(rest - 0.5), Normalize(complement + 0.5))
  {
    var m: int :| Differ(phase, rest, complement, m);
    var a: int :| Turns(Normalize(rest - 0.5), rest - 0.5, a);
    var b: int :| Turns(Normalize(complement + 0.5), complement + 0.5, b);
    assert Differ(phase, Normalize(rest - 0.5), Normalize(complement + 0.5), m - a - b);
  }

  /** Takes quarter turns off a phase until it is proper. */
  method SplitPhase(phase: real) returns (rest: real, complement: real)
    requires -1.0 < phase <= 1.0
    ensures Proper(rest) && MakesUp(phase, rest, complement)
    ensures complement == Complement(Quarters(phase))
  {
    rest, complement := phase, 0.0;
    assert Differ(phase, phase, 0.0, 0);
    while !Proper(rest)
      invariant -1.0 < rest <= 1.0 && MakesUp(phase, rest, complement)
      invariant Quarters(rest) <= Quarters(phase) && complement == Complement(Quarters(phase) - Quarters(rest))
      decreases Quarters(rest)
    {
      TakeQuarter(rest);
      StillMakesUp(phase, rest, complement);
      NextComplement(Quarters(phase) - Quarters(rest));
      rest := Normalize(rest - 0.5);
      complement := Normalize(complement + 0.5);
    }
  }

  /** A rotation is the same as its complement followed by its rest. */
  lemma SplitRotation(n: nat, p: Pauli, phase: real, rest: real, complement: real)
    requires |p.ls| == n && -1.0 < phase <= 1.0 && MakesUp(phase, rest, complement)
    ensures Equivalent(n, [Rot(p, phase)], [Rot(p, complement), Rot(p, rest)])
  {
    var m: int :| Differ(phase, rest, complement, m);
    FuseRotations(n, p, complement, rest);
    NormalizeRotation(n, p, complement + rest);
    NormalizeUnique(complement + rest, phase, m);
    EquivalentTransitive(n, [Rot(p, complement), Rot(p, rest)], [Rot(p, complement + rest)], [Rot(p, phase)]);
    EquivalentSymmetric(n, [Rot(p, complement), Rot(p, rest)], [Rot(p, phase)]);
  }

  /** The list with rotation i written as complement and rest. */
  function SplitAt(rs: seq<Rotation>, i: nat, complement: real, rest: real): seq<Rotation>
    requires i < |rs|
  {
    rs[..i] + [rs[i].(phase := complement), rs[i].(phase := rest)] + rs[i + 1..]
  }

  lemma SplitAtMeaning(n: nat, rs: seq<Rotation>, i: nat, complement: real, rest: real)
    requires AllNormal(rs, n) && i < |rs| && MakesUp(rs[i].phase, rest, complement)
    ensures Equivalent(n, Rots(rs), Rots(SplitAt(rs, i, complement, rest)))
  {
    var a, b, r := rs[..i], rs[i + 1..], rs[i];
    var two := [Rot(r.p, complement), Rot(r.p, rest)];
    SplitRotation(n, r.p, r.phase, rest, complement);
    EquivalentWithin(n, Rots(a), [Item1(r)], two, Rots(b));
    assert Rots(rs) == Rots(a) + [Item1(r)] + Rots(b);
    assert Rots(SplitAt(rs, i, complement, rest)) == Rots(a) + two + Rots(b);
  }

  /** Absorbing the complement: what stays of rotation i is its rest. */
  lemma ProperMeaning(n: nat, circuit: seq<Op>, rs: seq<Rotation>, i: nat, complement: real, rest: real, ops: seq<Op>, q: nat)
    requires AllFit(circuit, n) && AllNormal(rs, n) && i < |rs| && Proper(rest)
    requires MakesUp(rs[i].phase, rest, complement) && CliffordAngle(rs[i].(phase := complement))
    requires Diagonalizes(ops, rs[i].p, q, n)
    ensures
      var g := TurnCircuit(ops, complement, q);
      Equivalent(n, Gates(circuit) + Rots(rs), Gates(circuit + g) + Rots(ConjFirst(g, rs, i)[i := rs[i].(phase := rest)]))
  {
    var g := TurnCircuit(ops, complement, q);
    var split := SplitAt(rs, i, complement, rest);
    var absorbed := ConjFirst(g, split, i)[i := split[i].(phase := 0.0)];
    var result := ConjFirst(g, rs, i)[i := rs[i].(phase := rest)];
    SplitAtMeaning(n, rs, i, complement, rest);
    EquivalentAfter(n, Gates(circuit), Rots(rs), Rots(split));
    AbsorbMeaning(n, circuit, split, i, ops, q);
    EquivalentTransitive(n, Gates(circuit) + Rots(rs), Gates(circuit) + Rots(split), Gates(circuit + g) + Rots(absorbed));
    DropZero(n, absorbed, i);
    WithoutSplit(g, rs, i, complement, rest);
    EquivalentAfter(n, Gates(circuit + g), Rots(absorbed), Rots(result));
    EquivalentTransitive(n, Gates(circuit) + Rots(rs), Gates(circuit + g) + Rots(absorbed), Gates(circuit + g) + Rots(result));
  }

  lemma WithoutSplit(g: seq<Op>, rs: seq<Rotation>, i: nat, complement: real, rest: real)
    requires i < |rs|
    ensures
      var split := SplitAt(rs, i, complement, rest);
      var absorbed := ConjFirst(g, split, i)[i := split[i].(phase := 0.0)];
      absorbed[..i] + absorbed[i + 1..] == ConjFirst(g, rs, i)[i := rs[i].(phase := rest)]
  {
  }

  lemma DropZero(n: nat, rs: seq<Rotation>, i: nat)
    requires i < |rs| && rs[i].phase == 0.0 && |rs[i].p.ls| == n
    ensures Equivalent(n, Rots(rs), Rots(rs[..i] + rs[i + 1..]))
  {
    DropRotation(n, rs[i].p, 0.0);
    EquivalentWithin(n, Rots(rs[..i]), [Item1(rs[i])], [], Rots(rs[i + 1..]));
    assert Rots(rs) == Rots(rs[..i]) + [Item1(rs[i])] + Rots(rs[i + 1..]);
    assert Rots(rs[..i] + rs[i + 1..]) == Rots(rs[..i]) + [] + Rots(rs[i + 1..]);
  }

  /** Conjugates the Clifford and the first i rotations by the turn about the axis of rotation i. */
  method AbsorbTurn(clifford: StabilizerTableau, list: RotationList, i: nat, complement: real, ghost circuit: seq<Op>)
    returns (ghost ops: seq<Op>, ghost q: nat)
    requires AllFit(circuit, clifford.n) && clifford.rows == TableauOf(clifford.n, circuit)
    requires AllNormal(list.rs, clifford.n) && NoBlankAxis(list.rs, clifford.n) && i < |list.rs|
    requires complement == 0.5 || complement == -0.5 || complement == 1.0
    modifies clifford, list
    ensures Diagonalizes(ops, old(list.rs)[i].p, q, clifford.n)
    ensures AllFit(circuit + TurnCircuit(ops, complement, q), clifford.n)
    ensures clifford.rows == TableauOf(clifford.n, circuit + TurnCircuit(ops, complement, q))
    ensures list.rs == ConjFirst(TurnCircuit(ops, complement, q), old(list.rs), i)
  {
    var n := clifford.n;
    var view := new ConjugationView(clifford, list, i);
    var found, qubit := ExtractCliffordOperators(list.rs[i].p);
    ops, q := found, qubit;
    ghost var g := TurnCircuit(ops, complement, q);
    TurnCircuitFits(ops, complement, q, n);
    AdjointFits(ops, n);
    view.ApplyAll(found);
    ConjFirstNormal(ops, old(list.rs), i, n);
    view.ApplyAll([TurnGate(complement, qubit)]);
    ConjFirstAfter(ops, [TurnGate(complement, q)], old(list.rs), i, n);
    ConjRowsConcat(ops, [TurnGate(complement, q)], old(clifford.rows));
    view.ApplyAll(Adjoint(found));
    ConjFirstAfter(ops + [TurnGate(complement, q)], Adjoint(ops), old(list.rs), i, n);
    ConjRowsConcat(ops + [TurnGate(complement, q)], Adjoint(ops), old(clifford.rows));
    TableauConcat(n, circuit, g);
  }

  /** Makes all rotations proper and keeps the meaning; what is left is neither zero nor about the identity. */
  method Properize(clifford: StabilizerTableau, list: RotationList, ghost circuit: seq<Op>) returns (ghost circuit': seq<Op>)
    requires AllFit(circuit, clifford.n) && clifford.rows == TableauOf(clifford.n, circuit)
    requires AllNormal(list.rs, clifford.n)
    modifies clifford, list
    ensures AllFit(circuit', clifford.n) && clifford.rows == TableauOf(clifford.n, circuit')
    ensures AllNormal(list.rs, clifford.n) && |list.rs| <= |old(list.rs)|
    ensures Equivalent(clifford.n, Gates(circuit) + Rots(old(list.rs)), Gates(circuit') + Rots(list.rs))
    ensures forall i :: 0 <= i < |list.rs| ==> Proper(list.rs[i].phase) && !Trivial(list.rs[i])
  {
    var n := clifford.n;
    ghost var prog := Gates(circuit) + Rots(list.rs);
    list.MergeRotations(n);
    EquivalentAfter(n, Gates(circuit), Rots(old(list.rs)), Rots(list.rs));
    circuit' := circuit;
    assert NoBlankAxis(list.rs, n);
    var size := |list.rs|;
    var i := size;
    while i > 0
      invariant 0 <= i <= size == |list.rs| && AllNormal(list.rs, n) && NoBlankAxis(list.rs, n)
      invariant AllFit(circuit', n) && clifford.rows == TableauOf(n, circuit')
      invariant Equivalent(n, prog, Gates(circuit') + Rots(list.rs))
      invariant forall j :: i <= j < size ==> Proper(list.rs[j].phase)
    {
      i := i - 1;
      circuit' := ProperizeOne(clifford, list, i, circuit', prog);
    }
    KeptMeaning(n, list.rs);
    EquivalentAfter(n, Gates(circuit'), Rots(list.rs), Rots(Kept(list.rs)));
    EquivalentTransitive(n, prog, Gates(circuit') + Rots(list.rs), Gates(circuit') + Rots(Kept(list.rs)));
    ghost var before := list.rs;
    list.RemoveIdentities();
    forall j | 0 <= j < |list.rs| ensures Proper(list.rs[j].phase) {
      assert list.rs[j] in before;
    }
  }

  /** Makes rotation i proper; later rotations stay as they are. */
  method ProperizeOne(clifford: StabilizerTableau, list: RotationList, i: nat, ghost circuit: seq<Op>, ghost prog: seq<Item>)
    returns (ghost circuit': seq<Op>)
    requires AllFit(circuit, clifford.n) && clifford.rows == TableauOf(clifford.n, circuit)
    requires AllNormal(list.rs, clifford.n) && NoBlankAxis(list.rs, clifford.n) && i < |list.rs|
    requires Equivalent(clifford.n, prog, Gates(circuit) + Rots(list.rs))
    modifies clifford, list
    ensures AllFit(circuit', clifford.n) && clifford.rows == TableauOf(clifford.n, circuit')
    ensures AllNormal(list.rs, clifford.n) && NoBlankAxis(list.rs, clifford.n) && |list.rs| == |old(list.rs)|
    ensures Equivalent(clifford.n, prog, Gates(circuit') + Rots(list.rs))
    ensures Proper(list.rs[i].phase) && forall j :: i < j < |list.rs| ==> list.rs[j] == old(list.rs)[j]
  {
    var n := clifford.n;
    ghost var rs := list.rs;
    circuit' := circuit;
    var rest, complement := SplitPhase(list.rs[i].phase);
    if complement == 0.0 {
      return;
    }
    ghost var ops, q := AbsorbTurn(clifford, list, i, complement, circuit);
    ghost var g := TurnCircuit(ops, complement, q);
    ConjFirstNormal(g, rs, i, n);
    TurnCircuitFits(ops, complement, q, n);
    ConjFirstNonblank(g, rs, i, n);
    list.rs := list.rs[i := list.rs[i].(phase := rest)];
    circuit' := circuit + g;
    ProperMeaning(n, circuit, rs, i, complement, rest, ops, q);
    EquivalentTransitive(n, prog, Gates(circuit) + Rots(rs), Gates(circuit') + Rots(list.rs));
  }
}
