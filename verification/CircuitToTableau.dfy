/**
 Translation of circuits into tableaux: Clifford gates are appended, other phases and
 rotations become Pauli rotations between two changes of the plane.
 */
module CircuitToTableau {
  import opened Sequences
  import opened PauliAlgebra
  import opened CliffordOps
  import opened StabilizerTableaux
  import opened ProgramSemantics
  import opened PauliRotations
  import opened DiagonalCircuits
  import opened DiagonalPhases
  import opened TableauOptimization
  import opened Tableaux
  import opened QcirToTableau
  import opened ControlledTurns

  // ---------- gates ----------

  /**
   The gates: phases and rotations about an axis act on their last qubit and are controlled by all others; what the
   translation does not know is Unknown.
   */
  datatype CircuitGate =
    | Id
    | Fixed(op: Op)
    | Phase(axis: Plane, angle: real, qubits: seq<nat>)
    | Rotate(axis: Plane, angle: real, qubits: seq<nat>)
    | Unknown

  predicate QubitsOk(qubits: seq<nat>, n: nat) { |qubits| > 0 && Distinct(qubits) && Below(qubits, n) }

  predicate GateOk(g: CircuitGate, n: nat) {
    match g
    case Id => true
    case Fixed(op) => (op.H? || op.Swap? || op.Ecr?) && op.Fits(n)
    case Phase(_, angle, qubits) => -1.0 < angle <= 1.0 && QubitsOk(qubits, n)
    case Rotate(_, angle, qubits) => -1.0 < angle <= 1.0 && QubitsOk(qubits, n)
    case Unknown => true
  }

  function Last(qubits: seq<nat>): nat
    requires |qubits| > 0
  {
    qubits[|qubits| - 1]
  }

  // ---------- meaning ----------

  /** Diagonal rotations seen from another plane of qubit q. */
  function Sandwich(axis: Plane, q: nat, rs: seq<Rotation>): seq<Item> {
    Gates(Into(axis, q)) + Rots(rs) + Gates(Back(axis, q))
  }

  /** What a gate means. */
  function Meaning(n: nat, g: CircuitGate): seq<Item>
    requires GateOk(g, n)
  {
    match g
    case Id => []
    case Fixed(op) => Gates([op])
    case Phase(axis, angle, qubits) => Sandwich(axis, Last(qubits), Expansion(n, qubits, Share(angle, |qubits|), |qubits|))
    case Rotate(axis, angle, qubits) => Sandwich(axis, Last(qubits), RightTurn(n, qubits, angle))
    case Unknown => []
  }

  /** What the translation makes of a gate. */
  function Done(n: nat, g: CircuitGate): seq<Item>
    requires GateOk(g, n)
  {
    match g
    case Rotate(axis, angle, qubits) =>
      Sandwich(axis, Last(qubits), TurnExpansion(n, qubits, Last(qubits), Share(angle, |qubits|), |qubits|))
    case _ => Meaning(n, g)
  }

  /** The gates that are translated correctly: all but controlled rotations by an angle that is not zero. */
  predicate Right(g: CircuitGate) { g.Rotate? ==> |g.qubits| == 1 || g.angle == 0.0 }

  lemma SandwichWithin(n: nat, axis: Plane, q: nat, a: seq<Rotation>, b: seq<Rotation>)
    requires Equivalent(n, Rots(a), Rots(b))
    ensures Equivalent(n, Sandwich(axis, q, a), Sandwich(axis, q, b))
  {
    EquivalentWithin(n, Gates(Into(axis, q)), Rots(a), Rots(b), Gates(Back(axis, q)));
  }

  /** A change of the plane and back, the other way round. */
  lemma PlaneRedone(n: nat, q: nat, axis: Plane)
    requires q < n
    ensures Equivalent(n, Gates(Back(axis, q)) + Gates(Into(axis, q)), [])
  {
    assert Into(axis, q) == Adjoint(Back(axis, q));
    PlaneUndone(n, q, axis);
    AdjointIsInverse(n, Back(axis, q));
  }

  /** Seen from another plane, lists mean the same exactly if they do as they are. */
  lemma SandwichIff(n: nat, axis: Plane, q: nat, a: seq<Rotation>, b: seq<Rotation>)
    requires q < n
    ensures Equivalent(n, Sandwich(axis, q, a), Sandwich(axis, q, b)) <==> Equivalent(n, Rots(a), Rots(b))
  {
    hide Equivalent, Into, Back;
    var i, o := Gates(Into(axis, q)), Gates(Back(axis, q));
    if Equivalent(n, Sandwich(axis, q, a), Sandwich(axis, q, b)) {
      PlaneRedone(n, q, axis);
      CancelRight(n, i + Rots(a), i + Rots(b), o, i);
      CancelLeft(n, i, o, Rots(a), Rots(b));
    }
    if Equivalent(n, Rots(a), Rots(b)) {
      SandwichWithin(n, axis, q, a, b);
    }
  }

  lemma CancelLeft(n: nat, l: seq<Item>, inv: seq<Item>, a: seq<Item>, b: seq<Item>)
    requires Equivalent(n, l + a, l + b) && Equivalent(n, inv + l, [])
    ensures Equivalent(n, a, b)
  {
    hide Equivalent;
    EquivalentAfter(n, inv, l + a, l + b);
    EquivalentBefore(n, inv + l, [], a);
    EquivalentBefore(n, inv + l, [], b);
    assert inv + (l + a) == inv + l + a && inv + (l + b) == inv + l + b && [] + a == a && [] + b == b;
    EquivalentSymmetric(n, inv + l + a, a);
    EquivalentTransitive(n, a, inv + l + a, inv + l + b);
    EquivalentTransitive(n, a, inv + l + b, b);
  }

  // ---------- what the meaning says ----------

  /** A controlled phase is every list of diagonal rotations that gives the phase where all qubits are set, seen from the plane. */
  lemma PhaseMeaning(k: Trig, n: nat, axis: Plane, angle: real, qubits: seq<nat>, rs: seq<Rotation>)
    requires Lawful(k) && Faithful(k) && QubitsOk(qubits, n) && -1.0 < angle <= 1.0 && AllNormal(rs, n) && AllDiagonal(rs)
    ensures AllLong(rs, n)
    ensures Equivalent(n, Meaning(n, Phase(axis, angle, qubits)), Sandwich(axis, Last(qubits), rs)) <==> ControlledPhase(n, qubits, angle, rs)
  {
    hide Equivalent, Lawful, Faithful, AllNormal, AllDiagonal, Sandwich, Distinct;
    McpMeaning(k, n, qubits, qubits, angle, rs);
    SandwichIff(n, axis, Last(qubits), Expansion(n, qubits, Share(angle, |qubits|), |qubits|), rs);
  }

  /** A controlled rotation is every list that turns the target by the angle where all controls are set. */
  lemma RotateMeaning(k: Trig, n: nat, axis: Plane, angle: real, qubits: seq<nat>, rs: seq<Rotation>)
    requires Lawful(k) && Faithful(k) && QubitsOk(qubits, n) && -1.0 < angle <= 1.0 && AllNormal(rs, n) && AllDiagonal(rs)
    ensures AllLong(rs, n)
    ensures Equivalent(n, Meaning(n, Rotate(axis, angle, qubits)), Sandwich(axis, Last(qubits), rs)) <==> ControlledTurn(n, qubits, angle, rs)
  {
    hide Equivalent, Lawful, Faithful, AllNormal, AllDiagonal, Sandwich, Distinct, RightTurn, ControlledTurn, SamePhases;
    var right := RightTurn(n, qubits, angle);
    RightTurnNormal(n, qubits, angle);
    RightTurnIsRight(n, qubits, angle);
    MeaningIsPhase(k, n, right, rs);
    TurnsAlike(n, qubits, angle, right, rs);
    SandwichIff(n, axis, Last(qubits), right, rs);
  }

  lemma TurnsAlike(n: nat, qubits: seq<nat>, angle: real, a: seq<Rotation>, b: seq<Rotation>)
    requires |qubits| > 0 && Below(qubits, n) && AllLong(a, n) && AllLong(b, n) && ControlledTurn(n, qubits, angle, a)
    ensures SamePhases(n, a, b) <==> ControlledTurn(n, qubits, angle, b)
  {
    hide Congruent, PhaseAt, TurnOn, Below;
    forall x: seq<bool> | |x| == n ensures Congruent(PhaseAt(a, x), PhaseAt(b, x)) <==> TurnsRight(n, qubits, angle, b, x) {
      assert TurnsRight(n, qubits, angle, a, x);
      CongruentTo(PhaseAt(a, x), TurnOn(qubits, angle, x) - TurnOn(qubits, angle, Zeros(n)), PhaseAt(b, x));
    }
  }

  /** What is made of a gate has its meaning if and only if it is no controlled rotation by an angle that is not zero. */
  lemma DoneIffRight(k: Trig, n: nat, g: CircuitGate)
    requires Lawful(k) && Faithful(k) && GateOk(g, n)
    ensures Equivalent(n, Meaning(n, g), Done(n, g)) <==> Right(g)
  {
    hide Equivalent, Lawful, Faithful, Sandwich, Distinct, Below, RightTurn, TurnExpansion, ControlledTurn, Share;
    if g.Rotate? {
      var q, m := Last(g.qubits), |g.qubits|;
      TurnNormal(n, g.qubits, q, Share(g.angle, m), m);
      RotateMeaning(k, n, g.axis, g.angle, g.qubits, TurnExpansion(n, g.qubits, q, Share(g.angle, m), m));
      TurnRightIff(n, g.qubits, g.qubits, g.angle);
    } else {
      EquivalentReflexive(n, Meaning(n, g));
    }
  }

  /** One direction needs no trigonometric functions. */
  lemma RightIsDone(n: nat, g: CircuitGate)
    requires GateOk(g, n) && Right(g)
    ensures Equivalent(n, Meaning(n, g), Done(n, g))
  {
    hide Equivalent, Distinct, RightTurn, TurnExpansion, ControlledTurn, Share, Sandwich;
    if g.Rotate? {
      var q, m := Last(g.qubits), |g.qubits|;
      var right, pushed := RightTurn(n, g.qubits, g.angle), TurnExpansion(n, g.qubits, q, Share(g.angle, m), m);
      TurnNormal(n, g.qubits, q, Share(g.angle, m), m);
      RightTurnNormal(n, g.qubits, g.angle);
      RightTurnIsRight(n, g.qubits, g.angle);
      TurnRightIff(n, g.qubits, g.qubits, g.angle);
      TurnsAlike(n, g.qubits, g.angle, right, pushed);
      SamePhasesSameMeaning(n, right, pushed);
      SandwichWithin(n, g.axis, q, right, pushed);
    } else {
      EquivalentReflexive(n, Meaning(n, g));
    }
  }

  // ---------- gates that are Clifford ----------

  /** The operators the translation applies instead of a phase or a rotation, if there are any. */
  function Shortcut(g: CircuitGate): seq<Op> {
    match g
    case Phase(axis, angle, qubits) =>
      if |qubits| == 1 then Turn(axis, angle, qubits[0])
      else if |qubits| == 2 && angle == 1.0 then ControlledPauli(axis, qubits[0], qubits[1])
      else []
    case Rotate(axis, angle, qubits) => if |qubits| == 1 then Turn(axis, angle, qubits[0]) else []
    case _ => []
  }

  function Turn(axis: Plane, angle: real, q: nat): seq<Op> {
    if angle == 1.0 then [match axis case PlaneX => X(q) case PlaneY => Y(q) case PlaneZ => Z(q)]
    else if angle == 0.5 then
      match axis case PlaneX => [V(q)] case PlaneY => [Sdg(q), V(q), S(q)] case PlaneZ => [S(q)]
    else if angle == -0.5 then
      match axis case PlaneX => [Vdg(q)] case PlaneY => [Sdg(q), Vdg(q), S(q)] case PlaneZ => [Sdg(q)]
    else []
  }

  function ControlledPauli(axis: Plane, c: nat, t: nat): seq<Op> {
    match axis
    case PlaneX => [CX(c, t)]
    case PlaneY => [Sdg(t), CX(c, t), S(t)]
    case PlaneZ => [CZ(c, t)]
  }

  lemma ConjAllThree(a: Op, b: Op, c: Op, p: Pauli)
    ensures ConjAll([a, b, c], p) == Conj(c, Conj(b, Conj(a, p)))
  {
    hide Conj;
    assert [a, b, c][..2] == [a, b] && [a, b][..1] == [a];
    ConjAllOne(a, p);
  }

  lemma RowsLong(n: nat)
    ensures forall i :: 0 <= i < 2 * n ==> |Identity(n)[i].ls| == n
  {
  }

  /** Strings that conjugate all products alike mean the same. */
  lemma SameConjSameMeaning(n: nat, a: seq<Op>, b: seq<Op>)
    requires AllFit(a, n) && AllFit(b, n) && forall p: Pauli :: |p.ls| == n ==> ConjAll(a, p) == ConjAll(b, p)
    ensures Equivalent(n, Gates(a), Gates(b))
  {
    hide ConjAll, Equivalent, Generator;
    assert TableauOf(n, a) == TableauOf(n, b) by {
      var g := Identity(n);
      assert forall i :: 0 <= i < |g| ==> |g[i].ls| == n ==> ConjAll(a, g[i]) == ConjAll(b, g[i]);
      RowsLong(n);
    }
    SameTableauSameMeaning(n, a, b);
  }

  /** On one qubit: the turn between the plane changes and the operators applied conjugate alike. */
  lemma TurnsConjugateAlike(axis: Plane, angle: real, q: nat, p: Pauli)
    requires q < |p.ls| && (angle == 1.0 || angle == 0.5 || angle == -0.5)
    ensures ConjAll(Into(axis, q) + [TurnGate(angle, q)] + Back(axis, q), p) == ConjAll(Turn(axis, angle, q), p)
  {
    match axis
    case PlaneX => TurnsX(angle, q, p);
    case PlaneY => TurnsY(angle, q, p);
    case PlaneZ => assert Into(axis, q) + [TurnGate(angle, q)] + Back(axis, q) == Turn(axis, angle, q);
  }

  lemma TurnsX(angle: real, q: nat, p: Pauli)
    requires q < |p.ls| && (angle == 1.0 || angle == 0.5 || angle == -0.5)
    ensures ConjAll(Into(PlaneX, q) + [TurnGate(angle, q)] + Back(PlaneX, q), p) == ConjAll(Turn(PlaneX, angle, q), p)
  {
    hide ConjAll, ConjV, ConjVdg, ConjX, ConjY, ConjZ, ConjS, ConjSdg, ConjH, Conj;
    var g, r := TurnGate(angle, q), Turn(PlaneX, angle, q)[0];
    assert Into(PlaneX, q) + [g] + Back(PlaneX, q) == [H(q), g, H(q)] && Turn(PlaneX, angle, q) == [r];
    ConjAllThree(H(q), g, H(q), p);
    ConjAllOne(r, p);
    XAgree(p, q);
  }

  lemma XAgree(p: Pauli, q: nat)
    ensures Conj(H(q), Conj(Z(q), Conj(H(q), p))) == Conj(X(q), p)
    ensures Conj(H(q), Conj(S(q), Conj(H(q), p))) == Conj(V(q), p)
    ensures Conj(H(q), Conj(Sdg(q), Conj(H(q), p))) == Conj(Vdg(q), p)
  {
    hide ConjV, ConjVdg, ConjX, ConjZ, ConjS, ConjSdg, ConjH;
    XTurns(p, q);
  }

  lemma TurnsY(angle: real, q: nat, p: Pauli)
    requires q < |p.ls| && (angle == 1.0 || angle == 0.5 || angle == -0.5)
    ensures ConjAll(Into(PlaneY, q) + [TurnGate(angle, q)] + Back(PlaneY, q), p) == ConjAll(Turn(PlaneY, angle, q), p)
  {
    hide ConjAll, ConjV, ConjVdg, ConjX, ConjY, ConjZ, ConjS, ConjSdg, ConjH, Conj;
    var g := TurnGate(angle, q);
    assert Into(PlaneY, q) + [g] + Back(PlaneY, q) == [V(q), g, Vdg(q)];
    ConjAllThree(V(q), g, Vdg(q), p);
    YAgree(p, q);
    if angle == 1.0 {
      ConjAllOne(Y(q), p);
    } else {
      ConjAllThree(Sdg(q), if angle == 0.5 then V(q) else Vdg(q), S(q), p);
    }
  }

  lemma YAgree(p: Pauli, q: nat)
    requires q < |p.ls|
    ensures Conj(Vdg(q), Conj(Z(q), Conj(V(q), p))) == Conj(Y(q), p)
    ensures Conj(Vdg(q), Conj(S(q), Conj(V(q), p))) == Conj(S(q), Conj(V(q), Conj(Sdg(q), p)))
    ensures Conj(Vdg(q), Conj(Sdg(q), Conj(V(q), p))) == Conj(S(q), Conj(Vdg(q), Conj(Sdg(q), p)))
  {
    hide ConjV, ConjVdg, ConjX, ConjY, ConjZ, ConjS, ConjSdg, ConjH;
    YForms(p, q);
    YTurns(p, q);
  }

  lemma XTurns(p: Pauli, q: nat)
    ensures ConjX(p, q) == ConjH(ConjZ(ConjH(p, q), q), q)
    ensures ConjV(p, q) == ConjH(ConjS(ConjH(p, q), q), q) && ConjVdg(p, q) == ConjH(ConjSdg(ConjH(p, q), q), q)
  {
  }

  lemma YForms(p: Pauli, q: nat)
    requires q < |p.ls|
    ensures ConjVdg(ConjZ(ConjV(p, q), q), q) == ConjY(p, q)
  {
    hide ConjV, ConjVdg, ConjX;
    VForm(p, q);
    VdgForm(ConjZ(ConjV(p, q), q), q);
    XForm(p, q);
    assert ConjVdg(ConjZ(ConjV(p, q), q), q).ls == p.ls == ConjY(p, q).ls;
  }

  lemma YTurns(p: Pauli, q: nat)
    requires q < |p.ls|
    ensures ConjVdg(ConjS(ConjV(p, q), q), q) == ConjS(ConjV(ConjSdg(p, q), q), q)
    ensures ConjVdg(ConjSdg(ConjV(p, q), q), q) == ConjS(ConjVdg(ConjSdg(p, q), q), q)
  {
    hide ConjV, ConjVdg, ConjSdg;
    VForm(p, q);
    SdgForm(p, q);
    var v, d := ConjV(p, q), ConjSdg(p, q);
    VdgForm(ConjS(v, q), q);
    VForm(d, q);
    assert ConjVdg(ConjS(v, q), q).ls == ConjS(ConjV(d, q), q).ls;
    SdgForm(v, q);
    VdgForm(ConjSdg(v, q), q);
    VdgForm(d, q);
    assert ConjVdg(ConjSdg(v, q), q).ls == ConjS(ConjVdg(d, q), q).ls;
  }

  /** The expansion on one qubit is one rotation. */
  lemma OneRotation(n: nat, q: nat, angle: real)
    requires q < n && -1.0 < angle <= 1.0
    ensures Expansion(n, [q], Share(angle, 1), 1) == [Rotation(Pauli(ZLetters(n, q), false), angle)]
  {
    SelectAllOfThem([q]);
    NormalizeFixed(angle);
    assert ZOn(n, [q]) == ZLetters(n, q);
    assert Expansion(n, [q], Share(angle, 1), 0) == [];
    assert Share(angle, 1) == angle;
    assert SizePhase(angle, 1) == angle;
  }

  lemma TurnShortcut(n: nat, axis: Plane, angle: real, q: nat)
    requires q < n && (angle == 1.0 || angle == 0.5 || angle == -0.5)
    ensures AllFit(Turn(axis, angle, q), n)
    ensures Equivalent(n, Sandwich(axis, q, Expansion(n, [q], Share(angle, 1), 1)), Gates(Turn(axis, angle, q)))
  {
    hide Equivalent, ConjAll, Conj, TurnGate;
    var rs := Expansion(n, [q], Share(angle, 1), 1);
    var z, g := Rot(Pauli(ZLetters(n, q), false), angle), TurnGate(angle, q);
    var i, o := Into(axis, q), Back(axis, q);
    OneRotation(n, q, angle);
    assert Rots(rs) == [z];
    TurnIsGate(n, q, angle);
    EquivalentWithin(n, Gates(i), [z], [Gate(g)], Gates(o));
    GatesConcat(i + [g], o);
    GatesConcat(i, [g]);
    assert Gates([g]) == [Gate(g)];
    TurnFits(n, axis, angle, q);
    forall p: Pauli | |p.ls| == n ensures ConjAll(i + [g] + o, p) == ConjAll(Turn(axis, angle, q), p) {
      TurnsConjugateAlike(axis, angle, q, p);
    }
    SameConjSameMeaning(n, i + [g] + o, Turn(axis, angle, q));
    EquivalentTransitive(n, Sandwich(axis, q, rs), Gates(i + [g] + o), Gates(Turn(axis, angle, q)));
  }

  lemma TurnFits(n: nat, axis: Plane, angle: real, q: nat)
    requires q < n && (angle == 1.0 || angle == 0.5 || angle == -0.5)
    ensures AllFit(Turn(axis, angle, q), n) && AllFit(Into(axis, q) + [TurnGate(angle, q)] + Back(axis, q), n)
  {
  }

  // ---------- two letters ----------

  /** The letters on two qubits and the sign. */
  datatype Pair = Pair(c: Letter, t: Letter, neg: bool)

  function PairOf(p: Pauli, c: nat, t: nat): Pair
    requires c < |p.ls| && t < |p.ls|
  {
    Pair(p.ls[c], p.ls[t], p.neg)
  }

  function With(p: Pauli, c: nat, t: nat, v: Pair): (r: Pauli)
    requires c < |p.ls| && t < |p.ls|
    ensures |r.ls| == |p.ls|
  {
    Pauli(p.ls[c := v.c][t := v.t], v.neg)
  }

  /** What the operators used for controlled gates do to the two letters. */
  function OnPair(op: Op, c: nat, t: nat, v: Pair): Pair {
    match op
    case S(q) =>
      if q == c then Pair(Letter(v.c.z != v.c.x, v.c.x), v.t, v.neg != v.c.IsY())
      else Pair(v.c, Letter(v.t.z != v.t.x, v.t.x), v.neg != v.t.IsY())
    case Sdg(_) => Pair(v.c, Letter(v.t.z != v.t.x, v.t.x), v.neg != (v.t.x && !v.t.z))
    case H(_) => Pair(v.c, Letter(v.t.x, v.t.z), v.neg != v.t.IsY())
    case V(_) => Pair(v.c, Letter(v.t.z, v.t.x != v.t.z), v.neg != (v.t.z && !v.t.x))
    case Vdg(_) => Pair(v.c, Letter(v.t.z, v.t.x != v.t.z), v.neg != (v.t.z && v.t.x))
    case CX(_, _) => Pair(Letter(v.c.z != v.t.z, v.c.x), Letter(v.t.z, v.t.x != v.c.x), v.neg != CXFlips(v.c, v.t))
    case CZ(_, _) => Pair(Letter(v.c.z != v.t.x, v.c.x), Letter(v.t.z != v.c.x, v.t.x), v.neg != (v.c.x && v.t.x && v.c.z != v.t.z))
    case _ => v
  }

  predicate ForPair(op: Op, c: nat, t: nat) {
    op == S(c) || op == S(t) || op == Sdg(t) || op == H(t) || op == V(t) || op == Vdg(t) || op == CX(c, t) || op == CZ(c, t)
  }

  /** An operator on the two qubits changes nothing but the two letters and the sign. */
  lemma ConjOnPair(op: Op, p: Pauli, c: nat, t: nat)
    requires ForPair(op, c, t) && c != t && c < |p.ls| && t < |p.ls|
    ensures Conj(op, p) == With(p, c, t, OnPair(op, c, t, PairOf(p, c, t)))
  {
    hide ConjV, ConjVdg, ConjSdg, ConjCZ, ConjS, ConjH, ConjCX;
    match op
    case V(_) =>
      VForm(p, t);
      OnlyTargetLetter(p, c, t, OnPair(op, c, t, PairOf(p, c, t)));
    case Vdg(_) =>
      VdgForm(p, t);
      OnlyTargetLetter(p, c, t, OnPair(op, c, t, PairOf(p, c, t)));
    case Sdg(_) =>
      SdgForm(p, t);
      OnlyTargetLetter(p, c, t, OnPair(op, c, t, PairOf(p, c, t)));
    case CZ(_, _) => CZForm(p, c, t);
    case CX(_, _) => CXOnPair(p, c, t);
    case S(q) => SOnPair(p, c, t, q);
    case H(_) => HOnPair(p, c, t);
  }

  /** If the first letter stays, only the second one is written. */
  lemma OnlyTargetLetter(p: Pauli, c: nat, t: nat, v: Pair)
    requires c != t && c < |p.ls| && t < |p.ls| && v.c == p.ls[c]
    ensures With(p, c, t, v) == Pauli(p.ls[t := v.t], v.neg)
  {
    assert p.ls[c := v.c] == p.ls;
  }

  lemma CXOnPair(p: Pauli, c: nat, t: nat)
    requires c != t && c < |p.ls| && t < |p.ls|
    ensures ConjCX(p, c, t) == With(p, c, t, OnPair(CX(c, t), c, t, PairOf(p, c, t)))
  {
    assert ConjCX(p, c, t).ls == With(p, c, t, OnPair(CX(c, t), c, t, PairOf(p, c, t))).ls;
  }

  lemma SOnPair(p: Pauli, c: nat, t: nat, q: nat)
    requires c != t && c < |p.ls| && t < |p.ls| && (q == c || q == t)
    ensures ConjS(p, q) == With(p, c, t, OnPair(S(q), c, t, PairOf(p, c, t)))
  {
    assert ConjS(p, q).ls == With(p, c, t, OnPair(S(q), c, t, PairOf(p, c, t))).ls;
  }

  lemma HOnPair(p: Pauli, c: nat, t: nat)
    requires c != t && c < |p.ls| && t < |p.ls|
    ensures ConjH(p, t) == With(p, c, t, OnPair(H(t), c, t, PairOf(p, c, t)))
  {
    assert ConjH(p, t).ls == With(p, c, t, OnPair(H(t), c, t, PairOf(p, c, t))).ls;
  }

  lemma WithAgain(p: Pauli, c: nat, t: nat, v: Pair, w: Pair)
    requires c != t && c < |p.ls| && t < |p.ls|
    ensures PairOf(With(p, c, t, v), c, t) == v && With(With(p, c, t, v), c, t, w) == With(p, c, t, w)
  {
    assert With(With(p, c, t, v), c, t, w).ls == With(p, c, t, w).ls;
  }

  function AllOnPair(ops: seq<Op>, c: nat, t: nat, v: Pair): Pair {
    if |ops| == 0 then v else OnPair(ops[|ops| - 1], c, t, AllOnPair(ops[..|ops| - 1], c, t, v))
  }

  lemma {:induction false} ConjAllOnPair(ops: seq<Op>, p: Pauli, c: nat, t: nat)
    requires c != t && c < |p.ls| && t < |p.ls| && forall i :: 0 <= i < |ops| ==> ForPair(ops[i], c, t)
    ensures ConjAll(ops, p) == With(p, c, t, AllOnPair(ops, c, t, PairOf(p, c, t)))
  {
    hide Conj, OnPair;
    if |ops| == 0 {
      assert With(p, c, t, PairOf(p, c, t)).ls == p.ls;
    } else {
      var k := |ops| - 1;
      ConjAllOnPair(ops[..k], p, c, t);
      var v := AllOnPair(ops[..k], c, t, PairOf(p, c, t));
      ConjOnPair(ops[k], With(p, c, t, v), c, t);
      WithAgain(p, c, t, v, OnPair(ops[k], c, t, v));
    }
  }

  lemma PairOne(a: Op, c: nat, t: nat, v: Pair)
    ensures AllOnPair([a], c, t, v) == OnPair(a, c, t, v)
  {
    hide OnPair;
    assert [a][..0] == [];
    assert AllOnPair([], c, t, v) == v;
  }

  lemma PairThree(a: Op, b: Op, d: Op, c: nat, t: nat, v: Pair)
    ensures AllOnPair([a, b, d], c, t, v) == OnPair(d, c, t, OnPair(b, c, t, OnPair(a, c, t, v)))
  {
    hide OnPair;
    assert [a, b, d][..2] == [a, b] && [a, b][..1] == [a];
    PairOne(a, c, t, v);
  }

  lemma PairFive(a: Op, b: Op, d: Op, e: Op, f: Op, c: nat, t: nat, v: Pair)
    ensures AllOnPair([a, b, d, e, f], c, t, v) == OnPair(f, c, t, OnPair(e, c, t, OnPair(d, c, t, OnPair(b, c, t, OnPair(a, c, t, v)))))
  {
    hide OnPair;
    assert [a, b, d, e, f][..4] == [a, b, d, e] && [a, b, d, e][..3] == [a, b, d];
    PairThree(a, b, d, c, t, v);
  }

  /** The three quarter turns of a controlled z, as gates. */
  function CZGates(c: nat, t: nat): seq<Op> { [S(c), S(t), CX(c, t), Sdg(t), CX(c, t)] }

  lemma CZConjugates(c: nat, t: nat, v: Pair)
    requires c != t
    ensures AllOnPair(CZGates(c, t), c, t, v) == OnPair(CZ(c, t), c, t, v)
  {
    PairFive(S(c), S(t), CX(c, t), Sdg(t), CX(c, t), c, t, v);
  }

  lemma ControlledConjugates(axis: Plane, c: nat, t: nat, v: Pair)
    requires c != t
    ensures AllOnPair(Into(axis, t) + [CZ(c, t)] + Back(axis, t), c, t, v) == AllOnPair(ControlledPauli(axis, c, t), c, t, v)
  {
    match axis
    case PlaneZ =>
      assert Into(axis, t) + [CZ(c, t)] + Back(axis, t) == ControlledPauli(axis, c, t);
    case PlaneX =>
      assert Into(axis, t) + [CZ(c, t)] + Back(axis, t) == [H(t), CZ(c, t), H(t)];
      PairThree(H(t), CZ(c, t), H(t), c, t, v);
      PairOne(CX(c, t), c, t, v);
    case PlaneY =>
      assert Into(axis, t) + [CZ(c, t)] + Back(axis, t) == [V(t), CZ(c, t), Vdg(t)];
      PairThree(V(t), CZ(c, t), Vdg(t), c, t, v);
      PairThree(Sdg(t), CX(c, t), S(t), c, t, v);
  }

  // ---------- controlled Pauli gates ----------

  /** The expansion on two qubits are three quarter turns. */
  lemma ThreeRotations(n: nat, c: nat, t: nat)
    requires c < n && t < n && c != t
    ensures Expansion(n, [c, t], Share(1.0, 2), 2)
            == [Rotation(Pauli(ZLetters(n, c), false), 0.5), Rotation(Pauli(ZLetters(n, t), false), 0.5), Rotation(Pauli(ZOn(n, [c, t]), false), -0.5)]
  {
    var v := [c, t];
    assert Share(1.0, 2) == 0.5;
    TwoSelections(c, t);
    NormalizeFixed(0.5);
    NormalizeFixed(-0.5);
    assert SizePhase(0.5, 1) == 0.5 && SizePhase(0.5, 2) == -0.5;
    assert ZOn(n, [c]) == ZLetters(n, c) && ZOn(n, [t]) == ZLetters(n, t);
    assert Expansion(n, v, 0.5, 0) == [];
    assert Expansion(n, v, 0.5, 1) == SizeRotations(n, [[c], [t]], 0.5);
    assert Expansion(n, v, 0.5, 2) == Expansion(n, v, 0.5, 1) + SizeRotations(n, [v], -0.5);
  }

  lemma TwoSelections(c: nat, t: nat)
    ensures Combinations([c, t], 1) == [[c], [t]] && Combinations([c, t], 2) == [[c, t]]
  {
    SelectAllOfThem([c, t]);
    SelectAllOfThem([t]);
    assert [c, t][1..] == [t] && [c] + [] == [c];
    assert Combinations([t], 0) == [[]];
    assert Prefixed(c, [[]]) == [[c]];
  }

  lemma ZZDiagonalized(n: nat, c: nat, t: nat)
    requires c < n && t < n && c != t
    ensures Diagonalizes([CX(c, t)], Pauli(ZOn(n, [c, t]), false), t, n)
  {
    var p := Pauli(ZOn(n, [c, t]), false);
    ConjAllOne(CX(c, t), p);
    assert ConjCX(p, c, t).ls == ZLetters(n, t);
  }

  /** The controlled z is its three quarter turns. */
  lemma CZIsTurns(n: nat, c: nat, t: nat)
    requires c < n && t < n && c != t
    ensures Equivalent(n, Rots(Expansion(n, [c, t], Share(1.0, 2), 2)), Gates([CZ(c, t)]))
  {
    hide Equivalent, Expansion, Share, ConjAll, Conj, OnPair, AllOnPair;
    var zc, zt, zz := Pauli(ZLetters(n, c), false), Pauli(ZLetters(n, t), false), Pauli(ZOn(n, [c, t]), false);
    ThreeRotations(n, c, t);
    QuarterTurnIsS(n, c);
    QuarterTurnIsS(n, t);
    ZZDiagonalized(n, c, t);
    TurnMeaning(n, Rotation(zz, -0.5), [CX(c, t)], t);
    var tail := TurnCircuit([CX(c, t)], -0.5, t);
    assert tail == [CX(c, t), Sdg(t), CX(c, t)];
    EquivalentBefore(n, [Rot(zc, 0.5)], [Gate(S(c))], [Rot(zt, 0.5)] + [Rot(zz, -0.5)]);
    EquivalentWithin(n, [Gate(S(c))], [Rot(zt, 0.5)], [Gate(S(t))], [Rot(zz, -0.5)]);
    EquivalentAfter(n, [Gate(S(c))] + [Gate(S(t))], [Rot(zz, -0.5)], Gates(tail));
    var rots := Rots(Expansion(n, [c, t], Share(1.0, 2), 2));
    assert rots == [Rot(zc, 0.5)] + ([Rot(zt, 0.5)] + [Rot(zz, -0.5)]);
    assert [Gate(S(c))] + ([Rot(zt, 0.5)] + [Rot(zz, -0.5)]) == [Gate(S(c))] + [Rot(zt, 0.5)] + [Rot(zz, -0.5)];
    assert [Gate(S(c))] + [Gate(S(t))] + Gates(tail) == Gates(CZGates(c, t));
    EquivalentTransitive(n, rots, [Gate(S(c))] + [Rot(zt, 0.5)] + [Rot(zz, -0.5)], [Gate(S(c))] + [Gate(S(t))] + [Rot(zz, -0.5)]);
    EquivalentTransitive(n, rots, [Gate(S(c))] + [Gate(S(t))] + [Rot(zz, -0.5)], Gates(CZGates(c, t)));
    forall p: Pauli | |p.ls| == n ensures ConjAll(CZGates(c, t), p) == ConjAll([CZ(c, t)], p) {
      ConjAllOnPair(CZGates(c, t), p, c, t);
      ConjAllOnPair([CZ(c, t)], p, c, t);
      CZConjugates(c, t, PairOf(p, c, t));
      PairOne(CZ(c, t), c, t, PairOf(p, c, t));
    }
    SameConjSameMeaning(n, CZGates(c, t), [CZ(c, t)]);
    EquivalentTransitive(n, rots, Gates(CZGates(c, t)), Gates([CZ(c, t)]));
  }

  lemma ControlledFits(n: nat, axis: Plane, c: nat, t: nat)
    requires c < n && t < n && c != t
    ensures AllFit(ControlledPauli(axis, c, t), n) && AllFit(Into(axis, t) + [CZ(c, t)] + Back(axis, t), n)
    ensures forall i :: 0 <= i < |ControlledPauli(axis, c, t)| ==> ForPair(ControlledPauli(axis, c, t)[i], c, t)
    ensures var ops := Into(axis, t) + [CZ(c, t)] + Back(axis, t); forall i :: 0 <= i < |ops| ==> ForPair(ops[i], c, t)
  {
  }

  lemma ControlledShortcut(n: nat, axis: Plane, c: nat, t: nat)
    requires c < n && t < n && c != t
    ensures AllFit(ControlledPauli(axis, c, t), n)
    ensures Equivalent(n, Sandwich(axis, t, Expansion(n, [c, t], Share(1.0, 2), 2)), Gates(ControlledPauli(axis, c, t)))
  {
    hide Equivalent, Expansion, Share, ConjAll, AllOnPair, ControlledPauli, Into, Back;
    var i, o, z := Into(axis, t), Back(axis, t), CZ(c, t);
    var rs := Expansion(n, [c, t], Share(1.0, 2), 2);
    CZIsTurns(n, c, t);
    EquivalentWithin(n, Gates(i), Rots(rs), Gates([z]), Gates(o));
    GatesConcat(i + [z], o);
    GatesConcat(i, [z]);
    ControlledFits(n, axis, c, t);
    forall p: Pauli | |p.ls| == n ensures ConjAll(i + [z] + o, p) == ConjAll(ControlledPauli(axis, c, t), p) {
      ConjAllOnPair(i + [z] + o, p, c, t);
      ConjAllOnPair(ControlledPauli(axis, c, t), p, c, t);
      ControlledConjugates(axis, c, t, PairOf(p, c, t));
    }
    SameConjSameMeaning(n, i + [z] + o, ControlledPauli(axis, c, t));
    EquivalentTransitive(n, Sandwich(axis, t, rs), Gates(i + [z] + o), Gates(ControlledPauli(axis, c, t)));
  }

  // ---------- the translation of one gate ----------

  /** The operators applied instead mean the gate. */
  lemma ShortcutMeaning(n: nat, g: CircuitGate)
    requires GateOk(g, n) && Shortcut(g) != []
    ensures AllFit(Shortcut(g), n) && Equivalent(n, Done(n, g), Gates(Shortcut(g)))
  {
    hide Equivalent, Expansion, Share, Turn, ControlledPauli, Sandwich, TurnExpansion, RightTurn;
    match g
    case Phase(axis, angle, qubits) =>
      if |qubits| == 1 {
        assert qubits == [qubits[0]];
        TurnAngles(axis, angle, qubits[0]);
        TurnShortcut(n, axis, angle, qubits[0]);
      } else {
        assert qubits == [qubits[0], qubits[1]];
        ControlledShortcut(n, axis, qubits[0], qubits[1]);
      }
    case Rotate(axis, angle, qubits) =>
      assert qubits == [qubits[0]];
      TurnAngles(axis, angle, qubits[0]);
      TurnShortcut(n, axis, angle, qubits[0]);
      OneTurn(n, qubits[0], angle);
  }

  lemma TurnAngles(axis: Plane, angle: real, q: nat)
    ensures Turn(axis, angle, q) != [] <==> angle == 1.0 || angle == 0.5 || angle == -0.5
  {
  }

  /** Without controls, the pushed rotation is the same as for a phase. */
  lemma OneTurn(n: nat, q: nat, angle: real)
    ensures TurnExpansion(n, [q], q, Share(angle, 1), 1) == Expansion(n, [q], Share(angle, 1), 1)
  {
    SelectAllOfThem([q]);
    var t := Share(angle, 1);
    assert Combinations([q], 0) == [[]];
    assert TurnExpansion(n, [q], q, t, 0) == [] && Expansion(n, [q], t, 0) == [];
    assert [] + [q] == [q];
    assert TurnRotations(n, [[]], q, SizePhase(t, 1)) == SizeRotations(n, [[q]], SizePhase(t, 1));
  }

  // ---------- the translation ----------

  /** Applies operators one after the other; with a Clifford in the tableau they end up behind the program. */
  method ApplyOps(tableau: Tableau, ops: seq<Op>)
    requires tableau.Valid() && AllFit(ops, tableau.n) && HasClifford(tableau.subs)
    modifies tableau
    ensures tableau.Valid() && HasClifford(tableau.subs)
    ensures RotationCount(tableau.subs) == RotationCount(old(tableau.subs))
    ensures Equivalent(tableau.n, Items(old(tableau.subs), tableau.n) + Gates(ops), Items(tableau.subs, tableau.n))
  {
    hide Equivalent, Items, HasClifford;
    ghost var n, start := tableau.n, Items(tableau.subs, tableau.n);
    assert ops[..0] == [] && start + Gates([]) == start;
    EquivalentReflexive(n, start);
    for i := 0 to |ops|
      invariant tableau.Valid() && HasClifford(tableau.subs)
      invariant RotationCount(tableau.subs) == RotationCount(old(tableau.subs))
      invariant Equivalent(n, start + Gates(ops[..i]), Items(tableau.subs, n))
    {
      ghost var before := Items(tableau.subs, n);
      ghost var subs := tableau.subs;
      ApplyOp(tableau, ops[i]);
      FrontStays(tableau.subs, subs, []);
      FrontIsEmpty(subs, [ops[i]], Items(tableau.subs, n));
      assert ops[..i + 1] == ops[..i] + [ops[i]];
      OneMoreOp(n, start, ops[..i], ops[i], before, Items(tableau.subs, n));
    }
    assert ops[..|ops|] == ops;
  }

  lemma FrontIsEmpty(subs: seq<SubTableau>, ops: seq<Op>, now: seq<Item>)
    requires HasClifford(subs)
    ensures Front(subs, ops) + now == now
  {
  }

  lemma OneMoreOp(n: nat, start: seq<Item>, ops: seq<Op>, op: Op, before: seq<Item>, after: seq<Item>)
    requires Equivalent(n, start + Gates(ops), before) && Equivalent(n, before + Gates([op]), after)
    ensures Equivalent(n, start + Gates(ops + [op]), after)
  {
    hide Equivalent;
    GatesConcat(ops, [op]);
    EquivalentBefore(n, start + Gates(ops), before, Gates([op]));
    assert start + Gates(ops) + Gates([op]) == start + Gates(ops + [op]);
    EquivalentTransitive(n, start + Gates(ops + [op]), before + Gates([op]), after);
  }

  /** Pushes the rotations of all sizes below the number of qubits to the last list. */
  method PushTurns(tableau: Tableau, v: seq<nat>, q: nat, t: real)
    requires tableau.Valid() && |tableau.subs| > 0 && tableau.subs[|tableau.subs| - 1].Rotations?
    modifies tableau
    ensures tableau.Valid() && SameKinds(tableau.subs, old(tableau.subs))
    ensures RotationCount(tableau.subs) == RotationCount(old(tableau.subs)) + |TurnExpansion(tableau.n, v, q, t, |v|)|
    ensures Items(tableau.subs, tableau.n) == Items(old(tableau.subs), tableau.n) + Rots(TurnExpansion(tableau.n, v, q, t, |v|))
  {
    var n, last := tableau.n, |tableau.subs| - 1;
    var pushed: seq<Rotation> := [];
    for size := 0 to |v|
      invariant pushed == TurnExpansion(n, v, q, t, size) && tableau.subs == old(tableau.subs)
    {
      var isNeg := size % 2 == 1;
      var more := BuildTurns(n, Combinations(v, size), q, if isNeg then Normalize(-Normalize(t)) else Normalize(t));
      pushed := pushed + more;
    }
    TurnNormal(n, v, q, t, |v|);
    LongerList(tableau.subs, n, pushed);
    LongerCount(tableau.subs, pushed);
    tableau.subs := tableau.subs[last := Rotations(tableau.subs[last].rs + pushed)];
  }

  /** The rotations of one size: Z where the selection or the target is. */
  method BuildTurns(n: nat, combinations: seq<seq<nat>>, q: nat, phase: real) returns (rs: seq<Rotation>)
    ensures rs == TurnRotations(n, combinations, q, phase)
  {
    rs := [];
    for i := 0 to |combinations|
      invariant rs == TurnRotations(n, combinations[..i], q, phase)
    {
      assert combinations[..i + 1] == combinations[..i] + [combinations[i]];
      rs := rs + [Rotation(Pauli(ZOn(n, combinations[i] + [q]), false), phase)];
    }
    assert combinations[..|combinations|] == combinations;
  }

  /** A multi-controlled rotation on the plane of its last qubit. */
  method ImplementMcr(tableau: Tableau, qubits: seq<nat>, phase: real, plane: Plane) returns (ghost v: seq<nat>)
    requires tableau.Valid() && HasClifford(tableau.subs) && QubitsOk(qubits, tableau.n)
    modifies tableau
    ensures tableau.Valid() && multiset(v) == multiset(qubits) && |v| == |qubits| && HasClifford(tableau.subs)
    ensures RotationCount(tableau.subs) == RotationCount(old(tableau.subs)) + Pow2(|qubits|) - 1
    ensures Equivalent(tableau.n, Items(tableau.subs, tableau.n),
                       Items(old(tableau.subs), tableau.n)
                       + Rots(ConjRotations(Back(plane, Last(qubits)), TurnExpansion(tableau.n, v, Last(qubits), Share(phase, |v|), |v|))))
  {
    hide Equivalent, Items, HasClifford, Front, TurnExpansion, Share, Into, Back, ConjRotations, Distinct, RotationCount, Pow2;
    ghost var n, start := tableau.n, Items(tableau.subs, tableau.n);
    SomeClifford(tableau.subs);
    OpenList(tableau);
    var targ := Last(qubits);
    ghost var subs := tableau.subs;
    EnterPlane(tableau, plane, targ);
    ghost var entered := Items(tableau.subs, n);
    var sorted := SortQubits(qubits);
    v := sorted;
    assert |multiset(sorted)| == |multiset(qubits)|;
    PushTurns(tableau, sorted, targ, Share(phase, |qubits|));
    FrontStays(tableau.subs, subs, Back(plane, targ));
    ghost var pushed := tableau.subs;
    LeavePlane(tableau, plane, targ);
    FrontStays(tableau.subs, pushed, []);
    FrontsCancel(n, subs, targ, plane);
    TurnNormal(n, v, targ, Share(phase, |v|), |v|);
    TurnsLength(n, v, targ, Share(phase, |v|));
    PlaneChain(n, start, Front(subs, Into(plane, targ)), entered, Front(subs, Back(plane, targ)), Items(tableau.subs, n),
               TurnExpansion(n, v, targ, Share(phase, |v|), |v|), targ, plane);
  }

  lemma SomeClifford(subs: seq<SubTableau>)
    requires HasClifford(subs)
    ensures |subs| > 0
  {
  }

  /** Rotations seen from another plane, as items between two plane changes. */
  lemma SandwichBehind(n: nat, x: seq<Item>, axis: Plane, q: nat, rs: seq<Rotation>, after: seq<Item>)
    requires AllNormal(rs, n) && q < n && Equivalent(n, after, x + Rots(ConjRotations(Back(axis, q), rs)))
    ensures Equivalent(n, x + Sandwich(axis, q, rs), after)
  {
    hide Equivalent, Into, Back, ConjRotations, AllNormal;
    PlaneSandwich(n, x, rs, q, axis);
    assert x + Sandwich(axis, q, rs) == x + Gates(Into(axis, q)) + Rots(rs) + Gates(Back(axis, q));
    EquivalentSymmetric(n, after, x + Rots(ConjRotations(Back(axis, q), rs)));
    EquivalentTransitive(n, x + Sandwich(axis, q, rs), x + Rots(ConjRotations(Back(axis, q), rs)), after);
  }

  /** The order of the operands does not matter for a phase. */
  lemma SortedPhase(n: nat, qubits: seq<nat>, v: seq<nat>, angle: real)
    requires QubitsOk(qubits, n) && multiset(v) == multiset(qubits) && |v| == |qubits|
    ensures Equivalent(n, Rots(Expansion(n, qubits, Share(angle, |qubits|), |qubits|)), Rots(Expansion(n, v, Share(angle, |v|), |v|)))
  {
    hide Equivalent, Congruent, PhaseAt, Expansion, Share, AllSet, AllNormal, AllDiagonal, Distinct;
    var m := |qubits|;
    var a, b := Expansion(n, qubits, Share(angle, m), m), Expansion(n, v, Share(angle, m), m);
    ExpansionNormal(n, qubits, Share(angle, m), m);
    ExpansionNormal(n, v, Share(angle, m), m);
    ExpansionDiagonal(n, qubits, Share(angle, m), m);
    ExpansionDiagonal(n, v, Share(angle, m), m);
    forall x: seq<bool> | |x| == n ensures Congruent(PhaseAt(a, x), PhaseAt(b, x)) {
      McpAddsPhase(n, qubits, qubits, angle, x);
      McpAddsPhase(n, qubits, v, angle, x);
      CongruentTo(PhaseAt(b, x), if AllSet(qubits, x) then angle else 0.0, PhaseAt(a, x));
      CongruentSwap(PhaseAt(a, x), PhaseAt(b, x), if AllSet(qubits, x) then angle else 0.0);
    }
    SamePhasesSameMeaning(n, a, b);
  }

  lemma CongruentSwap(a: real, b: real, c: real)
    requires Congruent(a, c) && Congruent(b, c)
    ensures Congruent(a, b)
  {
    var m: int :| SameUpTo(a, c, m);
    var k: int :| SameUpTo(b, c, k);
    assert SameUpTo(a, b, m - k);
  }

  /** The order of the operands does not matter for what is pushed for a rotation. */
  lemma SortedTurn(n: nat, qubits: seq<nat>, v: seq<nat>, angle: real)
    requires QubitsOk(qubits, n) && multiset(v) == multiset(qubits) && |v| == |qubits|
    ensures
      var q, m := Last(qubits), |qubits|;
      Equivalent(n, Rots(TurnExpansion(n, qubits, q, Share(angle, m), m)), Rots(TurnExpansion(n, v, q, Share(angle, m), m)))
  {
    hide Equivalent, Congruent, PhaseAt, TurnExpansion, Share, Times, ParityOf, AllNormal, AllDiagonal, Distinct;
    var q, m := Last(qubits), |qubits|;
    var t := Share(angle, m);
    var a, b := TurnExpansion(n, qubits, q, t, m), TurnExpansion(n, v, q, t, m);
    TurnNormal(n, qubits, q, t, m);
    TurnNormal(n, v, q, t, m);
    forall x: seq<bool> | |x| == n ensures Congruent(PhaseAt(a, x), PhaseAt(b, x)) {
      SameQubits(v, qubits, n, x);
      SameParity(n, qubits, v, x);
      TurnPhase(n, qubits, q, t, x);
      LastIn(qubits, v);
      TurnPhase(n, v, q, t, x);
      CongruentSwap(PhaseAt(a, x), PhaseAt(b, x), Times(t, Signed(m + 1, Bit(ParityOf(v, x)))));
    }
    SamePhasesSameMeaning(n, a, b);
  }

  lemma LastIn(qubits: seq<nat>, v: seq<nat>)
    requires |qubits| > 0 && multiset(v) == multiset(qubits)
    ensures Last(qubits) in v
  {
    assert Last(qubits) in multiset(qubits);
  }

  lemma SameParity(n: nat, qubits: seq<nat>, v: seq<nat>, x: seq<bool>)
    requires Distinct(qubits) && Below(qubits, n) && Distinct(v) && Below(v, n) && |x| == n && multiset(v) == multiset(qubits)
    ensures ParityOf(v, x) == ParityOf(qubits, x)
  {
    forall a ensures a in v <==> a in qubits { assert a in multiset(v) <==> a in multiset(qubits); }
    assert ZOn(n, v) == ZOn(n, qubits);
    ParityOfZ(n, v, x);
    ParityOfZ(n, qubits, x);
  }

  /** What has been made of a phase without a shortcut. */
  lemma PhaseDone(n: nat, x: seq<Item>, g: CircuitGate, v: seq<nat>, after: seq<Item>)
    requires GateOk(g, n) && g.Phase? && multiset(v) == multiset(g.qubits) && |v| == |g.qubits|
    requires Equivalent(n, after, x + Rots(McpRotations(n, v, g.angle, Last(g.qubits), g.axis)))
    ensures Equivalent(n, x + Done(n, g), after)
  {
    hide Equivalent, Expansion, Share, ConjRotations, Into, Back, Sandwich, Distinct;
    var q, m := Last(g.qubits), |g.qubits|;
    var e := Expansion(n, v, Share(g.angle, m), m);
    ExpansionNormal(n, v, Share(g.angle, m), m);
    SandwichBehind(n, x, g.axis, q, e, after);
    SortedPhase(n, g.qubits, v, g.angle);
    SandwichWithin(n, g.axis, q, Expansion(n, g.qubits, Share(g.angle, m), m), e);
    EquivalentAfter(n, x, Done(n, g), Sandwich(g.axis, q, e));
    EquivalentTransitive(n, x + Done(n, g), x + Sandwich(g.axis, q, e), after);
  }

  /** What has been made of a rotation without a shortcut. */
  lemma RotateDone(n: nat, x: seq<Item>, g: CircuitGate, v: seq<nat>, after: seq<Item>)
    requires GateOk(g, n) && g.Rotate? && multiset(v) == multiset(g.qubits) && |v| == |g.qubits|
    requires Equivalent(n, after, x + Rots(ConjRotations(Back(g.axis, Last(g.qubits)), TurnExpansion(n, v, Last(g.qubits), Share(g.angle, |v|), |v|))))
    ensures Equivalent(n, x + Done(n, g), after)
  {
    hide Equivalent, TurnExpansion, Share, ConjRotations, Into, Back, Sandwich, Distinct;
    var q, m := Last(g.qubits), |g.qubits|;
    var e := TurnExpansion(n, v, q, Share(g.angle, m), m);
    TurnNormal(n, v, q, Share(g.angle, m), m);
    SandwichBehind(n, x, g.axis, q, e, after);
    SortedTurn(n, g.qubits, v, g.angle);
    SandwichWithin(n, g.axis, q, TurnExpansion(n, g.qubits, q, Share(g.angle, m), m), e);
    EquivalentAfter(n, x, Done(n, g), Sandwich(g.axis, q, e));
    EquivalentTransitive(n, x + Done(n, g), x + Sandwich(g.axis, q, e), after);
  }

  /** Quarter and half turns of one qubit, and the controlled Pauli gates. */
  predicate IsShortcut(g: CircuitGate) {
    || ((g.Phase? || g.Rotate?) && |g.qubits| == 1 && (g.angle == 1.0 || g.angle == 0.5 || g.angle == -0.5))
    || (g.Phase? && |g.qubits| == 2 && g.angle == 1.0)
  }

  lemma ShortcutIff(g: CircuitGate)
    ensures Shortcut(g) != [] <==> IsShortcut(g)
  {
  }

  /** How many rotations a gate becomes: none if it is Clifford, else one for every non-empty selection of its qubits. */
  function GateCost(g: CircuitGate): nat {
    if (g.Phase? || g.Rotate?) && !IsShortcut(g) then Pow2(|g.qubits|) - 1 else 0
  }

  /** Translates one gate; only unknown gates are refused. */
  method AppendGate(tableau: Tableau, g: CircuitGate) returns (ok: bool)
    requires tableau.Valid() && HasClifford(tableau.subs) && GateOk(g, tableau.n)
    modifies tableau
    ensures tableau.Valid() && HasClifford(tableau.subs)
    ensures ok <==> !g.Unknown?
    ensures RotationCount(tableau.subs) == RotationCount(old(tableau.subs)) + GateCost(g)
    ensures ok ==> Equivalent(tableau.n, Items(old(tableau.subs), tableau.n) + Done(tableau.n, g), Items(tableau.subs, tableau.n))
  {
    hide Equivalent, Items, HasClifford, Expansion, TurnExpansion, RightTurn, Share, Sandwich, Shortcut, Distinct, ConjRotations, RotationCount, Pow2;
    ghost var n, start := tableau.n, Items(tableau.subs, tableau.n);
    ok := !g.Unknown?;
    ShortcutIff(g);
    var ops := if g.Fixed? then [g.op] else Shortcut(g);
    if g.Id? {
      assert start + [] == start;
      EquivalentReflexive(n, start);
    } else if g.Fixed? {
      ApplyOps(tableau, ops);
    } else if ops != [] {
      ShortcutMeaning(n, g);
      ApplyOps(tableau, ops);
      EquivalentAfter(n, start, Done(n, g), Gates(ops));
      EquivalentTransitive(n, start + Done(n, g), start + Gates(ops), Items(tableau.subs, n));
    } else if g.Phase? {
      SomeClifford(tableau.subs);
      ghost var v := ImplementMcp(tableau, g.qubits, g.angle, g.axis);
      assert |multiset(v)| == |multiset(g.qubits)|;
      PhaseDone(n, start, g, v, Items(tableau.subs, n));
    } else if g.Rotate? {
      ghost var v := ImplementMcr(tableau, g.qubits, g.angle, g.axis);
      RotateDone(n, start, g, v, Items(tableau.subs, n));
    }
  }

  // ---------- whole circuits ----------

  predicate AllOk(gates: seq<CircuitGate>, n: nat) { forall i :: 0 <= i < |gates| ==> GateOk(gates[i], n) }

  /** The meaning of a circuit. */
  function CircuitMeaning(n: nat, gates: seq<CircuitGate>): seq<Item>
    requires AllOk(gates, n)
  {
    if |gates| == 0 then [] else CircuitMeaning(n, gates[..|gates| - 1]) + Meaning(n, gates[|gates| - 1])
  }

  /** What the translation makes of a circuit. */
  function CircuitDone(n: nat, gates: seq<CircuitGate>): seq<Item>
    requires AllOk(gates, n)
  {
    if |gates| == 0 then [] else CircuitDone(n, gates[..|gates| - 1]) + Done(n, gates[|gates| - 1])
  }

  function CircuitCost(gates: seq<CircuitGate>): nat {
    if |gates| == 0 then 0 else CircuitCost(gates[..|gates| - 1]) + GateCost(gates[|gates| - 1])
  }

  predicate AllRight(gates: seq<CircuitGate>) { forall i :: 0 <= i < |gates| ==> Right(gates[i]) }

  lemma {:induction false} RightCircuits(n: nat, gates: seq<CircuitGate>)
    requires AllOk(gates, n) && AllRight(gates)
    ensures Equivalent(n, CircuitMeaning(n, gates), CircuitDone(n, gates))
  {
    hide Equivalent, Meaning, Done, Right;
    if |gates| == 0 {
      EquivalentReflexive(n, []);
    } else {
      var k := |gates| - 1;
      RightCircuits(n, gates[..k]);
      RightIsDone(n, gates[k]);
      var a, b := CircuitMeaning(n, gates[..k]), CircuitDone(n, gates[..k]);
      EquivalentBefore(n, a, b, Meaning(n, gates[k]));
      EquivalentAfter(n, b, Meaning(n, gates[k]), Done(n, gates[k]));
      EquivalentTransitive(n, a + Meaning(n, gates[k]), b + Meaning(n, gates[k]), b + Done(n, gates[k]));
    }
  }

  /**
   Translates a circuit, gate by gate in topological order.  It is refused exactly if some gate is unknown; a circuit
   without controlled rotations by an angle that is not zero keeps its meaning.
   */
  method ToTableau(n: nat, gates: seq<CircuitGate>) returns (ok: bool, tableau: Tableau)
    requires AllOk(gates, n)
    ensures tableau.Valid() && tableau.n == n
    ensures ok <==> forall i :: 0 <= i < |gates| ==> !gates[i].Unknown?
    ensures ok ==> Equivalent(n, CircuitDone(n, gates), Items(tableau.subs, n))
    ensures ok ==> RotationCount(tableau.subs) == CircuitCost(gates)
    ensures ok && AllRight(gates) ==> Equivalent(n, CircuitMeaning(n, gates), Items(tableau.subs, n))
  {
    hide Equivalent, Items, HasClifford, Done, Meaning, GateOk, GateCost;
    tableau := new Tableau(n);
    EmptyProgram(tableau);
    for i := 0 to |gates|
      invariant tableau.n == n && tableau.Valid() && HasClifford(tableau.subs) && fresh(tableau)
      invariant forall j :: 0 <= j < i ==> !gates[j].Unknown?
      invariant Equivalent(n, CircuitDone(n, gates[..i]), Items(tableau.subs, n))
      invariant RotationCount(tableau.subs) == CircuitCost(gates[..i])
    {
      ghost var before := Items(tableau.subs, n);
      ok := AppendGate(tableau, gates[i]);
      if !ok {
        return;
      }
      assert gates[..i + 1][..i] == gates[..i];
      DoneNext(n, gates, i, before, Items(tableau.subs, n));
    }
    assert gates[..|gates|] == gates;
    ok := true;
    if AllRight(gates) {
      RightCircuits(n, gates);
      EquivalentTransitive(n, CircuitMeaning(n, gates), CircuitDone(n, gates), Items(tableau.subs, n));
    }
  }

  lemma DoneNext(n: nat, gates: seq<CircuitGate>, i: nat, before: seq<Item>, after: seq<Item>)
    requires AllOk(gates, n) && i < |gates| && Equivalent(n, CircuitDone(n, gates[..i]), before)
    requires Equivalent(n, before + Done(n, gates[i]), after)
    ensures Equivalent(n, CircuitDone(n, gates[..i + 1]), after)
  {
    hide Equivalent, Done, GateOk;
    assert gates[..i + 1][..i] == gates[..i];
    EquivalentBefore(n, CircuitDone(n, gates[..i]), before, Done(n, gates[i]));
    EquivalentTransitive(n, CircuitDone(n, gates[..i + 1]), before + Done(n, gates[i]), after);
  }

  /** A new tableau is the empty program. */
  lemma EmptyProgram(tableau: Tableau)
    requires tableau.Valid() && tableau.subs == [Clifford(Identity(tableau.n))]
    ensures HasClifford(tableau.subs) && Equivalent(tableau.n, [], Items(tableau.subs, tableau.n))
  {
    hide Equivalent;
    var n, s := tableau.n, Clifford(Identity(tableau.n));
    assert tableau.subs[0].Clifford?;
    IdentityReachable(n);
    ItemsOne(s, n);
    ConjRowsNone(Identity(n));
    SameTableauSameMeaning(n, [], CircuitOf(n, s.rows));
    assert Gates([]) == [];
  }

  /** Without controls, both a phase and a rotation are one rotation about the axis. */
  lemma SingleMeaning(n: nat, axis: Plane, angle: real, q: nat)
    requires q < n && -1.0 < angle <= 1.0
    ensures var r := Rot(Pauli(OnPlane(n, [q], q, axis), false), angle);
      && Equivalent(n, Meaning(n, Phase(axis, angle, [q])), [r]) && Equivalent(n, Meaning(n, Rotate(axis, angle, [q])), [r])
  {
    hide Equivalent, Expansion, Share, Into, Back, ConjAll, OnPlane;
    var z := Rotation(Pauli(ZLetters(n, q), false), angle);
    var e := Expansion(n, [q], Share(angle, 1), 1);
    OneRotation(n, q, angle);
    assert [q][..0] == [];
    assert RightTurn(n, [q], angle) == e + [] == e;
    PlaneSandwich(n, [], e, q, axis);
    assert ZOn(n, [q]) == ZLetters(n, q);
    PlaneChange(n, [q], q, axis);
    assert ConjRotations(Back(axis, q), e) == [Rotation(Pauli(OnPlane(n, [q], q, axis), false), angle)];
    assert [] + Gates(Into(axis, q)) + Rots(e) + Gates(Back(axis, q)) == Sandwich(axis, q, e);
    assert [] + Rots(ConjRotations(Back(axis, q), e)) == [Rot(Pauli(OnPlane(n, [q], q, axis), false), angle)];
  }
}
