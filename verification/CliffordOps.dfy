/**
 Clifford operators, their action on signed Pauli products by conjugation, and the
 tableau of an operator string: the images of the generators Z_i and X_i.
 */
module CliffordOps {
  import opened PauliAlgebra

  datatype Op =
    | H(q: nat)
    | S(q: nat)
    | CX(c: nat, t: nat)
    | Sdg(q: nat)
    | V(q: nat)
    | Vdg(q: nat)
    | X(q: nat)
    | Y(q: nat)
    | Z(q: nat)
    | CZ(c: nat, t: nat)
    | Swap(c: nat, t: nat)
    | Ecr(c: nat, t: nat)
  {
    /** The operator acts on qubits below n, a two-qubit operator on two different ones. */
    predicate Fits(n: nat) {
      if CX? || CZ? || Swap? || Ecr? then c != t && c < n && t < n else q < n
    }

    predicate Basic() { H? || S? || CX? }

    /** Nesting depth of the derived operators over h, s and cx. */
    function Rank(): nat {
      match this
      case H(_) => 0 case S(_) => 0 case CX(_, _) => 0
      case Sdg(_) => 1 case Z(_) => 1 case CZ(_, _) => 1 case Swap(_, _) => 1 case V(_) => 1
      case Vdg(_) => 2 case X(_) => 2
      case Y(_) => 3 case Ecr(_, _) => 3
    }
  }

  predicate AllFit(ops: seq<Op>, n: nat) { forall i :: 0 <= i < |ops| ==> ops[i].Fits(n) }

  // ---------- conjugation by one operator ----------

  function ConjZ(p: Pauli, q: nat): Pauli { ConjS(ConjS(p, q), q) }
  function ConjSdg(p: Pauli, q: nat): Pauli { ConjS(ConjZ(p, q), q) }
  function ConjV(p: Pauli, q: nat): Pauli { ConjH(ConjS(ConjH(p, q), q), q) }
  function ConjVdg(p: Pauli, q: nat): Pauli { ConjH(ConjSdg(ConjH(p, q), q), q) }
  function ConjX(p: Pauli, q: nat): Pauli { ConjH(ConjZ(ConjH(p, q), q), q) }
  function ConjY(p: Pauli, q: nat): Pauli { ConjZ(ConjX(p, q), q) }
  function ConjCZ(p: Pauli, c: nat, t: nat): Pauli { ConjH(ConjCX(ConjH(p, t), c, t), t) }
  function ConjSwap(p: Pauli, a: nat, b: nat): Pauli { ConjCX(ConjCX(ConjCX(p, a, b), b, a), a, b) }
  function ConjEcr(p: Pauli, c: nat, t: nat): Pauli { ConjV(ConjX(ConjS(ConjCX(p, c, t), c), c), t) }

  function Conj(op: Op, p: Pauli): (r: Pauli)
    ensures |r.ls| == |p.ls|
  {
    match op
    case H(q) => ConjH(p, q)
    case S(q) => ConjS(p, q)
    case CX(c, t) => ConjCX(p, c, t)
    case Sdg(q) => ConjSdg(p, q)
    case V(q) => ConjV(p, q)
    case Vdg(q) => ConjVdg(p, q)
    case X(q) => ConjX(p, q)
    case Y(q) => ConjY(p, q)
    case Z(q) => ConjZ(p, q)
    case CZ(c, t) => ConjCZ(p, c, t)
    case Swap(a, b) => ConjSwap(p, a, b)
    case Ecr(c, t) => ConjEcr(p, c, t)
  }

  /** Conjugation by a string of operators, the first operator acting first. */
  function ConjAll(ops: seq<Op>, p: Pauli): (r: Pauli)
    ensures |r.ls| == |p.ls|
  {
    if |ops| == 0 then p
    else Conj(ops[|ops| - 1], ConjAll(ops[..|ops| - 1], p))
  }

  function AdjointOp(op: Op): Op {
    match op
    case S(q) => Sdg(q)
    case Sdg(q) => S(q)
    case V(q) => Vdg(q)
    case Vdg(q) => V(q)
    case _ => op
  }

  /** The operators in reverse order, each one replaced by its adjoint. */
  function Adjoint(ops: seq<Op>): (r: seq<Op>)
    ensures |r| == |ops|
    ensures forall i :: 0 <= i < |ops| ==> r[i] == AdjointOp(ops[|ops| - 1 - i])
  {
    seq(|ops|, i requires 0 <= i < |ops| => AdjointOp(ops[|ops| - 1 - i]))
  }

  // ---------- tableaux ----------

  function ZLetters(n: nat, i: nat): (r: seq<Letter>)
    ensures |r| == n && forall j :: 0 <= j < n ==> r[j] == if j == i then LZ else LI
  {
    seq(n, j => if j == i then LZ else LI)
  }

  function XLetters(n: nat, i: nat): (r: seq<Letter>)
    ensures |r| == n && forall j :: 0 <= j < n ==> r[j] == if j == i then LX else LI
  {
    seq(n, j => if j == i then LX else LI)
  }

  /** Z_i as stabilizer i (row i) and X_i as destabilizer i (row n + i). */
  function Generator(n: nat, i: nat): Pauli
    requires i < 2 * n
  {
    if i < n then Pauli(ZLetters(n, i), false) else Pauli(XLetters(n, i - n), false)
  }

  function Identity(n: nat): (r: seq<Pauli>)
    ensures |r| == 2 * n
    ensures forall i :: 0 <= i < 2 * n ==> r[i] == Generator(n, i)
  {
    seq(2 * n, i requires 0 <= i < 2 * n => Generator(n, i))
  }

  function ConjRows(ops: seq<Op>, rows: seq<Pauli>): (r: seq<Pauli>)
    ensures |r| == |rows|
    ensures forall i :: 0 <= i < |rows| ==> r[i] == ConjAll(ops, rows[i])
  {
    seq(|rows|, i requires 0 <= i < |rows| => ConjAll(ops, rows[i]))
  }

  function TableauOf(n: nat, ops: seq<Op>): seq<Pauli> { ConjRows(ops, Identity(n)) }

  predicate Shaped(rows: seq<Pauli>, n: nat) {
    && |rows| == 2 * n
    && forall i :: 0 <= i < |rows| ==> |rows[i].ls| == n
  }

  /** Two rows anticommute exactly when they are stabilizer i and destabilizer i. */
  predicate Related(rows: seq<Pauli>, n: nat, i: nat, j: nat)
    requires Shaped(rows, n) && i < 2 * n && j < 2 * n
  {
    Anticommutes(rows[i].ls, rows[j].ls) <==> (j == i + n || i == j + n)
  }

  /** The symplectic relations: stabilizer i anticommutes with destabilizer i, all other pairs commute. */
  predicate Symplectic(rows: seq<Pauli>, n: nat) {
    Shaped(rows, n) && forall i, j :: 0 <= i < 2 * n && 0 <= j < 2 * n ==> Related(rows, n, i, j)
  }

  // ---------- derived operators as strings of h, s and cx ----------

  function Expand(op: Op): (r: seq<Op>)
    ensures forall i :: 0 <= i < |r| ==> r[i].Basic() && (forall n :: op.Fits(n) ==> r[i].Fits(n))
    decreases op.Rank()
  {
    match op
    case H(_) => [op] case S(_) => [op] case CX(_, _) => [op]
    case Z(q) => [S(q), S(q)]
    case Sdg(q) => [S(q), S(q), S(q)]
    case V(q) => [H(q), S(q), H(q)]
    case Vdg(q) => [H(q)] + Expand(Sdg(q)) + [H(q)]
    case X(q) => [H(q)] + Expand(Z(q)) + [H(q)]
    case Y(q) => Expand(X(q)) + Expand(Z(q))
    case CZ(c, t) => [H(t), CX(c, t), H(t)]
    case Swap(c, t) => [CX(c, t), CX(t, c), CX(c, t)]
    case Ecr(c, t) => [CX(c, t), S(c)] + Expand(X(c)) + Expand(V(t))
  }

  lemma ConjAllOne(a: Op, p: Pauli)
    ensures ConjAll([a], p) == Conj(a, p)
  {
    assert [a][..0] == [];
    assert ConjAll([], p) == p;
  }

  lemma ConjAllTwo(a: Op, b: Op, p: Pauli)
    ensures ConjAll([a, b], p) == Conj(b, Conj(a, p))
  {
    assert [a, b][..1] == [a];
    ConjAllOne(a, p);
  }

  lemma ConjAllThree(a: Op, b: Op, c: Op, p: Pauli)
    ensures ConjAll([a, b, c], p) == Conj(c, Conj(b, Conj(a, p)))
  {
    assert [a, b, c][..2] == [a, b];
    ConjAllTwo(a, b, p);
  }

  lemma {:induction false} ConjAllPlane(a: Op, ops: seq<Op>, p: Pauli)
    ensures ConjAll([a] + ops + [a], p) == Conj(a, ConjAll(ops, Conj(a, p)))
  {
    ConjAllConcat([a] + ops, [a], p);
    ConjAllConcat([a], ops, p);
    ConjAllOne(a, p);
    ConjAllOne(a, ConjAll(ops, Conj(a, p)));
  }

  lemma {:induction false} ExpandConj(op: Op, p: Pauli)
    ensures ConjAll(Expand(op), p) == Conj(op, p)
    decreases op.Rank()
  {
    hide ConjH, ConjS, ConjCX;
    match op
    case H(_) => ConjAllOne(op, p);
    case S(_) => ConjAllOne(op, p);
    case CX(_, _) => ConjAllOne(op, p);
    case Z(q) => ConjAllTwo(S(q), S(q), p);
    case Sdg(q) => ConjAllThree(S(q), S(q), S(q), p);
    case V(q) => ConjAllThree(H(q), S(q), H(q), p);
    case CZ(c, t) => ConjAllThree(H(t), CX(c, t), H(t), p);
    case Swap(c, t) => ConjAllThree(CX(c, t), CX(t, c), CX(c, t), p);
    case Vdg(q) =>
      ConjAllPlane(H(q), Expand(Sdg(q)), p);
      ExpandConj(Sdg(q), ConjH(p, q));
    case X(q) =>
      ConjAllPlane(H(q), Expand(Z(q)), p);
      ExpandConj(Z(q), ConjH(p, q));
    case Y(q) =>
      ConjAllConcat(Expand(X(q)), Expand(Z(q)), p);
      ExpandConj(X(q), p);
      ExpandConj(Z(q), ConjX(p, q));
    case Ecr(c, t) =>
      ConjAllConcat([CX(c, t), S(c)] + Expand(X(c)), Expand(V(t)), p);
      ConjAllConcat([CX(c, t), S(c)], Expand(X(c)), p);
      ConjAllTwo(CX(c, t), S(c), p);
      ExpandConj(X(c), ConjS(ConjCX(p, c, t), c));
      ExpandConj(V(t), ConjX(ConjS(ConjCX(p, c, t), c), c));
  }

  // ---------- laws of conjugation ----------

  lemma {:induction false} ConjAllConcat(a: seq<Op>, b: seq<Op>, p: Pauli)
    ensures ConjAll(a + b, p) == ConjAll(b, ConjAll(a, p))
  {
    if |b| == 0 {
      assert a + b == a;
    } else {
      var k := |b| - 1;
      assert (a + b)[..|a + b| - 1] == a + b[..k];
      ConjAllConcat(a, b[..k], p);
    }
  }

  lemma {:induction false} HomomorphismBasics(ops: seq<Op>, a: Pauli, b: Pauli)
    requires |a.ls| == |b.ls|
    requires forall i :: 0 <= i < |ops| ==> ops[i].Basic() && ops[i].Fits(|a.ls|)
    ensures ConjAll(ops, Mul(a, b)) == Mul(ConjAll(ops, a), ConjAll(ops, b))
    ensures Commute(ConjAll(ops, a), ConjAll(ops, b)) == Commute(a, b)
  {
    if |ops| > 0 {
      var k := |ops| - 1;
      HomomorphismBasics(ops[..k], a, b);
      var a', b' := ConjAll(ops[..k], a), ConjAll(ops[..k], b);
      match ops[k]
      case H(q) => HomomorphismH(a', b', q);
      case S(q) => HomomorphismS(a', b', q);
      case CX(c, t) => HomomorphismCX(a', b', c, t);
    }
  }

  /** Every operator respects the signed product, the dropped factor of i included, and commutation. */
  lemma Homomorphism(op: Op, a: Pauli, b: Pauli)
    requires |a.ls| == |b.ls|
    requires op.Fits(|a.ls|)
    ensures Conj(op, Mul(a, b)) == Mul(Conj(op, a), Conj(op, b))
    ensures Commute(Conj(op, a), Conj(op, b)) == Commute(a, b)
  {
    HomomorphismBasics(Expand(op), a, b);
    ExpandConj(op, a);
    ExpandConj(op, b);
    ExpandConj(op, Mul(a, b));
  }

  lemma {:induction false} HomomorphismAll(ops: seq<Op>, a: Pauli, b: Pauli)
    requires |a.ls| == |b.ls|
    requires AllFit(ops, |a.ls|)
    ensures ConjAll(ops, Mul(a, b)) == Mul(ConjAll(ops, a), ConjAll(ops, b))
    ensures Commute(ConjAll(ops, a), ConjAll(ops, b)) == Commute(a, b)
  {
    if |ops| > 0 {
      var k := |ops| - 1;
      HomomorphismAll(ops[..k], a, b);
      Homomorphism(ops[k], ConjAll(ops[..k], a), ConjAll(ops[..k], b));
    }
  }

  lemma {:induction false} NegBasics(ops: seq<Op>, p: Pauli)
    requires forall i :: 0 <= i < |ops| ==> ops[i].Basic()
    ensures ConjAll(ops, Neg(p)) == Neg(ConjAll(ops, p))
  {
    if |ops| > 0 {
      NegBasics(ops[..|ops| - 1], p);
    }
  }

  lemma ConjNeg(op: Op, p: Pauli)
    ensures Conj(op, Neg(p)) == Neg(Conj(op, p))
  {
    NegBasics(Expand(op), p);
    ExpandConj(op, p);
    ExpandConj(op, Neg(p));
  }

  lemma {:induction false} ConjAllNeg(ops: seq<Op>, p: Pauli)
    ensures ConjAll(ops, Neg(p)) == Neg(ConjAll(ops, p))
  {
    if |ops| > 0 {
      ConjAllNeg(ops[..|ops| - 1], p);
      ConjNeg(ops[|ops| - 1], ConjAll(ops[..|ops| - 1], p));
    }
  }

  lemma HTwice(p: Pauli, q: nat)
    ensures ConjH(ConjH(p, q), q) == p
  {
    if q < |p.ls| { assert ConjH(ConjH(p, q), q).ls == p.ls; }
  }

  lemma ZTwice(p: Pauli, q: nat)
    ensures ConjZ(ConjZ(p, q), q) == p
  {
    if q < |p.ls| { assert ConjZ(ConjZ(p, q), q).ls == p.ls; }
  }

  lemma CXTwice(p: Pauli, c: nat, t: nat)
    requires c != t
    ensures ConjCX(ConjCX(p, c, t), c, t) == p
  {
    if c < |p.ls| && t < |p.ls| { assert ConjCX(ConjCX(p, c, t), c, t).ls == p.ls; }
  }

  lemma {:induction false} AdjointCancels(op: Op, p: Pauli)
    requires op.Fits(|p.ls|)
    ensures Conj(AdjointOp(op), Conj(op, p)) == p
  {
    match op
    case H(q) => HTwice(p, q);
    case S(q) => ZTwice(p, q);
    case Z(q) => ZTwice(p, q);
    case CX(c, t) => CXTwice(p, c, t);
    case Sdg(q) => ZTwice(p, q);
    case V(q) =>
      var p1 := ConjH(p, q);
      HTwice(ConjS(p1, q), q); ZTwice(p1, q); HTwice(p, q);
    case Vdg(q) =>
      var p1 := ConjH(p, q);
      HTwice(ConjSdg(p1, q), q); ZTwice(p1, q); HTwice(p, q);
    case X(q) => XTwice(p, q);
    case Y(q) =>
      var p1 := ConjX(p, q);
      XZCommute(ConjZ(p1, q), q);
      ZTwice(p1, q); XTwice(p, q);
    case CZ(c, t) =>
      var p1 := ConjH(p, t);
      HTwice(ConjCX(p1, c, t), t); CXTwice(p1, c, t); HTwice(p, t);
    case Swap(c, t) =>
      var p1 := ConjCX(p, c, t);
      var p2 := ConjCX(p1, t, c);
      CXTwice(p2, c, t); CXTwice(p1, t, c); CXTwice(p, c, t);
    case Ecr(c, t) => EcrTwice(p, c, t);
  }

  lemma XTwice(p: Pauli, q: nat)
    ensures ConjX(ConjX(p, q), q) == p
  {
    var p1 := ConjH(p, q);
    HTwice(ConjZ(p1, q), q); ZTwice(p1, q); HTwice(p, q);
  }

  lemma XZCommute(p: Pauli, q: nat)
    ensures ConjX(ConjZ(p, q), q) == ConjZ(ConjX(p, q), q)
  {
    if q < |p.ls| { assert ConjX(ConjZ(p, q), q).ls == ConjZ(ConjX(p, q), q).ls; }
  }

  function EcrControl(c: Letter, t: Letter): Letter { Letter((c.z != t.z) != c.x, c.x) }
  function EcrTarget(c: Letter, t: Letter): Letter { Letter(t.z, (t.x != c.x) != t.z) }
  predicate EcrFlips(c: Letter, t: Letter) {
    (CXFlips(c, t) != ((c.z != t.z) && c.x)) != (((c.z != t.z) != c.x) != (t.z && t.x == c.x))
  }

  lemma EcrForm(p: Pauli, c: nat, t: nat)
    requires c != t && c < |p.ls| && t < |p.ls|
    ensures ConjEcr(p, c, t) == Pauli(p.ls[c := EcrControl(p.ls[c], p.ls[t])][t := EcrTarget(p.ls[c], p.ls[t])],
                                      p.neg != EcrFlips(p.ls[c], p.ls[t]))
  {
    var p1 := ConjCX(p, c, t);
    assert p1.ls[c] == Letter(p.ls[c].z != p.ls[t].z, p.ls[c].x);
    assert p1.ls[t] == Letter(p.ls[t].z, p.ls[t].x != p.ls[c].x);
    var p2 := ConjS(p1, c);
    XForm(p2, c);
    var p3 := ConjX(p2, c);
    VForm(p3, t);
    assert ConjEcr(p, c, t).ls == p.ls[c := EcrControl(p.ls[c], p.ls[t])][t := EcrTarget(p.ls[c], p.ls[t])];
  }

  lemma XForm(p: Pauli, q: nat)
    requires q < |p.ls|
    ensures ConjX(p, q) == Pauli(p.ls, p.neg != p.ls[q].z)
  {
    assert ConjX(p, q).ls == p.ls;
  }

  lemma VForm(p: Pauli, q: nat)
    requires q < |p.ls|
    ensures ConjV(p, q) == Pauli(p.ls[q := Letter(p.ls[q].z, p.ls[q].x != p.ls[q].z)], p.neg != (p.ls[q].z && !p.ls[q].x))
  {
    assert ConjV(p, q).ls == p.ls[q := Letter(p.ls[q].z, p.ls[q].x != p.ls[q].z)];
  }

  lemma SdgForm(p: Pauli, q: nat)
    requires q < |p.ls|
    ensures ConjSdg(p, q) == Pauli(p.ls[q := Letter(p.ls[q].z != p.ls[q].x, p.ls[q].x)], p.neg != (p.ls[q].x && !p.ls[q].z))
  {
    assert ConjSdg(p, q).ls == p.ls[q := Letter(p.ls[q].z != p.ls[q].x, p.ls[q].x)];
  }

  lemma VdgForm(p: Pauli, q: nat)
    requires q < |p.ls|
    ensures ConjVdg(p, q) == Pauli(p.ls[q := Letter(p.ls[q].z, p.ls[q].x != p.ls[q].z)], p.neg != (p.ls[q].z && p.ls[q].x))
  {
    hide ConjSdg;
    SdgForm(ConjH(p, q), q);
    assert ConjVdg(p, q).ls == p.ls[q := Letter(p.ls[q].z, p.ls[q].x != p.ls[q].z)];
  }

  lemma CZForm(p: Pauli, c: nat, t: nat)
    requires c != t && c < |p.ls| && t < |p.ls|
    ensures ConjCZ(p, c, t) == Pauli(p.ls[c := Letter(p.ls[c].z != p.ls[t].x, p.ls[c].x)][t := Letter(p.ls[t].z != p.ls[c].x, p.ls[t].x)],
                                     p.neg != (p.ls[c].x && p.ls[t].x && p.ls[c].z != p.ls[t].z))
  {
    var r := p.ls[c := Letter(p.ls[c].z != p.ls[t].x, p.ls[c].x)][t := Letter(p.ls[t].z != p.ls[c].x, p.ls[t].x)];
    assert ConjCZ(p, c, t).ls == r;
  }

  /** A swap exchanges the letters of its qubits and changes no sign. */
  lemma SwapForm(p: Pauli, c: nat, t: nat)
    requires c != t && c < |p.ls| && t < |p.ls|
    ensures Conj(Swap(c, t), p) == Pauli(p.ls[c := p.ls[t]][t := p.ls[c]], p.neg)
  {
    var lc, lt := p.ls[c], p.ls[t];
    CXPair(p, c, t, lc, lt);
    var p1 := ConjCX(p, c, t);
    CXPair(p1, t, c, p1.ls[t], p1.ls[c]);
    var p2 := ConjCX(p1, t, c);
    CXPair(p2, c, t, p2.ls[c], p2.ls[t]);
    hide ConjCX;
    assert ConjCX(p2, c, t).ls == p.ls[c := lt][t := lc];
  }

  /** A cx on its two letters. */
  lemma CXPair(p: Pauli, c: nat, t: nat, lc: Letter, lt: Letter)
    requires c != t && c < |p.ls| && t < |p.ls| && p.ls[c] == lc && p.ls[t] == lt
    ensures ConjCX(p, c, t) == Pauli(p.ls[c := Letter(lc.z != lt.z, lc.x)][t := Letter(lt.z, lt.x != lc.x)], p.neg != CXFlips(lc, lt))
  {
    assert ConjCX(p, c, t).ls == p.ls[c := Letter(lc.z != lt.z, lc.x)][t := Letter(lt.z, lt.x != lc.x)];
  }

  function Replaced(p: Pauli, q: nat, l: Letter, flip: bool): Pauli
    requires q < |p.ls|
  {
    Pauli(p.ls[q := l], p.neg != flip)
  }

  /** The one-qubit operators, letter by letter. */
  lemma OneQubitTable(p: Pauli, q: nat)
    requires q < |p.ls|
    ensures p.ls[q] == LI ==> forall op :: op in [H(q), S(q), Sdg(q), V(q), Vdg(q), X(q), Y(q), Z(q)] ==> Conj(op, p) == p
    ensures p.ls[q] == LX ==>
      && Conj(H(q), p) == Replaced(p, q, LZ, false) && Conj(S(q), p) == Replaced(p, q, LY, false) && Conj(Sdg(q), p) == Replaced(p, q, LY, true)
      && Conj(V(q), p) == p && Conj(Vdg(q), p) == p && Conj(X(q), p) == p && Conj(Y(q), p) == Neg(p) && Conj(Z(q), p) == Neg(p)
    ensures p.ls[q] == LY ==>
      && Conj(H(q), p) == Neg(p) && Conj(S(q), p) == Replaced(p, q, LX, true) && Conj(Sdg(q), p) == Replaced(p, q, LX, false)
      && Conj(V(q), p) == Replaced(p, q, LZ, false) && Conj(Vdg(q), p) == Replaced(p, q, LZ, true)
      && Conj(X(q), p) == Neg(p) && Conj(Y(q), p) == p && Conj(Z(q), p) == Neg(p)
    ensures p.ls[q] == LZ ==>
      && Conj(H(q), p) == Replaced(p, q, LX, false) && Conj(S(q), p) == p && Conj(Sdg(q), p) == p
      && Conj(V(q), p) == Replaced(p, q, LY, true) && Conj(Vdg(q), p) == Replaced(p, q, LY, false)
      && Conj(X(q), p) == Neg(p) && Conj(Y(q), p) == Neg(p) && Conj(Z(q), p) == p
  {
    hide ConjV, ConjVdg, ConjSdg, ConjX;
    SdgForm(p, q);
    VForm(p, q);
    VdgForm(p, q);
    XForm(p, q);
    ZForm(p, q);
    assert p.ls[q := p.ls[q]] == p.ls;
  }

  lemma ZForm(p: Pauli, q: nat)
    requires q < |p.ls|
    ensures ConjZ(p, q) == Pauli(p.ls, p.neg != p.ls[q].x)
  {
    assert ConjZ(p, q).ls == p.ls;
  }

  function ReplacedTwo(p: Pauli, c: nat, t: nat, a: Letter, b: Letter, flip: bool): Pauli
    requires c < |p.ls| && t < |p.ls|
  {
    Pauli(p.ls[c := a][t := b], p.neg != flip)
  }

  /** The two-qubit operators on products that have one letter on their qubits, X or Z. */
  lemma TwoQubitTable(p: Pauli, c: nat, t: nat)
    requires c != t && c < |p.ls| && t < |p.ls|
    ensures p.ls[c] == LX && p.ls[t] == LI ==>
      && Conj(CX(c, t), p) == ReplacedTwo(p, c, t, LX, LX, false) && Conj(CZ(c, t), p) == ReplacedTwo(p, c, t, LX, LZ, false)
      && Conj(Swap(c, t), p) == ReplacedTwo(p, c, t, LI, LX, false) && Conj(Ecr(c, t), p) == ReplacedTwo(p, c, t, LY, LX, true)
    ensures p.ls[c] == LZ && p.ls[t] == LI ==>
      && Conj(CX(c, t), p) == p && Conj(CZ(c, t), p) == p
      && Conj(Swap(c, t), p) == ReplacedTwo(p, c, t, LI, LZ, false) && Conj(Ecr(c, t), p) == Neg(p)
    ensures p.ls[c] == LI && p.ls[t] == LX ==>
      && Conj(CX(c, t), p) == p && Conj(CZ(c, t), p) == ReplacedTwo(p, c, t, LZ, LX, false)
      && Conj(Swap(c, t), p) == ReplacedTwo(p, c, t, LX, LI, false) && Conj(Ecr(c, t), p) == p
    ensures p.ls[c] == LI && p.ls[t] == LZ ==>
      && Conj(CX(c, t), p) == ReplacedTwo(p, c, t, LZ, LZ, false) && Conj(CZ(c, t), p) == p
      && Conj(Swap(c, t), p) == ReplacedTwo(p, c, t, LZ, LI, false) && Conj(Ecr(c, t), p) == ReplacedTwo(p, c, t, LZ, LY, false)
  {
    hide ConjCZ, ConjSwap, ConjEcr, ConjCX;
    CXForm(p, c, t);
    CZForm(p, c, t);
    SwapForm(p, c, t);
    EcrForm(p, c, t);
    assert p.ls[c := p.ls[c]][t := p.ls[t]] == p.ls;
  }

  lemma CXForm(p: Pauli, c: nat, t: nat)
    requires c != t && c < |p.ls| && t < |p.ls|
    ensures ConjCX(p, c, t) == Pauli(p.ls[c := Letter(p.ls[c].z != p.ls[t].z, p.ls[c].x)][t := Letter(p.ls[t].z, p.ls[t].x != p.ls[c].x)],
                                     p.neg != CXFlips(p.ls[c], p.ls[t]))
  {
    assert ConjCX(p, c, t).ls == p.ls[c := Letter(p.ls[c].z != p.ls[t].z, p.ls[c].x)][t := Letter(p.ls[t].z, p.ls[t].x != p.ls[c].x)];
  }

  lemma EcrTwice(p: Pauli, c: nat, t: nat)
    requires c != t && c < |p.ls| && t < |p.ls|
    ensures ConjEcr(ConjEcr(p, c, t), c, t) == p
  {
    EcrForm(p, c, t);
    EcrForm(ConjEcr(p, c, t), c, t);
    assert ConjEcr(ConjEcr(p, c, t), c, t).ls == p.ls;
  }
}
