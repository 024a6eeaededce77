/**
 Laws of tableaux: inverse strings, the symplectic relations, a tableau determines the
 action on every Pauli product, and prepending a gate agrees with putting it first.
 */
module CliffordTableaux {
  import opened Sequences
  import opened PauliAlgebra
  import opened CliffordOps

  // ---------- adjoint strings ----------

  lemma AdjointFits(ops: seq<Op>, n: nat)
    requires AllFit(ops, n)
    ensures AllFit(Adjoint(ops), n)
  {
  }

  lemma AdjointLast(ops: seq<Op>)
    requires |ops| > 0
    ensures var k := |ops| - 1; Adjoint(ops) == [AdjointOp(ops[k])] + Adjoint(ops[..k])
  {
  }

  lemma {:induction false} AdjointAllCancels(ops: seq<Op>, p: Pauli)
    requires AllFit(ops, |p.ls|)
    ensures ConjAll(Adjoint(ops), ConjAll(ops, p)) == p
  {
    if |ops| > 0 {
      var k := |ops| - 1;
      var p' := ConjAll(ops[..k], p);
      AdjointLast(ops);
      ConjAllConcat([AdjointOp(ops[k])], Adjoint(ops[..k]), ConjAll(ops, p));
      ConjAllOne(AdjointOp(ops[k]), Conj(ops[k], p'));
      AdjointCancels(ops[k], p');
      AdjointAllCancels(ops[..k], p);
    }
  }

  lemma AdjointTwice(ops: seq<Op>)
    ensures Adjoint(Adjoint(ops)) == ops
  {
  }

  lemma AllAdjointCancels(ops: seq<Op>, p: Pauli)
    requires AllFit(ops, |p.ls|)
    ensures ConjAll(ops, ConjAll(Adjoint(ops), p)) == p
  {
    AdjointTwice(ops);
    AdjointFits(ops, |p.ls|);
    AdjointAllCancels(Adjoint(ops), p);
  }

  // ---------- rows ----------

  lemma ConjRowsConcat(a: seq<Op>, b: seq<Op>, rows: seq<Pauli>)
    ensures ConjRows(a + b, rows) == ConjRows(b, ConjRows(a, rows))
  {
    forall i | 0 <= i < |rows| ensures ConjAll(a + b, rows[i]) == ConjAll(b, ConjAll(a, rows[i])) {
      ConjAllConcat(a, b, rows[i]);
    }
  }

  lemma ConjRowsAdjoint(ops: seq<Op>, rows: seq<Pauli>, n: nat)
    requires Shaped(rows, n) && AllFit(ops, n)
    ensures ConjRows(Adjoint(ops), ConjRows(ops, rows)) == rows
  {
    forall i | 0 <= i < |rows| ensures ConjAll(Adjoint(ops), ConjAll(ops, rows[i])) == rows[i] {
      AdjointAllCancels(ops, rows[i]);
    }
  }

  lemma SymplecticPreserved(ops: seq<Op>, rows: seq<Pauli>, n: nat)
    requires Symplectic(rows, n) && AllFit(ops, n)
    ensures Symplectic(ConjRows(ops, rows), n)
  {
    var r := ConjRows(ops, rows);
    forall i, j | 0 <= i < 2 * n && 0 <= j < 2 * n
      ensures Related(r, n, i, j)
    {
      assert Related(rows, n, i, j);
      HomomorphismAll(ops, rows[i], rows[j]);
    }
  }

  // ---------- single letters ----------

  function Blank(n: nat): seq<Letter> { seq(n, j => LI) }

  lemma {:induction false} BlankCommutes(a: seq<Letter>, n: nat)
    requires |a| == n
    ensures !Anticommutes(a, Blank(n)) && !Anticommutes(Blank(n), a)
  {
    PowerSumZero(a, Blank(n));
    AnticommutesIsParity(a, Blank(n));
    AnticommutesSymmetric(a, Blank(n));
  }

  lemma LetterParity(a: Letter, b: Letter)
    ensures LetterAnticommutes(a, b) <==> PowerOfI(a, b) % 2 == 1
  {
  }

  /** The form with a product that has a letter on one qubit only. */
  lemma AnticommutesSingle(a: seq<Letter>, i: nat, l: Letter)
    requires i < |a|
    ensures Anticommutes(a, Blank(|a|)[i := l]) == LetterAnticommutes(a[i], l)
    ensures Anticommutes(Blank(|a|)[i := l], a) == LetterAnticommutes(a[i], l)
  {
    var b := Blank(|a|);
    PowerSumZero(a, b);
    PowerSumUpdate(a, b, i, a[i], l);
    assert a[i := a[i]] == a;
    assert PowerSum(a, b[i := l]) == PowerOfI(a[i], l);
    LetterParity(a[i], l);
    AnticommutesIsParity(a, b[i := l]);
    AnticommutesSymmetric(a, b[i := l]);
  }

  lemma GeneratorLetters(n: nat, i: nat)
    requires i < n
    ensures ZLetters(n, i) == Blank(n)[i := LZ] && XLetters(n, i) == Blank(n)[i := LX]
  {
  }

  lemma AnticommutesGenerator(a: seq<Letter>, i: nat)
    requires i < |a|
    ensures Anticommutes(a, ZLetters(|a|, i)) == Anticommutes(ZLetters(|a|, i), a) == a[i].x
    ensures Anticommutes(a, XLetters(|a|, i)) == Anticommutes(XLetters(|a|, i), a) == a[i].z
  {
    GeneratorLetters(|a|, i);
    AnticommutesSingle(a, i, LZ);
    AnticommutesSingle(a, i, LX);
  }

  lemma IdentitySymplectic(n: nat)
    ensures Symplectic(Identity(n), n)
  {
    hide Anticommutes;
    var r := Identity(n);
    forall i, j | 0 <= i < 2 * n && 0 <= j < 2 * n
      ensures Related(r, n, i, j)
    {
      if j < n {
        AnticommutesGenerator(r[i].ls, j);
      } else {
        AnticommutesGenerator(r[i].ls, j - n);
      }
    }
  }

  // ---------- a tableau determines the action on every Pauli product ----------

  function Prefix(p: seq<Letter>, k: nat): Pauli {
    Pauli(seq(|p|, j requires 0 <= j < |p| => if j < k then p[j] else LI), false)
  }

  /** Multiplying two products without common qubits keeps the sign. */
  lemma MulDisjoint(a: Pauli, b: Pauli)
    requires |a.ls| == |b.ls| && !a.neg && !b.neg
    requires forall i :: 0 <= i < |a.ls| ==> a.ls[i] == LI || b.ls[i] == LI
    ensures Mul(a, b) == Pauli(XorLetters(a.ls, b.ls), false)
  {
    PowerSumZero(a.ls, b.ls);
  }

  lemma MulZX(n: nat, i: nat)
    requires i < n
    ensures Mul(Pauli(ZLetters(n, i), false), Pauli(XLetters(n, i), false)) == Pauli(Blank(n)[i := LY], false)
  {
    GeneratorLetters(n, i);
    PowerSumZero(Blank(n), Blank(n));
    PowerSumUpdate(Blank(n), Blank(n), i, LZ, LX);
    assert XorLetters(ZLetters(n, i), XLetters(n, i)) == Blank(n)[i := LY];
  }

  lemma {:induction false} SameOnSingle(n: nat, a: seq<Op>, b: seq<Op>, i: nat, l: Letter)
    requires i < n && AllFit(a, n) && AllFit(b, n)
    requires TableauOf(n, a) == TableauOf(n, b)
    requires l != LI
    ensures ConjAll(a, Pauli(Blank(n)[i := l], false)) == ConjAll(b, Pauli(Blank(n)[i := l], false))
  {
    GeneratorLetters(n, i);
    assert TableauOf(n, a)[i] == TableauOf(n, b)[i] && TableauOf(n, a)[n + i] == TableauOf(n, b)[n + i];
    var z, x := Pauli(ZLetters(n, i), false), Pauli(XLetters(n, i), false);
    assert Identity(n)[i] == z && Identity(n)[n + i] == x;
    if l == LY {
      MulZX(n, i);
      HomomorphismAll(a, z, x);
      HomomorphismAll(b, z, x);
    } else {
      assert l == LZ || l == LX;
    }
  }

  lemma {:induction false} SameOnPrefix(n: nat, a: seq<Op>, b: seq<Op>, p: seq<Letter>, k: nat)
    requires AllFit(a, n) && AllFit(b, n) && |p| == n && k <= n
    requires TableauOf(n, a) == TableauOf(n, b)
    ensures ConjAll(a, Prefix(p, k)) == ConjAll(b, Prefix(p, k))
    decreases k
  {
    if k == 0 {
      // the blank product is a square, so its image is the square of an image
      var e := Pauli(Blank(n), false);
      assert Prefix(p, 0) == e;
      BlankImage(n, a);
      BlankImage(n, b);
    } else {
      var i := k - 1;
      SameOnPrefix(n, a, b, p, i);
      var s := Pauli(Blank(n)[i := p[i]], false);
      if p[i] == LI {
        assert Prefix(p, k) == Prefix(p, i);
      } else {
        MulDisjoint(Prefix(p, i), s);
        assert XorLetters(Prefix(p, i).ls, s.ls) == Prefix(p, k).ls;
        SameOnSingle(n, a, b, i, p[i]);
        HomomorphismAll(a, Prefix(p, i), s);
        HomomorphismAll(b, Prefix(p, i), s);
      }
    }
  }

  lemma {:induction false} BlankImage(n: nat, a: seq<Op>)
    requires AllFit(a, n)
    ensures ConjAll(a, Pauli(Blank(n), false)) == Pauli(Blank(n), false)
  {
    var e := Pauli(Blank(n), false);
    var r := ConjAll(a, e);
    PowerSumZero(e.ls, e.ls);
    assert XorLetters(e.ls, e.ls) == e.ls;
    assert Mul(e, e) == e;
    HomomorphismAll(a, e, e);
    assert r == Mul(r, r);
    PowerSumZero(r.ls, r.ls);
    forall i | 0 <= i < n ensures r.ls[i] == LI {
      assert r.ls[i] == XorLetter(r.ls[i], r.ls[i]);
    }
    assert r.ls == Blank(n);
  }

  /** Two strings with the same tableau act alike on every signed Pauli product. */
  lemma TableauDetermines(n: nat, a: seq<Op>, b: seq<Op>, p: Pauli)
    requires AllFit(a, n) && AllFit(b, n) && |p.ls| == n
    requires TableauOf(n, a) == TableauOf(n, b)
    ensures ConjAll(a, p) == ConjAll(b, p)
  {
    SameOnPrefix(n, a, b, p.ls, n);
    var q := p.(neg := false);
    assert Prefix(p.ls, n) == q;
    if p.neg {
      assert p == Neg(q);
      ConjAllNeg(a, q);
      ConjAllNeg(b, q);
    }
  }

  // ---------- prepending ----------

  function PrependH(rows: seq<Pauli>, n: nat, q: nat): seq<Pauli>
    requires Shaped(rows, n)
  {
    if q >= n then rows else rows[q := rows[n + q]][n + q := rows[q]]
  }

  function PrependS(rows: seq<Pauli>, n: nat, q: nat): seq<Pauli>
    requires Shaped(rows, n)
  {
    if q >= n then rows else rows[n + q := Mul(rows[q], rows[n + q])]
  }

  function PrependCX(rows: seq<Pauli>, n: nat, c: nat, t: nat): seq<Pauli>
    requires Shaped(rows, n)
  {
    if c >= n || t >= n then rows
    else rows[t := Mul(rows[c], rows[t])][n + c := Mul(rows[n + t], rows[n + c])]
  }

  lemma ConjAllFirst(op: Op, ops: seq<Op>, p: Pauli)
    ensures ConjAll([op] + ops, p) == ConjAll(ops, Conj(op, p))
  {
    ConjAllConcat([op], ops, p);
    ConjAllOne(op, p);
  }

  // The image of every generator under h, s and cx.

  lemma GeneratorsH(n: nat, q: nat, i: nat)
    requires q < n && i < 2 * n
    ensures ConjH(Generator(n, i), q)
            == if i == q then Generator(n, n + q) else if i == n + q then Generator(n, q) else Generator(n, i)
  {
    var r := if i == q then Generator(n, n + q) else if i == n + q then Generator(n, q) else Generator(n, i);
    assert ConjH(Generator(n, i), q).ls == r.ls;
  }

  lemma GeneratorsS(n: nat, q: nat, i: nat)
    requires q < n && i < 2 * n
    ensures ConjS(Generator(n, i), q)
            == if i == n + q then Mul(Generator(n, q), Generator(n, n + q)) else Generator(n, i)
  {
    if i == n + q {
      MulZX(n, q);
      assert ConjS(Generator(n, i), q).ls == Blank(n)[q := LY];
    } else {
      assert ConjS(Generator(n, i), q).ls == Generator(n, i).ls;
    }
  }

  lemma GeneratorsCX(n: nat, c: nat, t: nat, i: nat)
    requires c < n && t < n && c != t && i < 2 * n
    ensures ConjCX(Generator(n, i), c, t)
            == if i == t then Mul(Generator(n, c), Generator(n, t))
               else if i == n + c then Mul(Generator(n, n + t), Generator(n, n + c))
               else Generator(n, i)
  {
    var g := Generator(n, i);
    if i == t {
      MulDisjoint(Generator(n, c), g);
      assert ConjCX(g, c, t).ls == XorLetters(Generator(n, c).ls, g.ls);
    } else if i == n + c {
      MulDisjoint(Generator(n, n + t), g);
      assert ConjCX(g, c, t).ls == XorLetters(Generator(n, n + t).ls, g.ls);
    } else {
      assert ConjCX(g, c, t).ls == g.ls;
    }
  }

  function PrependBasic(rows: seq<Pauli>, n: nat, op: Op): (r: seq<Pauli>)
    requires Shaped(rows, n) && op.Basic()
    ensures Shaped(r, n)
  {
    match op
    case H(q) => PrependH(rows, n, q)
    case S(q) => PrependS(rows, n, q)
    case CX(c, t) => PrependCX(rows, n, c, t)
  }

  lemma TableauShaped(n: nat, ops: seq<Op>)
    ensures Shaped(TableauOf(n, ops), n)
  {
  }

  lemma FirstRows(n: nat, op: Op, ops: seq<Op>)
    requires op.Fits(n) && AllFit(ops, n)
    ensures forall i :: 0 <= i < 2 * n ==>
                          TableauOf(n, [op] + ops)[i] == ConjAll(ops, Conj(op, Identity(n)[i]))
  {
    forall i | 0 <= i < 2 * n ensures TableauOf(n, [op] + ops)[i] == ConjAll(ops, Conj(op, Identity(n)[i])) {
      ConjAllFirst(op, ops, Identity(n)[i]);
    }
  }

  lemma PrependHIsFirst(n: nat, q: nat, ops: seq<Op>)
    requires q < n && AllFit(ops, n)
    ensures PrependH(TableauOf(n, ops), n, q) == TableauOf(n, [H(q)] + ops)
  {
    var t, r := TableauOf(n, ops), TableauOf(n, [H(q)] + ops);
    FirstRows(n, H(q), ops);
    forall i | 0 <= i < 2 * n ensures PrependH(t, n, q)[i] == r[i] {
      GeneratorsH(n, q, i);
    }
  }

  lemma PrependSIsFirst(n: nat, q: nat, ops: seq<Op>)
    requires q < n && AllFit(ops, n)
    ensures PrependS(TableauOf(n, ops), n, q) == TableauOf(n, [S(q)] + ops)
  {
    var t, r := TableauOf(n, ops), TableauOf(n, [S(q)] + ops);
    FirstRows(n, S(q), ops);
    HomomorphismAll(ops, Generator(n, q), Generator(n, n + q));
    forall i | 0 <= i < 2 * n ensures PrependS(t, n, q)[i] == r[i] {
      GeneratorsS(n, q, i);
    }
  }

  lemma PrependCXIsFirst(n: nat, c: nat, t: nat, ops: seq<Op>)
    requires c < n && t < n && c != t && AllFit(ops, n)
    ensures PrependCX(TableauOf(n, ops), n, c, t) == TableauOf(n, [CX(c, t)] + ops)
  {
    hide ConjCX, Mul, Anticommutes;
    var tab, r := TableauOf(n, ops), TableauOf(n, [CX(c, t)] + ops);
    FirstRows(n, CX(c, t), ops);
    forall i | 0 <= i < 2 * n ensures PrependCX(tab, n, c, t)[i] == r[i] {
      RowOfCX(n, c, t, ops, i);
    }
  }

  lemma RowOfCX(n: nat, c: nat, t: nat, ops: seq<Op>, i: nat)
    requires c < n && t < n && c != t && AllFit(ops, n) && i < 2 * n
    ensures PrependCX(TableauOf(n, ops), n, c, t)[i] == ConjAll(ops, ConjCX(Generator(n, i), c, t))
  {
    hide ConjH, ConjS, ConjCX, Conj, Anticommutes, Mul;
    var g := Generator(n, i);
    GeneratorsCX(n, c, t, i);
    if i == t {
      HomomorphismAll(ops, Generator(n, c), g);
    } else if i == n + c {
      HomomorphismAll(ops, Generator(n, n + t), g);
    }
    PrependedCX(TableauOf(n, ops), n, c, t, i);
  }

  lemma PrependedCX(rows: seq<Pauli>, n: nat, c: nat, t: nat, i: nat)
    requires c < n && t < n && c != t && i < 2 * n && Shaped(rows, n)
    ensures PrependCX(rows, n, c, t)[i] == if i == t then Mul(rows[c], rows[t])
                                           else if i == n + c then Mul(rows[n + t], rows[n + c])
                                           else rows[i]
  {
  }

  lemma PrependBasicIsFirst(n: nat, op: Op, ops: seq<Op>)
    requires op.Basic() && op.Fits(n) && AllFit(ops, n)
    ensures PrependBasic(TableauOf(n, ops), n, op) == TableauOf(n, [op] + ops)
  {
    match op
    case H(q) => PrependHIsFirst(n, q, ops);
    case S(q) => PrependSIsFirst(n, q, ops);
    case CX(c, t) => PrependCXIsFirst(n, c, t, ops);
  }

  /** The gates each prepend operation is made of, in the order in which they are prepended. */
  function PrependScript(op: Op): (r: seq<Op>)
    ensures forall i :: 0 <= i < |r| ==> r[i].Basic() && (forall n :: op.Fits(n) ==> r[i].Fits(n))
    decreases op.Rank()
  {
    match op
    case H(_) => [op] case S(_) => [op] case CX(_, _) => [op]
    case Sdg(q) => [S(q), S(q), S(q)]
    case V(q) => [H(q), S(q), H(q)]
    case Vdg(q) => [H(q)] + PrependScript(Sdg(q)) + [H(q)]
    case X(q) => [H(q)] + PrependScript(Z(q)) + [H(q)]
    case Y(q) => PrependScript(X(q)) + PrependScript(Z(q))
    case Z(q) => [S(q), S(q)]
    case CZ(c, t) => [H(t), CX(c, t), H(t)]
    case Swap(a, b) => [CX(a, b), CX(b, a), CX(a, b)]
    case Ecr(c, t) => PrependScript(X(c)) + [S(c)] + PrependScript(V(t)) + [CX(c, t)]
  }

  function PrependAll(rows: seq<Pauli>, n: nat, script: seq<Op>): (r: seq<Pauli>)
    requires Shaped(rows, n) && forall i :: 0 <= i < |script| ==> script[i].Basic()
    ensures Shaped(r, n)
  {
    if |script| == 0 then rows
    else PrependBasic(PrependAll(rows, n, script[..|script| - 1]), n, script[|script| - 1])
  }

  lemma {:induction false} PrependAllIsFirst(n: nat, script: seq<Op>, ops: seq<Op>)
    requires forall i :: 0 <= i < |script| ==> script[i].Basic() && script[i].Fits(n)
    requires AllFit(ops, n)
    ensures PrependAll(TableauOf(n, ops), n, script) == TableauOf(n, Reversed(script) + ops)
  {
    if |script| == 0 {
      assert Reversed(script) + ops == ops;
    } else {
      var k := |script| - 1;
      PrependAllIsFirst(n, script[..k], ops);
      var rest := Reversed(script[..k]) + ops;
      PrependBasicIsFirst(n, script[k], rest);
      ReverseLast(script, ops);
    }
  }

  lemma ReverseLast(script: seq<Op>, ops: seq<Op>)
    requires |script| > 0
    ensures var k := |script| - 1; [script[k]] + (Reversed(script[..k]) + ops) == Reversed(script) + ops
  {
  }

  lemma YScript(q: nat)
    ensures Reversed(PrependScript(Y(q))) == Expand(Z(q)) + Expand(X(q))
  {
    assert PrependScript(Z(q)) == [S(q), S(q)] == Expand(Z(q));
    assert PrependScript(X(q)) == [H(q), S(q), S(q), H(q)] == Expand(X(q));
    assert PrependScript(Y(q)) == [H(q), S(q), S(q), H(q), S(q), S(q)];
  }

  lemma ScriptActsY(q: nat, p: Pauli)
    ensures ConjAll(Reversed(PrependScript(Y(q))), p) == ConjY(p, q)
  {
    YScript(q);
    ConjAllConcat(Expand(Z(q)), Expand(X(q)), p);
    ExpandConj(Z(q), p);
    ExpandConj(X(q), ConjZ(p, q));
    XZCommute(p, q);
  }

  lemma EcrScript(c: nat, t: nat)
    ensures Reversed(PrependScript(Ecr(c, t))) == [CX(c, t)] + Expand(V(t)) + [S(c)] + Expand(X(c))
  {
    assert PrependScript(Z(c)) == [S(c), S(c)] == Expand(Z(c));
    assert Expand(X(c)) == [H(c), S(c), S(c), H(c)] == PrependScript(X(c));
    assert Expand(V(t)) == [H(t), S(t), H(t)] == PrependScript(V(t));
    assert PrependScript(Ecr(c, t)) == [H(c), S(c), S(c), H(c), S(c), H(t), S(t), H(t), CX(c, t)];
  }

  lemma ScriptActsEcr(c: nat, t: nat, p: Pauli)
    requires c != t && c < |p.ls| && t < |p.ls|
    ensures ConjAll(Reversed(PrependScript(Ecr(c, t))), p) == ConjEcr(p, c, t)
  {
    hide ConjH, ConjS, ConjCX;
    EcrScript(c, t);
    FourParts(CX(c, t), V(t), S(c), X(c), p);
    DisjointCommute(ConjCX(p, c, t), c, t);
  }

  lemma FourParts(a: Op, b: Op, c: Op, d: Op, p: Pauli)
    ensures ConjAll([a] + Expand(b) + [c] + Expand(d), p) == Conj(d, Conj(c, Conj(b, Conj(a, p))))
  {
    var pa := Conj(a, p);
    var pb := Conj(b, pa);
    ConjAllConcat([a] + Expand(b) + [c], Expand(d), p);
    ConjAllConcat([a] + Expand(b), [c], p);
    ConjAllConcat([a], Expand(b), p);
    ConjAllOne(a, p);
    ExpandConj(b, pa);
    ConjAllOne(c, pb);
    ExpandConj(d, Conj(c, pb));
  }

  /** The reversed script acts like the operator itself. */
  lemma {:induction false} ScriptActs(op: Op, p: Pauli)
    requires op.Fits(|p.ls|)
    ensures ConjAll(Reversed(PrependScript(op)), p) == Conj(op, p)
  {
    hide ConjH, ConjS, ConjCX;
    match op
    case Y(q) => ScriptActsY(q, p);
    case Ecr(c, t) => ScriptActsEcr(c, t, p);
    case _ =>
      PalindromicScript(op);
      ExpandConj(op, p);
  }

  lemma PalindromicScript(op: Op)
    requires !op.Y? && !op.Ecr?
    ensures Reversed(PrependScript(op)) == Expand(op)
  {
    match op
    case Vdg(q) =>
      assert PrependScript(Sdg(q)) == [S(q), S(q), S(q)] == Expand(Sdg(q));
      assert PrependScript(op) == [H(q), S(q), S(q), S(q), H(q)] == Expand(op);
    case X(q) =>
      assert PrependScript(Z(q)) == [S(q), S(q)] == Expand(Z(q));
      assert PrependScript(op) == [H(q), S(q), S(q), H(q)] == Expand(op);
    case H(_) => case S(_) => case CX(_, _) => case Sdg(_) => case V(_) => case Z(_) => case CZ(_, _) => case Swap(_, _) =>
  }

  lemma DisjointCommute(p: Pauli, c: nat, t: nat)
    requires c != t && c < |p.ls| && t < |p.ls|
    ensures ConjX(ConjS(ConjV(p, t), c), c) == ConjV(ConjX(ConjS(p, c), c), t)
  {
    VForm(p, t);
    XForm(ConjS(ConjV(p, t), c), c);
    XForm(ConjS(p, c), c);
    VForm(ConjX(ConjS(p, c), c), t);
    assert ConjX(ConjS(ConjV(p, t), c), c).ls == ConjV(ConjX(ConjS(p, c), c), t).ls;
  }

  /** Prepending an operator to the tableau of a circuit gives the tableau of the operator followed by the circuit. */
  lemma PrependIsFirst(n: nat, op: Op, ops: seq<Op>)
    requires op.Fits(n) && AllFit(ops, n)
    ensures PrependAll(TableauOf(n, ops), n, PrependScript(op)) == TableauOf(n, [op] + ops)
  {
    var script := PrependScript(op);
    PrependAllIsFirst(n, script, ops);
    forall i | 0 <= i < 2 * n
      ensures ConjAll(Reversed(script) + ops, Identity(n)[i]) == ConjAll([op] + ops, Identity(n)[i])
    {
      var g := Identity(n)[i];
      ConjAllConcat(Reversed(script), ops, g);
      ScriptActs(op, g);
      ConjAllFirst(op, ops, g);
    }
  }
}
