/**
 The GF(2) rank of the X-block of the stabilizers, and how the gates change it.

 A selection u of stabilizers is a bit per row; Combo(rows, n, u) is the letter string of
 their product.  A selection is independent when no non-empty part of it has a product
 without x-bits, and the rank is the size of a largest independent selection.
 */
module StabilizerRank {
  import opened PauliAlgebra
  import opened CliffordOps
  import opened CliffordTableaux
  import opened StabilizerTableaux

  function Combo(rows: seq<Pauli>, n: nat, u: seq<bool>): (r: seq<Letter>)
    requires Shaped(rows, n) && |u| <= n
    ensures |r| == n
  {
    if |u| == 0 then Blank(n)
    else
      var k := |u| - 1;
      var rest := Combo(rows, n, u[..k]);
      if u[k] then XorLetters(rest, rows[k].ls) else rest
  }

  predicate NoX(ls: seq<Letter>) { forall j :: 0 <= j < |ls| ==> !ls[j].x }

  predicate Empty(u: seq<bool>) { forall i :: 0 <= i < |u| ==> !u[i] }

  predicate Part(u: seq<bool>, s: seq<bool>) {
    |u| == |s| && forall i :: 0 <= i < |u| && u[i] ==> s[i]
  }

  ghost predicate Independent(rows: seq<Pauli>, n: nat, s: seq<bool>)
    requires Shaped(rows, n)
  {
    |s| == n && forall u :: Part(u, s) && NoX(Combo(rows, n, u)) ==> Empty(u)
  }

  function Count(u: seq<bool>): nat {
    if |u| == 0 then 0 else Count(u[..|u| - 1]) + if u[|u| - 1] then 1 else 0
  }

  ghost predicate HasIndependent(rows: seq<Pauli>, n: nat, r: nat)
    requires Shaped(rows, n)
  {
    exists s :: Independent(rows, n, s) && Count(s) == r
  }

  ghost function LargestUpTo(rows: seq<Pauli>, n: nat, r: nat): nat
    requires Shaped(rows, n)
  {
    if r == 0 || HasIndependent(rows, n, r) then r else LargestUpTo(rows, n, r - 1)
  }

  /** The size of a largest independent selection of stabilizers. */
  ghost function Rank(rows: seq<Pauli>, n: nat): nat
    requires Shaped(rows, n)
  {
    LargestUpTo(rows, n, n)
  }

  // ---------- counting ----------

  lemma {:induction false} CountBound(u: seq<bool>)
    ensures Count(u) <= |u|
    ensures Count(u) == 0 <==> Empty(u)
  {
    if |u| > 0 {
      CountBound(u[..|u| - 1]);
      assert Empty(u) <==> Empty(u[..|u| - 1]) && !u[|u| - 1];
    }
  }

  lemma {:induction false} CountUpdate(u: seq<bool>, i: nat, b: bool)
    requires i < |u|
    ensures Count(u[i := b]) == Count(u) - (if u[i] then 1 else 0) + (if b then 1 else 0)
  {
    var k := |u| - 1;
    if i == k {
      assert u[i := b][..k] == u[..k];
    } else {
      assert u[i := b][..k] == u[..k][i := b];
      CountUpdate(u[..k], i, b);
    }
  }

  lemma NoneIsIndependent(rows: seq<Pauli>, n: nat)
    requires Shaped(rows, n)
    ensures HasIndependent(rows, n, 0)
  {
    var s := seq(n, i => false);
    CountBound(s);
    forall u | Part(u, s) ensures Empty(u) {
    }
    assert Independent(rows, n, s);
  }

  lemma {:induction false} LargestUpToIsLargest(rows: seq<Pauli>, n: nat, r: nat)
    requires Shaped(rows, n)
    ensures HasIndependent(rows, n, LargestUpTo(rows, n, r))
    ensures forall m: nat :: m <= r && HasIndependent(rows, n, m) ==> m <= LargestUpTo(rows, n, r)
  {
    if r == 0 {
      NoneIsIndependent(rows, n);
    } else if !HasIndependent(rows, n, r) {
      LargestUpToIsLargest(rows, n, r - 1);
    }
  }

  /** The rank is attained by an independent selection and bounds every other one. */
  lemma RankIsLargest(rows: seq<Pauli>, n: nat)
    requires Shaped(rows, n)
    ensures HasIndependent(rows, n, Rank(rows, n))
    ensures forall s :: Independent(rows, n, s) ==> Count(s) <= Rank(rows, n)
  {
    LargestUpToIsLargest(rows, n, n);
    forall s | Independent(rows, n, s) ensures Count(s) <= Rank(rows, n) {
      CountBound(s);
      assert HasIndependent(rows, n, Count(s));
    }
  }

  // ---------- products of selected rows ----------

  function XorSel(u: seq<bool>, v: seq<bool>): (r: seq<bool>)
    requires |u| == |v|
    ensures |r| == |u| && forall i :: 0 <= i < |u| ==> r[i] == (u[i] != v[i])
  {
    seq(|u|, i requires 0 <= i < |u| => u[i] != v[i])
  }

  lemma {:induction false} ComboXor(rows: seq<Pauli>, n: nat, u: seq<bool>, v: seq<bool>)
    requires Shaped(rows, n) && |u| == |v| <= n
    ensures Combo(rows, n, XorSel(u, v)) == XorLetters(Combo(rows, n, u), Combo(rows, n, v))
  {
    if |u| > 0 {
      var k := |u| - 1;
      ComboXor(rows, n, u[..k], v[..k]);
      assert XorSel(u, v)[..k] == XorSel(u[..k], v[..k]);
    }
  }

  lemma {:induction false} ComboUpdate(rows: seq<Pauli>, n: nat, u: seq<bool>, i: nat)
    requires Shaped(rows, n) && i < |u| <= n && u[i]
    ensures Combo(rows, n, u) == XorLetters(Combo(rows, n, u[i := false]), rows[i].ls)
  {
    var k := |u| - 1;
    if i == k {
      assert u[i := false][..k] == u[..k];
    } else {
      assert u[i := false][..k] == u[..k][i := false];
      ComboUpdate(rows, n, u[..k], i);
    }
  }

  lemma {:induction false} ComboEmpty(rows: seq<Pauli>, n: nat, u: seq<bool>)
    requires Shaped(rows, n) && |u| <= n && Empty(u)
    ensures Combo(rows, n, u) == Blank(n)
  {
    if |u| > 0 {
      ComboEmpty(rows, n, u[..|u| - 1]);
    }
  }

  /** The letters of a conjugated product. */
  function ConjLetters(op: Op, ls: seq<Letter>): (r: seq<Letter>)
    ensures |r| == |ls|
  {
    Conj(op, Pauli(ls, false)).ls
  }

  lemma ConjLettersOfPauli(op: Op, p: Pauli)
    ensures Conj(op, p).ls == ConjLetters(op, p.ls)
  {
    if p.neg {
      ConjNeg(op, Pauli(p.ls, false));
      assert Neg(Pauli(p.ls, false)) == p;
    }
  }

  lemma ConjLettersXor(op: Op, a: seq<Letter>, b: seq<Letter>)
    requires |a| == |b| && op.Fits(|a|)
    ensures ConjLetters(op, XorLetters(a, b)) == XorLetters(ConjLetters(op, a), ConjLetters(op, b))
  {
    Homomorphism(op, Pauli(a, false), Pauli(b, false));
    ConjLettersOfPauli(op, Mul(Pauli(a, false), Pauli(b, false)));
  }

  lemma {:induction false} ComboConj(op: Op, rows: seq<Pauli>, n: nat, u: seq<bool>)
    requires Shaped(rows, n) && |u| <= n && op.Fits(n)
    ensures Combo(ConjEach(op, rows), n, u) == ConjLetters(op, Combo(rows, n, u))
  {
    if |u| == 0 {
      var b := Pauli(Blank(n), false);
      BlankImage(n, [op]);
      ConjAllOne(op, b);
    } else {
      var k := |u| - 1;
      ComboConj(op, rows, n, u[..k]);
      ConjLettersXor(op, Combo(rows, n, u[..k]), rows[k].ls);
      ConjLettersOfPauli(op, rows[k]);
    }
  }

  /** A row that commutes with every stabilizer commutes with every product of them. */
  lemma {:induction false} CommutesWithCombo(rows: seq<Pauli>, n: nat, u: seq<bool>, a: seq<Letter>)
    requires Shaped(rows, n) && |u| <= n && |a| == n
    requires forall i :: 0 <= i < n ==> !Anticommutes(a, rows[i].ls)
    ensures !Anticommutes(a, Combo(rows, n, u))
  {
    if |u| == 0 {
      BlankCommutes(a, n);
    } else {
      var k := |u| - 1;
      CommutesWithCombo(rows, n, u[..k], a);
      AnticommutesXor(a, Combo(rows, n, u[..k]), rows[k].ls);
    }
  }

  // ---------- gates that keep the rank ----------

  /** The operators counted as free of Hadamards. */
  predicate HFree(op: Op) {
    op.S? || op.CX? || op.Sdg? || op.X? || op.Y? || op.Z? || op.CZ? || op.Swap?
  }

  predicate SameX(a: seq<Letter>, b: seq<Letter>)
  {
    |a| == |b| && forall j :: 0 <= j < |a| ==> a[j].x == b[j].x
  }

  lemma CZForm(p: Pauli, c: nat, t: nat)
    requires c < |p.ls| && t < |p.ls| && c != t
    ensures SameX(ConjCZ(p, c, t).ls, p.ls)
  {
  }

  lemma CXKeepsNoX(ls: seq<Letter>, c: nat, t: nat)
    requires c < |ls| && t < |ls| && c != t
    ensures NoX(ConjLetters(CX(c, t), ls)) <==> NoX(ls)
  {
    var r := ConjLetters(CX(c, t), ls);
    assert forall j :: 0 <= j < |ls| && j != t ==> r[j].x == ls[j].x;
    assert r[t].x == (ls[t].x != ls[c].x);
  }

  lemma SwapKeepsNoX(ls: seq<Letter>, c: nat, t: nat)
    requires c < |ls| && t < |ls| && c != t
    ensures NoX(ConjLetters(Swap(c, t), ls)) <==> NoX(ls)
  {
    var p := Pauli(ls, false);
    var p1 := ConjCX(p, c, t);
    var p2 := ConjCX(p1, t, c);
    ConjLettersOfPauli(CX(t, c), p1);
    ConjLettersOfPauli(CX(c, t), p2);
    CXKeepsNoX(ls, c, t);
    CXKeepsNoX(p1.ls, t, c);
    CXKeepsNoX(p2.ls, c, t);
  }

  lemma HFreeKeepsNoX(op: Op, ls: seq<Letter>)
    requires HFree(op) && op.Fits(|ls|)
    ensures NoX(ConjLetters(op, ls)) <==> NoX(ls)
  {
    var p := Pauli(ls, false);
    match op
    case CX(c, t) => CXKeepsNoX(ls, c, t);
    case Swap(c, t) => SwapKeepsNoX(ls, c, t);
    case CZ(c, t) => CZForm(p, c, t);
    case X(q) => XForm(p, q);
    case Y(q) => XForm(p, q); assert SameX(ConjLetters(op, ls), ls);
    case S(_) => assert SameX(ConjLetters(op, ls), ls);
    case Sdg(_) => assert SameX(ConjLetters(op, ls), ls);
    case Z(_) => assert SameX(ConjLetters(op, ls), ls);
  }

  lemma HFreeKeepsRank(op: Op, rows: seq<Pauli>, n: nat)
    requires Shaped(rows, n) && HFree(op) && op.Fits(n)
    ensures Rank(ConjEach(op, rows), n) == Rank(rows, n)
  {
    var r := ConjEach(op, rows);
    forall s ensures Independent(rows, n, s) <==> Independent(r, n, s) {
      forall u | |u| == n ensures NoX(Combo(rows, n, u)) <==> NoX(Combo(r, n, u)) {
        ComboConj(op, rows, n, u);
        HFreeKeepsNoX(op, Combo(rows, n, u));
      }
      if Independent(rows, n, s) { assert Independent(r, n, s); }
    }
    RankIsLargest(rows, n);
    RankIsLargest(r, n);
  }

  // ---------- one Hadamard changes the rank by at most one ----------

  predicate NoXExcept(ls: seq<Letter>, q: nat) { forall j :: 0 <= j < |ls| && j != q ==> !ls[j].x }

  lemma HKeepsOtherX(ls: seq<Letter>, q: nat)
    requires q < |ls|
    ensures NoX(ConjLetters(H(q), ls)) ==> NoXExcept(ls, q)
    ensures ConjLetters(H(q), ls)[q].x == ls[q].z
    ensures NoXExcept(ConjLetters(H(q), ls), q) <==> NoXExcept(ls, q)
  {
    var r := ConjLetters(H(q), ls);
    assert forall j :: 0 <= j < |ls| && j != q ==> r[j] == ls[j];
  }

  /** Two relations that hold after h, within a selection independent before it, are not both new and different. */
  lemma TwoRelations(rows: seq<Pauli>, n: nat, q: nat, s: seq<bool>, u: seq<bool>, v: seq<bool>)
    requires Shaped(rows, n) && q < n && Independent(rows, n, s)
    requires Part(u, s) && Part(v, s)
    requires NoX(Combo(ConjEach(H(q), rows), n, u)) && NoX(Combo(ConjEach(H(q), rows), n, v))
    ensures Empty(u) || Empty(v) || Empty(XorSel(u, v))
  {
    ComboConj(H(q), rows, n, u);
    ComboConj(H(q), rows, n, v);
    HKeepsOtherX(Combo(rows, n, u), q);
    HKeepsOtherX(Combo(rows, n, v), q);
    ComboXor(rows, n, u, v);
    if !Combo(rows, n, u)[q].x {
      assert NoX(Combo(rows, n, u));
    } else if !Combo(rows, n, v)[q].x {
      assert NoX(Combo(rows, n, v));
    } else {
      assert NoX(Combo(rows, n, XorSel(u, v)));
      assert Part(XorSel(u, v), s);
    }
  }

  /** An independent selection loses at most one row under h. */
  lemma HLosesAtMostOne(rows: seq<Pauli>, n: nat, q: nat, s: seq<bool>) returns (s': seq<bool>)
    requires Shaped(rows, n) && q < n && Independent(rows, n, s)
    ensures Independent(ConjEach(H(q), rows), n, s') && Count(s) <= Count(s') + 1
  {
    var r := ConjEach(H(q), rows);
    if Independent(r, n, s) { return s; }
    var u :| Part(u, s) && NoX(Combo(r, n, u)) && !Empty(u);
    var i :| 0 <= i < n && u[i];
    s' := s[i := false];
    CountUpdate(s, i, false);
    forall v | Part(v, s') && NoX(Combo(r, n, v)) ensures Empty(v) {
      assert Part(v, s);
      TwoRelations(rows, n, q, s, u, v);
      assert XorSel(u, v)[i];
    }
  }

  lemma HRank(rows: seq<Pauli>, n: nat, q: nat)
    requires Shaped(rows, n) && q < n
    ensures Rank(rows, n) <= Rank(ConjEach(H(q), rows), n) + 1
  {
    var r := ConjEach(H(q), rows);
    RankIsLargest(rows, n);
    RankIsLargest(r, n);
    var s :| Independent(rows, n, s) && Count(s) == Rank(rows, n);
    var s' := HLosesAtMostOne(rows, n, q, s);
  }

  lemma HRankBack(rows: seq<Pauli>, n: nat, q: nat)
    requires Shaped(rows, n) && q < n
    ensures Rank(ConjEach(H(q), rows), n) <= Rank(rows, n) + 1
  {
    var r := ConjEach(H(q), rows);
    HRank(r, n, q);
    forall i | 0 <= i < |rows| ensures ConjEach(H(q), r)[i] == rows[i] {
      HTwice(rows[i], q);
    }
    assert ConjEach(H(q), r) == rows;
  }

  // ---------- the lower bound for every circuit ----------

  function HCount(ops: seq<Op>): nat {
    if |ops| == 0 then 0 else HCount(ops[..|ops| - 1]) + if ops[|ops| - 1].H? then 1 else 0
  }

  lemma HCountSnoc(ops: seq<Op>, op: Op)
    ensures HCount(ops + [op]) == HCount(ops) + if op.H? then 1 else 0
  {
    assert (ops + [op])[..|ops|] == ops;
  }

  lemma {:induction false} HCountConcat(a: seq<Op>, b: seq<Op>)
    ensures HCount(a + b) == HCount(a) + HCount(b)
  {
    if |b| == 0 {
      assert a + b == a;
    } else {
      assert (a + b)[..|a + b| - 1] == a + b[..|b| - 1];
      HCountConcat(a, b[..|b| - 1]);
    }
  }

  lemma {:induction false} HCountAdjoint(ops: seq<Op>)
    ensures HCount(Adjoint(ops)) == HCount(ops)
  {
    if |ops| > 0 {
      var k := |ops| - 1;
      AdjointLast(ops);
      HCountConcat([AdjointOp(ops[k])], Adjoint(ops[..k]));
      HCountAdjoint(ops[..k]);
      assert [AdjointOp(ops[k])][..0] == [];
    }
  }

  lemma {:induction false} HCountNone(ops: seq<Op>)
    requires NoH(ops)
    ensures HCount(ops) == 0
  {
    if |ops| > 0 {
      HCountNone(ops[..|ops| - 1]);
    }
  }

  lemma DiagonalRank(rows: seq<Pauli>, n: nat)
    requires DiagonalStabilizers(rows, n)
    ensures Rank(rows, n) == 0
  {
    RankIsLargest(rows, n);
    var s :| Independent(rows, n, s) && Count(s) == Rank(rows, n);
    if !Empty(s) {
      DiagonalCombo(rows, n, s);
      assert Part(s, s);
      assert false;
    }
    CountBound(s);
  }

  lemma {:induction false} DiagonalCombo(rows: seq<Pauli>, n: nat, u: seq<bool>)
    requires DiagonalStabilizers(rows, n) && |u| <= n
    ensures NoX(Combo(rows, n, u))
  {
    if |u| > 0 {
      DiagonalCombo(rows, n, u[..|u| - 1]);
    }
  }

  /** Every circuit whose operators other than h are free of Hadamards needs at least rank many h. */
  lemma {:induction false} RankBoundsHCount(n: nat, ops: seq<Op>)
    requires AllFit(ops, n)
    requires forall i :: 0 <= i < |ops| ==> ops[i].H? || HFree(ops[i])
    ensures Rank(TableauOf(n, ops), n) <= HCount(ops)
  {
    if |ops| == 0 {
      ConjRowsNone(Identity(n));
      DiagonalRank(Identity(n), n);
    } else {
      var k := |ops| - 1;
      RankBoundsHCount(n, ops[..k]);
      var t := TableauOf(n, ops[..k]);
      assert ops[..k] + [ops[k]] == ops;
      ConjRowsSnoc(ops[..k], ops[k], Identity(n));
      match ops[k]
      case H(q) => HRankBack(t, n, q);
      case _ => HFreeKeepsRank(ops[k], t, n);
    }
  }

  // ---------- a well-placed Hadamard lowers the rank ----------

  /** The letters carry an x on qubit c only, and no z there. */
  predicate OnlyXAt(ls: seq<Letter>, c: nat) {
    c < |ls| && ls[c] == LX && NoXExcept(ls, c)
  }

  /** For strings that commute with such a row: without other x-bits there is no z on qubit c. */
  lemma {:induction false} CommutingPivot(a: seq<Letter>, b: seq<Letter>, c: nat)
    requires |a| == |b| && OnlyXAt(a, c) && NoXExcept(b, c)
    ensures Anticommutes(a, b) == b[c].z
  {
    var a', b' := a[c := LI], b[c := LI];
    NoXCommutes(a', b');
    PowerSumUpdate(a', b', c, a[c], b[c]);
    assert a'[c := a[c]] == a && b'[c := b[c]] == b;
    AnticommutesIsParity(a', b');
    AnticommutesIsParity(a, b);
    assert PowerSum(a, b) == PowerSum(a', b') + PowerOfI(LX, b[c]);
    LetterParity(LX, b[c]);
    Parity(PowerSum(a', b'), PowerOfI(LX, b[c]));
  }

  lemma Parity(x: nat, y: nat)
    requires x % 2 == 0
    ensures (x + y) % 2 == y % 2
  {
  }

  lemma PivotGains(rows: seq<Pauli>, n: nat, i: nat, c: nat, s: seq<bool>)
    requires Symplectic(rows, n) && i < n && c < n && OnlyXAt(rows[i].ls, c)
    requires Independent(ConjEach(H(c), rows), n, s)
    ensures !s[i] && Independent(rows, n, s[i := true])
  {
    var r := ConjEach(H(c), rows);
    forall u | |u| == n && NoXExcept(Combo(rows, n, u), c) ensures NoX(Combo(r, n, u)) {
      forall j | 0 <= j < n ensures !Anticommutes(rows[i].ls, rows[j].ls) {
        assert Related(rows, n, i, j);
      }
      CommutesWithCombo(rows, n, u, rows[i].ls);
      CommutingPivot(rows[i].ls, Combo(rows, n, u), c);
      ComboConj(H(c), rows, n, u);
      HKeepsOtherX(Combo(rows, n, u), c);
    }
    PivotRow(rows, n, i, c, s);
    forall u | Part(u, s[i := true]) && NoX(Combo(rows, n, u)) ensures Empty(u) {
      if !u[i] {
        assert Part(u, s);
        assert NoX(Combo(r, n, u));
      } else {
        var v := u[i := false];
        ComboUpdate(rows, n, u, i);
        var cv := Combo(rows, n, v);
        forall j | 0 <= j < n && j != c ensures !cv[j].x {
          assert Combo(rows, n, u)[j] == XorLetter(cv[j], rows[i].ls[j]);
        }
        assert NoX(Combo(r, n, v));
        assert Part(v, s);
        assert Empty(v);
        PivotIsNoRelation(rows, n, i, c, u);
        assert false;
      }
    }
  }

  lemma PivotIsNoRelation(rows: seq<Pauli>, n: nat, i: nat, c: nat, u: seq<bool>)
    requires Shaped(rows, n) && i < n && c < n && OnlyXAt(rows[i].ls, c)
    requires |u| == n && u[i] && Empty(u[i := false])
    ensures !NoX(Combo(rows, n, u))
  {
    ComboUpdate(rows, n, u, i);
    ComboEmpty(rows, n, u[i := false]);
    assert Combo(rows, n, u)[c] == XorLetter(LI, rows[i].ls[c]);
  }

  /** After the Hadamard the pivot row has no x left, so it is in no independent selection. */
  lemma PivotRow(rows: seq<Pauli>, n: nat, i: nat, c: nat, s: seq<bool>)
    requires Shaped(rows, n) && i < n && c < n && OnlyXAt(rows[i].ls, c)
    requires Independent(ConjEach(H(c), rows), n, s)
    ensures !s[i]
  {
    if s[i] {
      var u := PivotAlone(rows, n, i, c, s);
      assert false;
    }
  }

  lemma PivotAlone(rows: seq<Pauli>, n: nat, i: nat, c: nat, s: seq<bool>) returns (u: seq<bool>)
    requires Shaped(rows, n) && i < n && c < n && OnlyXAt(rows[i].ls, c)
    requires |s| == n && s[i]
    ensures |u| == n && u[i] && Part(u, s) && NoX(Combo(ConjEach(H(c), rows), n, u)) && !Empty(u)
  {
    var r := ConjEach(H(c), rows);
    var none := seq(n, j => false);
    u := none[i := true];
    assert u[i := false] == none;
    ComboUpdate(r, n, u, i);
    ComboEmpty(r, n, none);
    assert r[i].ls[c].x == rows[i].ls[c].z;
  }

  /** An h on the single x-position of a stabilizer without z there lowers the rank by exactly one. */
  lemma PivotLowersRank(rows: seq<Pauli>, n: nat, i: nat, c: nat)
    requires Symplectic(rows, n) && i < n && c < n && OnlyXAt(rows[i].ls, c)
    ensures Rank(rows, n) == Rank(ConjEach(H(c), rows), n) + 1
  {
    var r := ConjEach(H(c), rows);
    HRank(rows, n, c);
    RankIsLargest(rows, n);
    RankIsLargest(r, n);
    var s :| Independent(r, n, s) && Count(s) == Rank(r, n);
    PivotGains(rows, n, i, c, s);
    CountUpdate(s, i, true);
  }
}
