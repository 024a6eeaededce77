/**
 Signed Pauli products and the conjugation action of the three generating gates.

 A Pauli product on n qubits is a string of n letters, each given by its z-bit and
 its x-bit, together with a sign bit.  Letter-wise multiplication produces a power
 of i per qubit.  The signed product keeps only the sign: for products that
 anticommute one factor of i is dropped.  The lemmas of this module show that this
 product is nevertheless respected by every gate.
 */
module PauliAlgebra {

  datatype Letter = Letter(z: bool, x: bool) {
    predicate IsY() { z && x }
  }

  const LI := Letter(false, false)
  const LX := Letter(false, true)
  const LY := Letter(true, true)
  const LZ := Letter(true, false)

  datatype Pauli = Pauli(ls: seq<Letter>, neg: bool)

  /** The power of i picked up by the product of two letters. */
  function PowerOfI(a: Letter, b: Letter): int {
    if a == LX && b == LY then 1
    else if a == LY && b == LZ then 1
    else if a == LZ && b == LX then 1
    else if a == LX && b == LZ then 3
    else if a == LZ && b == LY then 3
    else if a == LY && b == LX then 3
    else 0
  }

  function PowerSum(a: seq<Letter>, b: seq<Letter>): nat
    requires |a| == |b|
  {
    if |a| == 0 then 0
    else
      var k := |a| - 1;
      PowerSum(a[..k], b[..k]) + PowerOfI(a[k], b[k])
  }

  function XorLetter(a: Letter, b: Letter): Letter {
    Letter(a.z != b.z, a.x != b.x)
  }

  function XorLetters(a: seq<Letter>, b: seq<Letter>): (r: seq<Letter>)
    requires |a| == |b|
    ensures |r| == |a|
    ensures forall i :: 0 <= i < |r| ==> r[i] == XorLetter(a[i], b[i])
  {
    seq(|a|, i requires 0 <= i < |a| => XorLetter(a[i], b[i]))
  }

  /** The signed product: the letters multiply, and the sign flips when the power of i is 2 or 3. */
  function Mul(a: Pauli, b: Pauli): Pauli
    requires |a.ls| == |b.ls|
  {
    Pauli(XorLetters(a.ls, b.ls), (a.neg != b.neg) != (PowerSum(a.ls, b.ls) % 4 >= 2))
  }

  function Neg(p: Pauli): Pauli { p.(neg := !p.neg) }

  predicate LetterAnticommutes(a: Letter, b: Letter) { (a.z && b.x) != (a.x && b.z) }

  /** The symplectic form on letter strings: false when the two strings commute. */
  predicate Anticommutes(a: seq<Letter>, b: seq<Letter>)
    requires |a| == |b|
  {
    if |a| == 0 then false
    else
      var k := |a| - 1;
      Anticommutes(a[..k], b[..k]) != LetterAnticommutes(a[k], b[k])
  }

  predicate Commute(a: Pauli, b: Pauli)
    requires |a.ls| == |b.ls|
  {
    !Anticommutes(a.ls, b.ls)
  }

  // ---------- the generating gates ----------

  function ConjH(p: Pauli, q: nat): Pauli {
    if q >= |p.ls| then p
    else Pauli(p.ls[q := Letter(p.ls[q].x, p.ls[q].z)], p.neg != p.ls[q].IsY())
  }

  function ConjS(p: Pauli, q: nat): Pauli {
    if q >= |p.ls| then p
    else Pauli(p.ls[q := Letter(p.ls[q].z != p.ls[q].x, p.ls[q].x)], p.neg != p.ls[q].IsY())
  }

  predicate CXFlips(c: Letter, t: Letter) { c.x && t.z && t.x == c.z }

  function ConjCX(p: Pauli, c: nat, t: nat): Pauli {
    if c >= |p.ls| || t >= |p.ls| then p
    else
      var ls1 := p.ls[t := Letter(p.ls[t].z, p.ls[t].x != p.ls[c].x)];
      Pauli(ls1[c := Letter(ls1[c].z != ls1[t].z, ls1[c].x)], p.neg != CXFlips(p.ls[c], p.ls[t]))
  }

  // ---------- power sums ----------

  lemma {:induction false} PowerSumUpdate(a: seq<Letter>, b: seq<Letter>, q: nat, u: Letter, v: Letter)
    requires q < |a| == |b|
    ensures PowerSum(a[q := u], b[q := v]) == PowerSum(a, b) - PowerOfI(a[q], b[q]) + PowerOfI(u, v)
  {
    var k := |a| - 1;
    if q == k {
      assert a[q := u][..k] == a[..k] && b[q := v][..k] == b[..k];
    } else {
      PowerSumUpdate(a[..k], b[..k], q, u, v);
      assert a[q := u][..k] == a[..k][q := u] && b[q := v][..k] == b[..k][q := v];
    }
  }

  lemma {:induction false} AnticommutesIsParity(a: seq<Letter>, b: seq<Letter>)
    requires |a| == |b|
    ensures Anticommutes(a, b) <==> PowerSum(a, b) % 2 == 1
  {
    if |a| > 0 {
      var k := |a| - 1;
      AnticommutesIsParity(a[..k], b[..k]);
      assert LetterAnticommutes(a[k], b[k]) <==> PowerOfI(a[k], b[k]) % 2 == 1;
    }
  }

  lemma {:induction false} AnticommutesSymmetric(a: seq<Letter>, b: seq<Letter>)
    requires |a| == |b|
    ensures Anticommutes(a, b) == Anticommutes(b, a)
  {
    if |a| > 0 {
      var k := |a| - 1;
      AnticommutesSymmetric(a[..k], b[..k]);
    }
  }

  /** The symplectic form is additive in its second argument. */
  lemma {:induction false} AnticommutesXor(a: seq<Letter>, b: seq<Letter>, c: seq<Letter>)
    requires |a| == |b| == |c|
    ensures Anticommutes(a, XorLetters(b, c)) == (Anticommutes(a, b) != Anticommutes(a, c))
  {
    if |a| > 0 {
      var k := |a| - 1;
      AnticommutesXor(a[..k], b[..k], c[..k]);
      assert XorLetters(b, c)[..k] == XorLetters(b[..k], c[..k]);
    }
  }

  /** Products without x-bits commute. */
  lemma {:induction false} NoXCommutes(a: seq<Letter>, b: seq<Letter>)
    requires |a| == |b|
    requires forall j :: 0 <= j < |a| ==> !a[j].x && !b[j].x
    ensures !Anticommutes(a, b)
  {
    if |a| > 0 {
      NoXCommutes(a[..|a| - 1], b[..|a| - 1]);
    }
  }

  lemma {:induction false} PowerSumZero(a: seq<Letter>, b: seq<Letter>)
    requires |a| == |b|
    requires forall i :: 0 <= i < |a| ==> PowerOfI(a[i], b[i]) == 0
    ensures PowerSum(a, b) == 0
  {
    if |a| > 0 {
      PowerSumZero(a[..|a| - 1], b[..|a| - 1]);
    }
  }

  // ---------- gates respect the signed product ----------

  /** How an even change of the power sum shows in the sign and in the parity. */
  lemma SignChange(old_: nat, new_: nat, d: int, flip: bool)
    requires new_ == old_ + d
    requires d % 4 == if flip then 2 else 0
    ensures (new_ % 4 >= 2) == ((old_ % 4 >= 2) != flip)
    ensures new_ % 2 == old_ % 2
  {
    var q, r, k := old_ / 4, old_ % 4, d / 4;
    SameParity(old_, 2 * q, r);
    if !flip {
      Remainder4(new_, q + k, r);
      SameParity(new_, 2 * (q + k), r);
    } else if r < 2 {
      Remainder4(new_, q + k, r + 2);
      SameParity(new_, 2 * (q + k) + 1, r);
    } else {
      Remainder4(new_, q + k + 1, r - 2);
      SameParity(new_, 2 * (q + k) + 1, r);
    }
  }

  lemma Remainder4(x: int, q: int, r: int)
    requires x == 4 * q + r && 0 <= r < 4
    ensures x % 4 == r
  {
    var e := x / 4 - q;
    assert x % 4 == r - 4 * e;
  }

  lemma SameParity(x: int, q: int, r: int)
    requires x == 2 * q + r
    ensures x % 2 == r % 2
  {
    var e := x / 2 - q - r / 2;
    assert x % 2 == r % 2 - 2 * e;
  }

  lemma HLetters(a: Letter, b: Letter)
    ensures
      var m := XorLetter(a, b);
      (PowerOfI(Letter(a.x, a.z), Letter(b.x, b.z)) - PowerOfI(a, b)) % 4
      == if (a.IsY() != b.IsY()) != m.IsY() then 2 else 0
  {
  }

  lemma HomomorphismH(a: Pauli, b: Pauli, q: nat)
    requires |a.ls| == |b.ls|
    ensures ConjH(Mul(a, b), q) == Mul(ConjH(a, q), ConjH(b, q))
    ensures Commute(ConjH(a, q), ConjH(b, q)) == Commute(a, b)
  {
    hide PowerSum, Anticommutes, PowerOfI;
    if q < |a.ls| {
      var a', b' := ConjH(a, q).ls, ConjH(b, q).ls;
      var flip := (a.ls[q].IsY() != b.ls[q].IsY()) != XorLetter(a.ls[q], b.ls[q]).IsY();
      PowerSumUpdate(a.ls, b.ls, q, a'[q], b'[q]);
      HLetters(a.ls[q], b.ls[q]);
      SignChange(PowerSum(a.ls, b.ls), PowerSum(a', b'), PowerOfI(a'[q], b'[q]) - PowerOfI(a.ls[q], b.ls[q]), flip);
      AnticommutesIsParity(a.ls, b.ls);
      AnticommutesIsParity(a', b');
      assert XorLetters(a', b') == ConjH(Mul(a, b), q).ls;
    }
  }

  lemma SLetters(a: Letter, b: Letter)
    ensures
      var m := XorLetter(a, b);
      (PowerOfI(Letter(a.z != a.x, a.x), Letter(b.z != b.x, b.x)) - PowerOfI(a, b)) % 4
      == if (a.IsY() != b.IsY()) != m.IsY() then 2 else 0
  {
  }

  lemma HomomorphismS(a: Pauli, b: Pauli, q: nat)
    requires |a.ls| == |b.ls|
    ensures ConjS(Mul(a, b), q) == Mul(ConjS(a, q), ConjS(b, q))
    ensures Commute(ConjS(a, q), ConjS(b, q)) == Commute(a, b)
  {
    hide PowerSum, Anticommutes, PowerOfI;
    if q < |a.ls| {
      var a', b' := ConjS(a, q).ls, ConjS(b, q).ls;
      var flip := (a.ls[q].IsY() != b.ls[q].IsY()) != XorLetter(a.ls[q], b.ls[q]).IsY();
      PowerSumUpdate(a.ls, b.ls, q, a'[q], b'[q]);
      SLetters(a.ls[q], b.ls[q]);
      SignChange(PowerSum(a.ls, b.ls), PowerSum(a', b'), PowerOfI(a'[q], b'[q]) - PowerOfI(a.ls[q], b.ls[q]), flip);
      AnticommutesIsParity(a.ls, b.ls);
      AnticommutesIsParity(a', b');
      assert XorLetters(a', b') == ConjS(Mul(a, b), q).ls;
    }
  }

  /** The change of the power sum under a CX, on the letters of its two qubits. */
  lemma CXLetters(ac: Letter, at: Letter, bc: Letter, bt: Letter)
    ensures
      var ac', at' := Letter(ac.z != at.z, ac.x), Letter(at.z, at.x != ac.x);
      var bc', bt' := Letter(bc.z != bt.z, bc.x), Letter(bt.z, bt.x != bc.x);
      var mc, mt := XorLetter(ac, bc), XorLetter(at, bt);
      (PowerOfI(ac', bc') + PowerOfI(at', bt') - PowerOfI(ac, bc) - PowerOfI(at, bt)) % 4
      == if (CXFlips(ac, at) != CXFlips(bc, bt)) != CXFlips(mc, mt) then 2 else 0
  {
  }

  lemma PowerSumCX(a: Pauli, b: Pauli, c: nat, t: nat)
    requires |a.ls| == |b.ls|
    requires c != t && c < |a.ls| && t < |a.ls|
    ensures
      var a', b' := ConjCX(a, c, t).ls, ConjCX(b, c, t).ls;
      var flip := (CXFlips(a.ls[c], a.ls[t]) != CXFlips(b.ls[c], b.ls[t]))
                  != CXFlips(XorLetter(a.ls[c], b.ls[c]), XorLetter(a.ls[t], b.ls[t]));
      && (PowerSum(a', b') % 4 >= 2) == ((PowerSum(a.ls, b.ls) % 4 >= 2) != flip)
      && PowerSum(a', b') % 2 == PowerSum(a.ls, b.ls) % 2
  {
    hide PowerSum, CXFlips, PowerOfI;
    var ac, at, bc, bt := a.ls[c], a.ls[t], b.ls[c], b.ls[t];
    var a', b' := ConjCX(a, c, t).ls, ConjCX(b, c, t).ls;
    var flip := (CXFlips(ac, at) != CXFlips(bc, bt)) != CXFlips(XorLetter(ac, bc), XorLetter(at, bt));
    PowerSumUpdate(a.ls, b.ls, t, a'[t], b'[t]);
    PowerSumUpdate(a.ls[t := a'[t]], b.ls[t := b'[t]], c, a'[c], b'[c]);
    CXLetters(ac, at, bc, bt);
    var d := PowerOfI(a'[c], b'[c]) + PowerOfI(a'[t], b'[t]) - PowerOfI(ac, bc) - PowerOfI(at, bt);
    assert PowerSum(a', b') == PowerSum(a.ls, b.ls) + d;
    SignChange(PowerSum(a.ls, b.ls), PowerSum(a', b'), d, flip);
  }

  lemma XorCX(a: Pauli, b: Pauli, c: nat, t: nat)
    requires |a.ls| == |b.ls|
    requires c != t && c < |a.ls| && t < |a.ls|
    ensures ConjCX(Mul(a, b), c, t).ls == XorLetters(ConjCX(a, c, t).ls, ConjCX(b, c, t).ls)
  {
    var l, r := ConjCX(Mul(a, b), c, t).ls, XorLetters(ConjCX(a, c, t).ls, ConjCX(b, c, t).ls);
    assert l[c] == r[c] && l[t] == r[t];
    assert forall i :: 0 <= i < |l| && i != c && i != t ==> l[i] == r[i];
  }

  lemma HomomorphismCX(a: Pauli, b: Pauli, c: nat, t: nat)
    requires |a.ls| == |b.ls|
    requires c != t
    ensures ConjCX(Mul(a, b), c, t) == Mul(ConjCX(a, c, t), ConjCX(b, c, t))
    ensures Commute(ConjCX(a, c, t), ConjCX(b, c, t)) == Commute(a, b)
  {
    if c < |a.ls| && t < |a.ls| {
      PowerSumCX(a, b, c, t);
      XorCX(a, b, c, t);
      AnticommutesIsParity(a.ls, b.ls);
      AnticommutesIsParity(ConjCX(a, c, t).ls, ConjCX(b, c, t).ls);
    }
  }

  // ---------- the square of a rotation axis ----------

  lemma XorTwice(a: seq<Letter>, b: seq<Letter>)
    requires |a| == |b|
    ensures XorLetters(XorLetters(a, b), b) == a
  {
  }

  lemma {:induction false} PowerSumTwice(a: seq<Letter>, b: seq<Letter>)
    requires |a| == |b|
    ensures (PowerSum(a, b) + PowerSum(XorLetters(a, b), b)) % 4 == 0
  {
    if |a| > 0 {
      var k := |a| - 1;
      PowerSumTwice(a[..k], b[..k]);
      assert XorLetters(a, b)[..k] == XorLetters(a[..k], b[..k]);
      var x := XorLetters(a, b)[k];
      assert PowerSum(a, b) == PowerSum(a[..k], b[..k]) + PowerOfI(a[k], b[k]);
      assert PowerSum(XorLetters(a, b), b) == PowerSum(XorLetters(a[..k], b[..k]), b[..k]) + PowerOfI(x, b[k]);
      hide *;
      LetterTwice(a[k], b[k], x);
      FourfoldSum(PowerSum(a[..k], b[..k]) + PowerSum(XorLetters(a[..k], b[..k]), b[..k]),
                  PowerOfI(a[k], b[k]) + PowerOfI(x, b[k]));
    }
  }

  lemma LetterTwice(a: Letter, b: Letter, x: Letter)
    requires x.z == (a.z != b.z) && x.x == (a.x != b.x)
    ensures (PowerOfI(a, b) + PowerOfI(x, b)) % 4 == 0
  {
  }

  lemma FourfoldSum(a: int, b: int)
    requires a % 4 == 0 && b % 4 == 0
    ensures (a + b) % 4 == 0
  {
  }

  /** Multiplying twice by the same product undoes it, up to a sign when the factors anticommute. */
  lemma MulTwice(a: Pauli, b: Pauli)
    requires |a.ls| == |b.ls|
    ensures Mul(Mul(a, b), b) == if Commute(a, b) then a else Neg(a)
  {
    var m := XorLetters(a.ls, b.ls);
    XorTwice(a.ls, b.ls);
    PowerSumTwice(a.ls, b.ls);
    AnticommutesIsParity(a.ls, b.ls);
    OppositeSigns(PowerSum(a.ls, b.ls), PowerSum(m, b.ls));
  }

  lemma OppositeSigns(a: nat, b: nat)
    requires (a + b) % 4 == 0
    ensures ((a % 4 >= 2) == (b % 4 >= 2)) <==> a % 2 == 0
  {
    var r := a % 4;
    SameParity(a, 2 * (a / 4), r);
    if r == 0 {
      Remainder4(b, (a + b) / 4 - a / 4, 0);
    } else {
      Remainder4(b, (a + b) / 4 - a / 4 - 1, 4 - r);
    }
  }
}
