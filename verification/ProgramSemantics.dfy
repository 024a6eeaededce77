/**
 The meaning of a program of Clifford operators and Pauli rotations.

 A state is seen through the expectation values it gives to signed Pauli products, so a
 program transforms such functionals.  A Clifford operator U takes f to L -> f(U* L U).
 A rotation about P by the angle t (in units of pi) keeps the value of every L that
 commutes with P, and gives any other L the value cos(t) f(L) + sin(t) f(-i L P), where
 -i L P is the signed product of L and P with its factor of i dropped.  This determines
 the action of the program on states, up to a global phase.

 Cosine and sine are any two functions with the addition laws and the values at 0 and
 at a quarter turn.
 */
module ProgramSemantics {
  import opened PauliAlgebra
  import opened CliffordOps
  import opened CliffordTableaux

  datatype Item = Gate(op: Op) | Rot(p: Pauli, angle: real) {
    predicate Fits(n: nat) {
      match this
      case Gate(op) => op.Fits(n)
      case Rot(p, _) => |p.ls| == n
    }
  }

  datatype Trig = Trig(cos: real -> real, sin: real -> real)

  ghost predicate AngleSum(k: Trig, a: real, b: real) {
    && k.cos(a + b) == k.cos(a) * k.cos(b) - k.sin(a) * k.sin(b)
    && k.sin(a + b) == k.sin(a) * k.cos(b) + k.cos(a) * k.sin(b)
  }

  ghost predicate AngleNegated(k: Trig, a: real) {
    k.cos(-a) == k.cos(a) && k.sin(-a) == -k.sin(a)
  }

  ghost predicate Lawful(k: Trig) {
    && k.cos(0.0) == 1.0 && k.sin(0.0) == 0.0
    && k.cos(0.5) == 0.0 && k.sin(0.5) == 1.0
    && (forall a :: AngleNegated(k, a))
    && (forall a, b :: AngleSum(k, a, b))
  }

  ghost predicate OddAt(f: Pauli -> real, p: Pauli) { f(Neg(p)) == -f(p) }

  /** Expectation values change sign with the product. */
  ghost predicate Odd(f: Pauli -> real) { forall p :: OddAt(f, p) }

  /** A functional that singles out one product. */
  ghost function Indicator(l: Pauli): Pauli -> real {
    (p: Pauli) => if p == l then 1.0 else if p == Neg(l) then -1.0 else 0.0
  }

  lemma IndicatorOdd(l: Pauli)
    ensures Odd(Indicator(l))
  {
    assert Neg(Neg(l)) == l;
    forall p ensures OddAt(Indicator(l), p) {
      assert Neg(Neg(p)) == p;
    }
  }

  /** The value the program gives to l, started on the functional f. */
  function Expect(k: Trig, prog: seq<Item>, f: Pauli -> real, l: Pauli): real {
    if |prog| == 0 then f(l)
    else
      var rest := prog[..|prog| - 1];
      match prog[|prog| - 1]
      case Gate(op) => Expect(k, rest, f, Conj(AdjointOp(op), l))
      case Rot(p, t) =>
        if |p.ls| != |l.ls| || Commute(l, p) then Expect(k, rest, f, l)
        else k.cos(t) * Expect(k, rest, f, l) + k.sin(t) * Expect(k, rest, f, Mul(l, p))
  }

  ghost predicate Agree(k: Trig, a: seq<Item>, b: seq<Item>, f: Pauli -> real, l: Pauli) {
    Expect(k, a, f, l) == Expect(k, b, f, l)
  }

  /** The two programs have the same meaning on n qubits. */
  ghost predicate Equivalent(n: nat, a: seq<Item>, b: seq<Item>) {
    forall k: Trig, f: Pauli -> real, l: Pauli :: Lawful(k) && Odd(f) && |l.ls| == n ==> Agree(k, a, b, f, l)
  }

  // ---------- equivalence is a congruence ----------

  lemma EquivalentReflexive(n: nat, a: seq<Item>)
    ensures Equivalent(n, a, a)
  {
  }

  lemma EquivalentSymmetric(n: nat, a: seq<Item>, b: seq<Item>)
    requires Equivalent(n, a, b)
    ensures Equivalent(n, b, a)
  {
    forall k: Trig, f: Pauli -> real, l: Pauli | Lawful(k) && Odd(f) && |l.ls| == n ensures Agree(k, b, a, f, l) {
      assert Agree(k, a, b, f, l);
    }
  }

  lemma EquivalentTransitive(n: nat, a: seq<Item>, b: seq<Item>, c: seq<Item>)
    requires Equivalent(n, a, b) && Equivalent(n, b, c)
    ensures Equivalent(n, a, c)
  {
    forall k: Trig, f: Pauli -> real, l: Pauli | Lawful(k) && Odd(f) && |l.ls| == n ensures Agree(k, a, c, f, l) {
      assert Agree(k, a, b, f, l) && Agree(k, b, c, f, l);
    }
  }

  lemma {:induction false} ExpectOdd(k: Trig, prog: seq<Item>, f: Pauli -> real, l: Pauli)
    requires Odd(f)
    ensures Expect(k, prog, f, Neg(l)) == -Expect(k, prog, f, l)
  {
    if |prog| == 0 {
      assert OddAt(f, l);
    } else {
      var rest := prog[..|prog| - 1];
      match prog[|prog| - 1]
      case Gate(op) =>
        ConjNeg(AdjointOp(op), l);
        ExpectOdd(k, rest, f, Conj(AdjointOp(op), l));
      case Rot(p, t) =>
        ExpectOdd(k, rest, f, l);
        if |p.ls| == |l.ls| && !Commute(l, p) { ExpectOdd(k, rest, f, Mul(l, p)); }
        RotOdd(k, prog, f, l);
    }
  }

  /** The value a program that ends with a rotation gives. */
  lemma LastIsRotation(k: Trig, prog: seq<Item>, g: Pauli -> real, l: Pauli)
    requires |prog| > 0 && prog[|prog| - 1].Rot? && |prog[|prog| - 1].p.ls| == |l.ls|
    ensures
      var r, init := prog[|prog| - 1], prog[..|prog| - 1];
      Expect(k, prog, g, l)
      == if Commute(l, r.p) then Expect(k, init, g, l) else k.cos(r.angle) * Expect(k, init, g, l) + k.sin(r.angle) * Expect(k, init, g, Mul(l, r.p))
  {
    hide Conj, AdjointOp, Mul, Commute;
  }

  /** A rotation in the end keeps the functional odd. */
  lemma RotOdd(k: Trig, prog: seq<Item>, f: Pauli -> real, l: Pauli)
    requires |prog| > 0 && prog[|prog| - 1].Rot?
    requires
      var rest, p := prog[..|prog| - 1], prog[|prog| - 1].p;
      && Expect(k, rest, f, Neg(l)) == -Expect(k, rest, f, l)
      && (|p.ls| == |l.ls| && !Commute(l, p) ==> Expect(k, rest, f, Neg(Mul(l, p))) == -Expect(k, rest, f, Mul(l, p)))
    ensures Expect(k, prog, f, Neg(l)) == -Expect(k, prog, f, l)
  {
    hide *;
    var rest, p, t := prog[..|prog| - 1], prog[|prog| - 1].p, prog[|prog| - 1].angle;
    NegLetters(l);
    if |p.ls| != |l.ls| {
      LastIsElsewhere(k, prog, f, l);
      LastIsElsewhere(k, prog, f, Neg(l));
    } else {
      NegProduct(l, p);
      LastIsRotation(k, prog, f, l);
      LastIsRotation(k, prog, f, Neg(l));
      if !Commute(l, p) {
        MinusBoth(k.cos(t), k.sin(t), Expect(k, rest, f, l), Expect(k, rest, f, Mul(l, p)),
                  Expect(k, rest, f, Neg(l)), Expect(k, rest, f, Mul(Neg(l), p)), Expect(k, prog, f, l), Expect(k, prog, f, Neg(l)));
      }
    }
  }

  lemma NegLetters(l: Pauli)
    ensures Neg(l).ls == l.ls
  {
  }

  lemma NegProduct(l: Pauli, p: Pauli)
    requires |l.ls| == |p.ls|
    ensures Neg(l).ls == l.ls && Commute(Neg(l), p) == Commute(l, p) && Mul(Neg(l), p) == Neg(Mul(l, p))
  {
  }

  lemma LastIsElsewhere(k: Trig, prog: seq<Item>, g: Pauli -> real, l: Pauli)
    requires |prog| > 0 && prog[|prog| - 1].Rot? && |prog[|prog| - 1].p.ls| != |l.ls|
    ensures Expect(k, prog, g, l) == Expect(k, prog[..|prog| - 1], g, l)
  {
  }

  lemma MinusBoth(c: real, s: real, x: real, y: real, x': real, y': real, e: real, e': real)
    requires x' == -x && y' == -y && e == c * x + s * y && e' == c * x' + s * y'
    ensures e' == -e
  {
    MinusOut(c, s, x, y);
  }

  lemma MinusOut(c: real, s: real, x: real, y: real)
    ensures c * -x + s * -y == -(c * x + s * y)
  {
  }

  /** The functional after the program a. */
  ghost function After(k: Trig, a: seq<Item>, f: Pauli -> real): Pauli -> real {
    (p: Pauli) => Expect(k, a, f, p)
  }

  lemma AfterOdd(k: Trig, a: seq<Item>, f: Pauli -> real)
    requires Odd(f)
    ensures Odd(After(k, a, f))
  {
    forall p ensures OddAt(After(k, a, f), p) {
      ExpectOdd(k, a, f, p);
    }
  }

  lemma {:induction false} ExpectConcat(k: Trig, a: seq<Item>, b: seq<Item>, f: Pauli -> real, l: Pauli)
    ensures Expect(k, a + b, f, l) == Expect(k, b, After(k, a, f), l)
    decreases |b|
  {
    hide Conj, AdjointOp, Commute, Mul;
    if |b| == 0 {
      assert a + b == a;
    } else {
      var rest := b[..|b| - 1];
      assert (a + b)[..|a + b| - 1] == a + rest;
      match b[|b| - 1]
      case Gate(op) => ExpectConcat(k, a, rest, f, Conj(AdjointOp(op), l));
      case Rot(p, t) =>
        ExpectConcat(k, a, rest, f, l);
        if |p.ls| == |l.ls| && !Commute(l, p) {
          ExpectConcat(k, a, rest, f, Mul(l, p));
        }
    }
  }

  lemma EquivalentAfter(n: nat, x: seq<Item>, a: seq<Item>, b: seq<Item>)
    requires Equivalent(n, a, b)
    ensures Equivalent(n, x + a, x + b)
  {
    forall k: Trig, f: Pauli -> real, l: Pauli | Lawful(k) && Odd(f) && |l.ls| == n
      ensures Agree(k, x + a, x + b, f, l)
    {
      ExpectConcat(k, x, a, f, l);
      ExpectConcat(k, x, b, f, l);
      AfterOdd(k, x, f);
      assert Agree(k, a, b, After(k, x, f), l);
    }
  }

  lemma {:induction false} ExpectSame(k: Trig, y: seq<Item>, f: Pauli -> real, g: Pauli -> real, l: Pauli)
    requires forall p: Pauli :: |p.ls| == |l.ls| ==> f(p) == g(p)
    ensures Expect(k, y, f, l) == Expect(k, y, g, l)
    decreases |y|
  {
    if |y| > 0 {
      var rest := y[..|y| - 1];
      match y[|y| - 1]
      case Gate(op) => ExpectSame(k, rest, f, g, Conj(AdjointOp(op), l));
      case Rot(p, t) =>
        ExpectSame(k, rest, f, g, l);
        if |p.ls| == |l.ls| && !Commute(l, p) {
          ExpectSame(k, rest, f, g, Mul(l, p));
        }
    }
  }

  lemma EquivalentBefore(n: nat, a: seq<Item>, b: seq<Item>, y: seq<Item>)
    requires Equivalent(n, a, b)
    ensures Equivalent(n, a + y, b + y)
  {
    forall k: Trig, f: Pauli -> real, l: Pauli | Lawful(k) && Odd(f) && |l.ls| == n
      ensures Agree(k, a + y, b + y, f, l)
    {
      ExpectConcat(k, a, y, f, l);
      ExpectConcat(k, b, y, f, l);
      forall p: Pauli | |p.ls| == n ensures After(k, a, f)(p) == After(k, b, f)(p) {
        assert Agree(k, a, b, f, p);
      }
      ExpectSame(k, y, After(k, a, f), After(k, b, f), l);
    }
  }

  /** Replacing a part of a program by an equivalent one. */
  lemma EquivalentWithin(n: nat, x: seq<Item>, a: seq<Item>, b: seq<Item>, y: seq<Item>)
    requires Equivalent(n, a, b)
    ensures Equivalent(n, x + a + y, x + b + y)
  {
    EquivalentAfter(n, x, a, b);
    EquivalentBefore(n, x + a, x + b, y);
  }

  // ---------- single items ----------

  lemma ExpectOne(k: Trig, i: Item, f: Pauli -> real, l: Pauli)
    requires i.Fits(|l.ls|)
    ensures i.Gate? ==> Expect(k, [i], f, l) == f(Conj(AdjointOp(i.op), l))
    ensures i.Rot? && Commute(l, i.p) ==> Expect(k, [i], f, l) == f(l)
    ensures i.Rot? && !Commute(l, i.p) ==>
              Expect(k, [i], f, l) == k.cos(i.angle) * f(l) + k.sin(i.angle) * f(Mul(l, i.p))
  {
    hide Conj;
    assert [i][..0] == [];
  }

  lemma ExpectTwo(k: Trig, i: Item, j: Item, f: Pauli -> real, l: Pauli)
    requires i.Fits(|l.ls|) && j.Fits(|l.ls|)
    ensures j.Gate? ==> Expect(k, [i, j], f, l) == Expect(k, [i], f, Conj(AdjointOp(j.op), l))
    ensures j.Rot? && Commute(l, j.p) ==> Expect(k, [i, j], f, l) == Expect(k, [i], f, l)
    ensures j.Rot? && !Commute(l, j.p) ==>
              Expect(k, [i, j], f, l)
              == k.cos(j.angle) * Expect(k, [i], f, l) + k.sin(j.angle) * Expect(k, [i], f, Mul(l, j.p))
  {
    hide Conj, AdjointOp, Commute, Mul;
    assert [i, j][..1] == [i];
  }

  // ---------- the laws of rotations ----------

  lemma Distribute(ca: real, sa: real, cb: real, sb: real, x: real, y: real)
    ensures cb * (ca * x + sa * y) + sb * (ca * y + sa * -x) == (ca * cb - sa * sb) * x + (sa * cb + ca * sb) * y
  {
  }

  lemma AxisOfProduct(l: Pauli, p: Pauli)
    requires |l.ls| == |p.ls|
    ensures Commute(Mul(l, p), p) == Commute(l, p)
  {
    AnticommutesSymmetric(XorLetters(l.ls, p.ls), p.ls);
    AnticommutesXor(p.ls, l.ls, p.ls);
    AnticommutesSymmetric(p.ls, l.ls);
    SelfCommutes(p.ls);
  }

  lemma {:induction false} SelfCommutes(a: seq<Letter>)
    ensures !Anticommutes(a, a)
  {
    if |a| > 0 {
      SelfCommutes(a[..|a| - 1]);
    }
  }

  /** Two rotations about the same axis add their angles. */
  lemma FuseRotations(n: nat, p: Pauli, a: real, b: real)
    requires |p.ls| == n
    ensures Equivalent(n, [Rot(p, a), Rot(p, b)], [Rot(p, a + b)])
  {
    forall k: Trig, f: Pauli -> real, l: Pauli | Lawful(k) && Odd(f) && |l.ls| == n
      ensures Agree(k, [Rot(p, a), Rot(p, b)], [Rot(p, a + b)], f, l)
    {
      assert OddAt(f, l) && AngleSum(k, a, b);
      FuseExpect(k, p, a, b, f, l);
    }
  }

  lemma FuseExpect(k: Trig, p: Pauli, a: real, b: real, f: Pauli -> real, l: Pauli)
    requires |p.ls| == |l.ls| && AngleSum(k, a, b) && OddAt(f, l)
    ensures Agree(k, [Rot(p, a), Rot(p, b)], [Rot(p, a + b)], f, l)
  {
    ExpectTwo(k, Rot(p, a), Rot(p, b), f, l);
    ExpectOne(k, Rot(p, a), f, l);
    ExpectOne(k, Rot(p, a + b), f, l);
    if !Commute(l, p) {
      ExpectOne(k, Rot(p, a), f, Mul(l, p));
      AxisOfProduct(l, p);
      MulTwice(l, p);
      Distribute(k.cos(a), k.sin(a), k.cos(b), k.sin(b), f(l), f(Mul(l, p)));
    }
  }

  /** A rotation by zero, or about the identity, does nothing. */
  lemma DropRotation(n: nat, p: Pauli, a: real)
    requires |p.ls| == n
    requires a == 0.0 || p.ls == Blank(n)
    ensures Equivalent(n, [Rot(p, a)], [])
  {
    forall k: Trig, f: Pauli -> real, l: Pauli | Lawful(k) && Odd(f) && |l.ls| == n
      ensures Agree(k, [Rot(p, a)], [], f, l)
    {
      ExpectOne(k, Rot(p, a), f, l);
      if p.ls == Blank(n) { BlankCommutes(l.ls, n); }
    }
  }

  /** How the powers of i differ between the products (l p) q and (l q) p, given that of p q. */
  function OrderSum(l: seq<Letter>, p: seq<Letter>, q: seq<Letter>): int
    requires |l| == |p| == |q|
  {
    PowerSum(l, p) + PowerSum(XorLetters(l, p), q) + 2 * PowerSum(p, q) - PowerSum(l, q) - PowerSum(XorLetters(l, q), p)
  }

  function OrderPower(l: Letter, p: Letter, q: Letter): int {
    PowerOfI(l, p) + PowerOfI(XorLetter(l, p), q) + 2 * PowerOfI(p, q) - PowerOfI(l, q) - PowerOfI(XorLetter(l, q), p)
  }

  /** The product of l with two commuting axes does not depend on their order. */
  lemma {:induction false} PowerSumThree(l: seq<Letter>, p: seq<Letter>, q: seq<Letter>)
    requires |l| == |p| == |q|
    ensures OrderSum(l, p, q) % 4 == 0
  {
    if |l| == 0 {
      NoOrders(l, p, q);
    } else {
      hide *;
      var k := |l| - 1;
      PowerSumThree(l[..k], p[..k], q[..k]);
      OrderSumStep(l, p, q);
      LettersThree(l[k], p[k], q[k]);
      FourDividesSum(OrderSum(l[..k], p[..k], q[..k]), OrderPower(l[k], p[k], q[k]));
    }
  }

  lemma NoOrders(l: seq<Letter>, p: seq<Letter>, q: seq<Letter>)
    requires |l| == |p| == |q| == 0
    ensures OrderSum(l, p, q) == 0
  {
  }

  lemma OrderSumStep(l: seq<Letter>, p: seq<Letter>, q: seq<Letter>)
    requires |l| == |p| == |q| > 0
    ensures var k := |l| - 1; OrderSum(l, p, q) == OrderSum(l[..k], p[..k], q[..k]) + OrderPower(l[k], p[k], q[k])
  {
    var k := |l| - 1;
    assert XorLetters(l, p)[..k] == XorLetters(l[..k], p[..k]);
    assert XorLetters(l, q)[..k] == XorLetters(l[..k], q[..k]);
  }

  lemma LettersThree(l: Letter, p: Letter, q: Letter)
    ensures OrderPower(l, p, q) % 4 == 0
  {
  }

  lemma FourDividesSum(a: int, b: int)
    requires a % 4 == 0 && b % 4 == 0
    ensures (a + b) % 4 == 0
  {
  }

  /** The bit of value two of a power of i, which becomes a sign. */
  function Twos(a: nat): int { if a % 4 >= 2 then 1 else 0 }

  lemma Quarters(a: nat)
    ensures a == 4 * (a / 4) + 2 * Twos(a) + a % 2
  {
    SameParity(a, 2 * (a / 4), a % 4);
  }

  lemma SignOfOrders(a: nat, b: nat, c: nat, d: nat, pq: nat)
    requires a % 2 == d % 2 && b % 2 == c % 2 && pq % 2 == 0
    requires (a + b + 2 * pq - c - d) % 4 == 0
    ensures ((a % 4 >= 2) != (b % 4 >= 2)) == ((c % 4 >= 2) != (d % 4 >= 2))
  {
    var x := a + b + 2 * pq - c - d;
    var q, r := a / 4 + b / 4 + pq / 2 - c / 4 - d / 4, 2 * (Twos(a) + Twos(b) - Twos(c) - Twos(d));
    Quarters(a); Quarters(b); Quarters(c); Quarters(d);
    assert x == 4 * q + r;
    FourDividesRest(x, q, r);
  }

  lemma FourDividesRest(x: int, q: int, r: int)
    requires x == 4 * q + r && x % 4 == 0
    ensures r % 4 == 0
  {
    assert r == 4 * (x / 4 - q);
  }

  /** The product of l with two commuting factors does not depend on their order. */
  lemma MulOrder(l: Pauli, p: Pauli, q: Pauli)
    requires |l.ls| == |p.ls| == |q.ls| && Commute(p, q)
    ensures Mul(Mul(l, p), q) == Mul(Mul(l, q), p)
    ensures Commute(Mul(l, p), q) == Commute(l, q) && Commute(Mul(l, q), p) == Commute(l, p)
  {
    hide PowerSum, Anticommutes;
    StillAnticommutes(l, p, q);
    AnticommutesSymmetric(p.ls, q.ls);
    StillAnticommutes(l, q, p);
    var lp, lq := XorLetters(l.ls, p.ls), XorLetters(l.ls, q.ls);
    PowerSumThree(l.ls, p.ls, q.ls);
    AnticommutesIsParity(p.ls, q.ls);
    AnticommutesIsParity(l.ls, p.ls);
    AnticommutesIsParity(l.ls, q.ls);
    AnticommutesIsParity(lp, q.ls);
    AnticommutesIsParity(lq, p.ls);
    SignOfOrders(PowerSum(l.ls, p.ls), PowerSum(lp, q.ls), PowerSum(l.ls, q.ls), PowerSum(lq, p.ls), PowerSum(p.ls, q.ls));
    assert XorLetters(lp, q.ls) == XorLetters(lq, p.ls);
  }

  lemma StillAnticommutes(l: Pauli, p: Pauli, q: Pauli)
    requires |l.ls| == |p.ls| == |q.ls|
    requires Commute(p, q)
    ensures Commute(Mul(l, p), q) == Commute(l, q)
  {
    AnticommutesSymmetric(XorLetters(l.ls, p.ls), q.ls);
    AnticommutesXor(q.ls, l.ls, p.ls);
    AnticommutesSymmetric(q.ls, l.ls);
    AnticommutesSymmetric(q.ls, p.ls);
  }

  lemma Exchange(ca: real, sa: real, cb: real, sb: real, x: real, y: real, z: real, w: real)
    ensures cb * (ca * x + sa * y) + sb * (ca * z + sa * w) == ca * (cb * x + sb * z) + sa * (cb * y + sb * w)
  {
  }

  /** Rotations about commuting axes can be exchanged. */
  lemma SwapRotations(n: nat, p: Pauli, a: real, q: Pauli, b: real)
    requires |p.ls| == |q.ls| == n && Commute(p, q)
    ensures Equivalent(n, [Rot(p, a), Rot(q, b)], [Rot(q, b), Rot(p, a)])
  {
    forall k: Trig, f: Pauli -> real, l: Pauli | Lawful(k) && Odd(f) && |l.ls| == n
      ensures Agree(k, [Rot(p, a), Rot(q, b)], [Rot(q, b), Rot(p, a)], f, l)
    {
      SwapExpect(k, p, a, q, b, f, l);
    }
  }

  lemma SwapExpect(k: Trig, p: Pauli, a: real, q: Pauli, b: real, f: Pauli -> real, l: Pauli)
    requires |p.ls| == |q.ls| == |l.ls| && Commute(p, q)
    ensures Agree(k, [Rot(p, a), Rot(q, b)], [Rot(q, b), Rot(p, a)], f, l)
  {
    AnticommutesSymmetric(p.ls, q.ls);
    if Commute(l, q) {
      SwapOne(k, p, a, q, b, f, l);
    } else if Commute(l, p) {
      SwapOne(k, q, b, p, a, f, l);
    } else {
      SwapBoth(k, p, a, q, b, f, l);
    }
  }

  lemma SwapOne(k: Trig, p: Pauli, a: real, q: Pauli, b: real, f: Pauli -> real, l: Pauli)
    requires |p.ls| == |q.ls| == |l.ls| && Commute(q, p) && Commute(l, q)
    ensures Agree(k, [Rot(p, a), Rot(q, b)], [Rot(q, b), Rot(p, a)], f, l)
  {
    ExpectTwo(k, Rot(p, a), Rot(q, b), f, l);
    ExpectTwo(k, Rot(q, b), Rot(p, a), f, l);
    ExpectOne(k, Rot(p, a), f, l);
    ExpectOne(k, Rot(q, b), f, l);
    ExpectOne(k, Rot(q, b), f, Mul(l, p));
    AnticommutesSymmetric(p.ls, q.ls);
    StillAnticommutes(l, p, q);
  }

  lemma SwapBoth(k: Trig, p: Pauli, a: real, q: Pauli, b: real, f: Pauli -> real, l: Pauli)
    requires |p.ls| == |q.ls| == |l.ls| && Commute(p, q) && !Commute(l, p) && !Commute(l, q)
    ensures Agree(k, [Rot(p, a), Rot(q, b)], [Rot(q, b), Rot(p, a)], f, l)
  {
    MulOrder(l, p, q);
    TwoTurns(k, p, a, q, b, f, l);
    TwoTurns(k, q, b, p, a, f, l);
    Exchange(k.cos(a), k.sin(a), k.cos(b), k.sin(b), f(l), f(Mul(l, p)), f(Mul(l, q)), f(Mul(Mul(l, q), p)));
  }

  lemma TwoTurns(k: Trig, p: Pauli, a: real, q: Pauli, b: real, f: Pauli -> real, l: Pauli)
    requires |p.ls| == |q.ls| == |l.ls| && !Commute(l, p) && !Commute(l, q) && !Commute(Mul(l, q), p)
    ensures Expect(k, [Rot(p, a), Rot(q, b)], f, l)
            == k.cos(b) * (k.cos(a) * f(l) + k.sin(a) * f(Mul(l, p)))
             + k.sin(b) * (k.cos(a) * f(Mul(l, q)) + k.sin(a) * f(Mul(Mul(l, q), p)))
  {
    hide Conj, Expect, Anticommutes, PowerSum;
    ExpectTwo(k, Rot(p, a), Rot(q, b), f, l);
    ExpectOne(k, Rot(p, a), f, l);
    ExpectOne(k, Rot(p, a), f, Mul(l, q));
  }

  /** A rotation about the negated axis is a rotation by the negated angle. */
  lemma NegateAxis(n: nat, p: Pauli, a: real)
    requires |p.ls| == n
    ensures Equivalent(n, [Rot(Neg(p), a)], [Rot(p, -a)])
  {
    forall k: Trig, f: Pauli -> real, l: Pauli | Lawful(k) && Odd(f) && |l.ls| == n
      ensures Agree(k, [Rot(Neg(p), a)], [Rot(p, -a)], f, l)
    {
      assert OddAt(f, Mul(l, p)) && AngleNegated(k, a);
      NegateExpect(k, p, a, f, l);
    }
  }

  lemma NegateExpect(k: Trig, p: Pauli, a: real, f: Pauli -> real, l: Pauli)
    requires |p.ls| == |l.ls| && AngleNegated(k, a) && OddAt(f, Mul(l, p))
    ensures Agree(k, [Rot(Neg(p), a)], [Rot(p, -a)], f, l)
  {
    ExpectOne(k, Rot(Neg(p), a), f, l);
    ExpectOne(k, Rot(p, -a), f, l);
    assert Mul(l, Neg(p)) == Neg(Mul(l, p));
  }

  /** A rotation can be moved past a Clifford operator, which conjugates its axis. */
  lemma PushThroughGate(n: nat, p: Pauli, a: real, op: Op)
    requires |p.ls| == n && op.Fits(n)
    ensures Equivalent(n, [Rot(p, a), Gate(op)], [Gate(op), Rot(Conj(op, p), a)])
  {
    forall k: Trig, f: Pauli -> real, l: Pauli | Lawful(k) && Odd(f) && |l.ls| == n
      ensures Agree(k, [Rot(p, a), Gate(op)], [Gate(op), Rot(Conj(op, p), a)], f, l)
    {
      PushExpect(k, p, a, op, f, l);
    }
  }

  lemma PushExpect(k: Trig, p: Pauli, a: real, op: Op, f: Pauli -> real, l: Pauli)
    requires |p.ls| == |l.ls| && op.Fits(|l.ls|)
    ensures Agree(k, [Rot(p, a), Gate(op)], [Gate(op), Rot(Conj(op, p), a)], f, l)
  {
    hide Conj, AdjointOp, Expect;
    ExpectTwo(k, Rot(p, a), Gate(op), f, l);
    ExpectTwo(k, Gate(op), Rot(Conj(op, p), a), f, l);
    ExpectOne(k, Rot(p, a), f, Conj(AdjointOp(op), l));
    ExpectOne(k, Gate(op), f, l);
    ExpectOne(k, Gate(op), f, Mul(l, Conj(op, p)));
    PullBack(op, l, p);
  }

  lemma AdjointOpCancels(op: Op, p: Pauli)
    requires op.Fits(|p.ls|)
    ensures Conj(op, Conj(AdjointOp(op), p)) == p
  {
    AdjointCancels(AdjointOp(op), p);
  }

  lemma PullBack(op: Op, l: Pauli, p: Pauli)
    requires |l.ls| == |p.ls| && op.Fits(|p.ls|)
    ensures Commute(l, Conj(op, p)) == Commute(Conj(AdjointOp(op), l), p)
    ensures Conj(AdjointOp(op), Mul(l, Conj(op, p))) == Mul(Conj(AdjointOp(op), l), p)
  {
    var l' := Conj(AdjointOp(op), l);
    AdjointOpCancels(op, l);
    Homomorphism(op, l', p);
    AdjointCancels(op, Mul(l', p));
  }

  /** A quarter turn about Z is the gate s. */
  lemma QuarterTurnIsS(n: nat, q: nat)
    requires q < n
    ensures Equivalent(n, [Rot(Pauli(ZLetters(n, q), false), 0.5)], [Gate(S(q))])
  {
    var z := Pauli(ZLetters(n, q), false);
    forall k: Trig, f: Pauli -> real, l: Pauli | Lawful(k) && Odd(f) && |l.ls| == n
      ensures Agree(k, [Rot(z, 0.5)], [Gate(S(q))], f, l)
    {
      ExpectOne(k, Rot(z, 0.5), f, l);
      ExpectOne(k, Gate(S(q)), f, l);
      SdgIsProduct(n, q, l);
    }
  }

  lemma SdgIsProduct(n: nat, q: nat, l: Pauli)
    requires q < n == |l.ls|
    ensures var z := Pauli(ZLetters(n, q), false);
            ConjSdg(l, q) == if Commute(l, z) then l else Mul(l, z)
  {
    hide Anticommutes, PowerSum;
    var z := Pauli(ZLetters(n, q), false);
    AnticommutesGenerator(l.ls, q);
    if l.ls[q].x {
      GeneratorLetters(n, q);
      PowerSumZero(l.ls, Blank(n));
      PowerSumUpdate(l.ls, Blank(n), q, l.ls[q], LZ);
      assert l.ls[q := l.ls[q]] == l.ls;
      assert PowerSum(l.ls, z.ls) == PowerOfI(l.ls[q], LZ);
      assert ConjSdg(l, q).ls == Mul(l, z).ls;
    } else {
      assert ConjSdg(l, q).ls == l.ls;
    }
  }

  // ---------- Clifford circuits ----------

  function Gates(ops: seq<Op>): (r: seq<Item>)
    ensures |r| == |ops| && forall i :: 0 <= i < |ops| ==> r[i] == Gate(ops[i])
  {
    seq(|ops|, i requires 0 <= i < |ops| => Gate(ops[i]))
  }

  lemma GatesConcat(a: seq<Op>, b: seq<Op>)
    ensures Gates(a + b) == Gates(a) + Gates(b)
  {
  }

  lemma {:induction false} ExpectGates(n: nat, k: Trig, ops: seq<Op>, f: Pauli -> real, l: Pauli)
    requires AllFit(ops, n) && |l.ls| == n
    ensures Expect(k, Gates(ops), f, l) == f(ConjAll(Adjoint(ops), l))
  {
    if |ops| > 0 {
      var i := |ops| - 1;
      var op' := AdjointOp(ops[i]);
      LastGate(k, ops, f, l);
      ExpectGates(n, k, ops[..i], f, Conj(op', l));
      AdjointLast(ops);
      ConjAllFirst(op', Adjoint(ops[..i]), l);
    }
  }

  lemma LastGate(k: Trig, ops: seq<Op>, f: Pauli -> real, l: Pauli)
    requires |ops| > 0
    ensures var i := |ops| - 1;
            Expect(k, Gates(ops), f, l) == Expect(k, Gates(ops[..i]), f, Conj(AdjointOp(ops[i]), l))
  {
    assert Gates(ops)[..|ops| - 1] == Gates(ops[..|ops| - 1]);
  }

  /** Strings with the same tableau have inverses that act alike. */
  lemma AdjointDetermined(n: nat, a: seq<Op>, b: seq<Op>, p: Pauli)
    requires AllFit(a, n) && AllFit(b, n) && |p.ls| == n
    requires TableauOf(n, a) == TableauOf(n, b)
    ensures ConjAll(Adjoint(a), p) == ConjAll(Adjoint(b), p)
  {
    var q := ConjAll(Adjoint(a), p);
    AllAdjointCancels(a, p);
    TableauDetermines(n, a, b, q);
    AdjointAllCancels(b, q);
  }

  /** Clifford circuits with the same tableau have the same meaning. */
  lemma SameTableauSameMeaning(n: nat, a: seq<Op>, b: seq<Op>)
    requires AllFit(a, n) && AllFit(b, n)
    requires TableauOf(n, a) == TableauOf(n, b)
    ensures Equivalent(n, Gates(a), Gates(b))
  {
    forall k: Trig, f: Pauli -> real, l: Pauli | Lawful(k) && Odd(f) && |l.ls| == n
      ensures Agree(k, Gates(a), Gates(b), f, l)
    {
      ExpectGates(n, k, a, f, l);
      ExpectGates(n, k, b, f, l);
      AdjointDetermined(n, a, b, l);
    }
  }

  lemma {:induction false} PushThroughGates(n: nat, p: Pauli, a: real, ops: seq<Op>)
    requires |p.ls| == n && AllFit(ops, n)
    ensures Equivalent(n, [Rot(p, a)] + Gates(ops), Gates(ops) + [Rot(ConjAll(ops, p), a)])
  {
    if |ops| == 0 {
      assert [Rot(p, a)] + Gates(ops) == [Rot(p, a)] == Gates(ops) + [Rot(ConjAll(ops, p), a)];
      EquivalentReflexive(n, [Rot(p, a)]);
    } else {
      var i := |ops| - 1;
      var init, last := ops[..i], ops[i];
      var p' := ConjAll(init, p);
      PushThroughGates(n, p, a, init);
      EquivalentBefore(n, [Rot(p, a)] + Gates(init), Gates(init) + [Rot(p', a)], [Gate(last)]);
      PushThroughGate(n, p', a, last);
      EquivalentAfter(n, Gates(init), [Rot(p', a), Gate(last)], [Gate(last), Rot(Conj(last, p'), a)]);
      assert [Rot(p, a)] + Gates(init) + [Gate(last)] == [Rot(p, a)] + Gates(ops);
      assert Gates(init) + [Rot(p', a)] + [Gate(last)] == Gates(init) + [Rot(p', a), Gate(last)];
      assert Gates(init) + [Gate(last), Rot(Conj(last, p'), a)] == Gates(ops) + [Rot(ConjAll(ops, p), a)];
      EquivalentTransitive(n, [Rot(p, a)] + Gates(ops), Gates(init) + [Rot(p', a), Gate(last)],
                           Gates(ops) + [Rot(ConjAll(ops, p), a)]);
    }
  }
}
