/**
 The meaning of diagonal rotations is their phase function: lists that give every basis
 state the same phase, up to full turns and one constant, are equivalent.

 A functional on products is split into parts that every Z multiplies by a sign, one part
 for every basis state.  On such a part a list of diagonal rotations is one rotation by the
 difference of two of its phases.
 */
module DiagonalPhases {
  import opened PauliAlgebra
  import opened CliffordOps
  import opened CliffordTableaux
  import opened ProgramSemantics
  import opened PauliRotations
  import opened DiagonalCircuits

  // ---------- parities ----------

  /** The parity a diagonal product measures on the bits x. */
  function Parity(ls: seq<Letter>, x: seq<bool>): bool
    requires |ls| == |x|
  {
    if |ls| == 0 then false
    else Parity(ls[..|ls| - 1], x[..|x| - 1]) != (ls[|ls| - 1].z && x[|x| - 1])
  }

  lemma {:induction false} ParityUpdate(ls: seq<Letter>, x: seq<bool>, a: nat)
    requires |ls| == |x| && a < |ls| && !ls[a].z
    ensures Parity(ls[a := LZ], x) == (Parity(ls, x) != x[a])
  {
    var k := |ls| - 1;
    if a == k {
      assert ls[a := LZ][..k] == ls[..k];
    } else {
      assert ls[a := LZ][..k] == ls[..k][a := LZ];
      ParityUpdate(ls[..k], x[..k], a);
    }
  }

  /** The x-bits of a product: what it adds to a basis state. */
  function XBits(ls: seq<Letter>): (r: seq<bool>)
    ensures |r| == |ls| && forall i :: 0 <= i < |ls| ==> r[i] == ls[i].x
  {
    seq(|ls|, i requires 0 <= i < |ls| => ls[i].x)
  }

  function XorBits(x: seq<bool>, y: seq<bool>): (r: seq<bool>)
    requires |x| == |y|
    ensures |r| == |x| && forall i :: 0 <= i < |x| ==> r[i] == (x[i] != y[i])
  {
    seq(|x|, i requires 0 <= i < |x| => x[i] != y[i])
  }

  lemma {:induction false} ParityXor(ls: seq<Letter>, x: seq<bool>, y: seq<bool>)
    requires |ls| == |x| == |y|
    ensures Parity(ls, XorBits(x, y)) == (Parity(ls, x) != Parity(ls, y))
  {
    if |ls| > 0 {
      var k := |ls| - 1;
      ParityXor(ls[..k], x[..k], y[..k]);
      assert XorBits(x, y)[..k] == XorBits(x[..k], y[..k]);
    }
  }

  /** A diagonal product anticommutes with l exactly when its parity on the x-bits of l is odd. */
  lemma {:induction false} ParityIsForm(l: seq<Letter>, p: seq<Letter>)
    requires |l| == |p| && forall j :: 0 <= j < |p| ==> !p[j].x
    ensures Anticommutes(l, p) == Parity(p, XBits(l))
  {
    if |l| > 0 {
      var k := |l| - 1;
      ParityIsForm(l[..k], p[..k]);
      assert XBits(l)[..k] == XBits(l[..k]);
    }
  }

  lemma {:induction false} ParityNothing(ls: seq<Letter>, x: seq<bool>)
    requires |ls| == |x| && forall j :: 0 <= j < |ls| ==> !ls[j].z
    ensures !Parity(ls, x)
  {
    if |ls| > 0 { ParityNothing(ls[..|ls| - 1], x[..|x| - 1]); }
  }

  // ---------- phases of lists of diagonal rotations ----------

  /** The phase a list of diagonal rotations gives to the basis state x. */
  function PhaseAt(rs: seq<Rotation>, x: seq<bool>): real
    requires forall i :: 0 <= i < |rs| ==> |rs[i].p.ls| == |x|
  {
    if |rs| == 0 then 0.0
    else PhaseAt(rs[..|rs| - 1], x) + if Parity(rs[|rs| - 1].p.ls, x) then rs[|rs| - 1].phase else 0.0
  }

  lemma {:induction false} PhaseConcat(a: seq<Rotation>, b: seq<Rotation>, x: seq<bool>)
    requires forall i :: 0 <= i < |a| ==> |a[i].p.ls| == |x|
    requires forall i :: 0 <= i < |b| ==> |b[i].p.ls| == |x|
    ensures PhaseAt(a + b, x) == PhaseAt(a, x) + PhaseAt(b, x)
  {
    if |b| == 0 {
      assert a + b == a;
    } else {
      assert (a + b)[..|a + b| - 1] == a + b[..|b| - 1];
      PhaseConcat(a, b[..|b| - 1], x);
    }
  }

  predicate SameUpTo(a: real, b: real, m: int) { a == b + 2.0 * m as real }

  /** Equal up to full turns. */
  ghost predicate Congruent(a: real, b: real) { exists m: int :: SameUpTo(a, b, m) }

  lemma CongruentSum(a: real, b: real, c: real, d: real)
    requires Congruent(a, b) && Congruent(c, d)
    ensures Congruent(a + c, b + d)
  {
    var m: int :| SameUpTo(a, b, m);
    var k: int :| SameUpTo(c, d, k);
    assert SameUpTo(a + c, b + d, m + k);
  }

  lemma NormalizeCongruent(t: real)
    ensures Congruent(Normalize(t), t)
  {
    var m: int :| Turns(Normalize(t), t, m);
    assert SameUpTo(Normalize(t), t, -m);
  }

  lemma CongruentSame(a: real)
    ensures Congruent(a, a)
  {
    assert SameUpTo(a, a, 0);
  }

  lemma CongruentChain(a: real, b: real, c: real)
    requires Congruent(a, b) && Congruent(b, c)
    ensures Congruent(a, c)
  {
    var m: int :| SameUpTo(a, b, m);
    var k: int :| SameUpTo(b, c, k);
    assert SameUpTo(a, c, m + k);
  }

  // ---------- products with two commuting factors ----------

  function GroupPower(l: Letter, p: Letter, q: Letter): int {
    PowerOfI(l, p) + PowerOfI(XorLetter(l, p), q) - PowerOfI(l, XorLetter(p, q)) - PowerOfI(p, q)
  }

  function GroupSum(l: seq<Letter>, p: seq<Letter>, q: seq<Letter>): int
    requires |l| == |p| == |q|
  {
    PowerSum(l, p) + PowerSum(XorLetters(l, p), q) - PowerSum(l, XorLetters(p, q)) - PowerSum(p, q)
  }

  lemma GroupLetters(l: Letter, p: Letter, q: Letter)
    ensures GroupPower(l, p, q) % 4 == 0
  {
  }

  lemma GroupSumStep(l: seq<Letter>, p: seq<Letter>, q: seq<Letter>)
    requires |l| == |p| == |q| > 0
    ensures var k := |l| - 1; GroupSum(l, p, q) == GroupSum(l[..k], p[..k], q[..k]) + GroupPower(l[k], p[k], q[k])
  {
    var k := |l| - 1;
    assert XorLetters(l, p)[..k] == XorLetters(l[..k], p[..k]);
    assert XorLetters(p, q)[..k] == XorLetters(p[..k], q[..k]);
  }

  /** The power of i of a product of three does not depend on how it is bracketed. */
  lemma {:induction false} GroupSumZero(l: seq<Letter>, p: seq<Letter>, q: seq<Letter>)
    requires |l| == |p| == |q|
    ensures GroupSum(l, p, q) % 4 == 0
  {
    if |l| > 0 {
      var k := |l| - 1;
      GroupSumZero(l[..k], p[..k], q[..k]);
      GroupSumStep(l, p, q);
      GroupLetters(l[k], p[k], q[k]);
      FourDividesSum(GroupSum(l[..k], p[..k], q[..k]), GroupPower(l[k], p[k], q[k]));
    }
  }

  lemma SignOfGroups(a: nat, b: nat, c: nat, e: nat)
    requires (a + b - c - e) % 4 == 0 && e % 2 == 0 && c % 2 == if a % 2 == b % 2 then 0 else 1
    ensures ((a % 4 >= 2) != (b % 4 >= 2)) == (((c % 4 >= 2) != (e % 4 >= 2)) != (a % 2 == 1 && b % 2 == 1))
  {
    var q := a / 4 + b / 4 - c / 4 - e / 4;
    var r := 2 * (Twos(a) + Twos(b) - Twos(c) - Twos(e)) + if a % 2 == 1 && b % 2 == 1 then 2 else 0;
    Quarters(a); Quarters(b); Quarters(c); Quarters(e);
    assert a + b - c - e == 4 * q + r;
    FourDividesRest(a + b - c - e, q, r);
  }

  /** Multiplying by a product of commuting factors is multiplying by one after the other, up to the factor i * i. */
  lemma MulProduct(l: Pauli, p: Pauli, q: Pauli)
    requires |l.ls| == |p.ls| == |q.ls| && Commute(p, q)
    ensures
      var both := Mul(Mul(l, p), q);
      Mul(l, Mul(p, q)) == if !Commute(l, p) && !Commute(l, q) then Neg(both) else both
    ensures Commute(l, Mul(p, q)) == (Commute(l, p) == Commute(l, q))
  {
    hide PowerSum, Anticommutes;
    var lp, pq := XorLetters(l.ls, p.ls), XorLetters(p.ls, q.ls);
    StillAnticommutes(l, p, q);
    AnticommutesXor(l.ls, p.ls, q.ls);
    GroupSumZero(l.ls, p.ls, q.ls);
    AnticommutesIsParity(p.ls, q.ls);
    AnticommutesIsParity(l.ls, p.ls);
    AnticommutesIsParity(lp, q.ls);
    AnticommutesIsParity(l.ls, pq);
    SignOfGroups(PowerSum(l.ls, p.ls), PowerSum(lp, q.ls), PowerSum(l.ls, pq), PowerSum(p.ls, q.ls));
    assert XorLetters(lp, q.ls) == XorLetters(l.ls, pq);
  }

  // ---------- functionals that every Z multiplies by a sign ----------

  function SignedBy(neg: bool, v: real): real { if neg then -v else v }

  /**
   The complex functional g + i h gives the product of l and p the sign times its value on l.  When l and p
   anticommute, their signed product is -i l p.
   */
  ghost predicate EigenAt(g: Pauli -> real, h: Pauli -> real, p: Pauli, neg: bool, l: Pauli)
    requires |l.ls| == |p.ls|
  {
    if Commute(l, p) then g(Mul(l, p)) == SignedBy(neg, g(l)) && h(Mul(l, p)) == SignedBy(neg, h(l))
    else g(Mul(l, p)) == SignedBy(neg, h(l)) && h(Mul(l, p)) == SignedBy(!neg, g(l))
  }

  ghost predicate Eigen(g: Pauli -> real, h: Pauli -> real, p: Pauli, neg: bool) {
    forall l: Pauli :: |l.ls| == |p.ls| ==> EigenAt(g, h, p, neg, l)
  }

  /** What holds for two commuting products holds for their product. */
  lemma EigenProduct(g: Pauli -> real, h: Pauli -> real, p: Pauli, a: bool, q: Pauli, b: bool)
    requires |p.ls| == |q.ls| && Commute(p, q) && Eigen(g, h, p, a) && Eigen(g, h, q, b) && Odd(g) && Odd(h)
    ensures Eigen(g, h, Mul(p, q), a != b)
  {
    forall l: Pauli | |l.ls| == |p.ls| ensures EigenAt(g, h, Mul(p, q), a != b, l) {
      assert EigenAt(g, h, p, a, l) && EigenAt(g, h, q, b, Mul(l, p));
      assert OddAt(g, Mul(Mul(l, p), q)) && OddAt(h, Mul(Mul(l, p), q));
      EigenProductAt(g, h, p, a, q, b, l);
    }
  }

  lemma EigenProductAt(g: Pauli -> real, h: Pauli -> real, p: Pauli, a: bool, q: Pauli, b: bool, l: Pauli)
    requires |p.ls| == |q.ls| == |l.ls| && Commute(p, q)
    requires EigenAt(g, h, p, a, l) && EigenAt(g, h, q, b, Mul(l, p))
    requires OddAt(g, Mul(Mul(l, p), q)) && OddAt(h, Mul(Mul(l, p), q))
    ensures EigenAt(g, h, Mul(p, q), a != b, l)
  {
    MulProduct(l, p, q);
    StillAnticommutes(l, p, q);
    hide Commute, Mul;
  }

  /** The identity product multiplies by one. */
  lemma EigenBlank(g: Pauli -> real, h: Pauli -> real, n: nat)
    ensures Eigen(g, h, Pauli(Blank(n), false), false)
  {
    var e := Pauli(Blank(n), false);
    forall l: Pauli | |l.ls| == n ensures EigenAt(g, h, e, false, l) {
      BlankCommutes(l.ls, n);
      PowerSumZero(l.ls, e.ls);
      assert XorLetters(l.ls, e.ls) == l.ls;
    }
  }

  function ZAt(n: nat, q: nat): Pauli { Pauli(ZLetters(n, q), false) }

  /** The Z of each of the first |x| qubits multiplies by the sign of the basis state x. */
  ghost predicate Eigens(n: nat, g: Pauli -> real, h: Pauli -> real, x: seq<bool>) {
    |x| <= n && forall j :: 0 <= j < |x| ==> Eigen(g, h, ZAt(n, j), x[j])
  }

  /** Then every diagonal product multiplies by the sign of its parity on x. */
  lemma {:induction false} EigenDiagonal(n: nat, g: Pauli -> real, h: Pauli -> real, x: seq<bool>, p: Pauli, k: nat)
    requires Eigens(n, g, h, x) && |x| == n == |p.ls| && Diagonal(p) && Odd(g) && Odd(h) && k <= n
    ensures Eigen(g, h, Prefix(p.ls, k), Parity(Prefix(p.ls, k).ls, x))
    decreases k
  {
    hide Eigen, Odd, Mul, Parity;
    var r := Prefix(p.ls, k);
    if k == 0 {
      assert r == Pauli(Blank(n), false);
      ParityNothing(r.ls, x);
      EigenBlank(g, h, n);
    } else {
      var i := k - 1;
      var s := Prefix(p.ls, i);
      EigenDiagonal(n, g, h, x, p, i);
      if p.ls[i] == LI {
        assert r == s;
      } else {
        PrefixNext(n, x, p, i);
        EigenProduct(g, h, s, Parity(s.ls, x), ZAt(n, i), x[i]);
      }
    }
  }

  lemma PrefixNext(n: nat, x: seq<bool>, p: Pauli, i: nat)
    requires |x| == n == |p.ls| && Diagonal(p) && i < n && p.ls[i] != LI
    ensures var s, r := Prefix(p.ls, i), Prefix(p.ls, i + 1);
            r == Mul(s, ZAt(n, i)) && Commute(s, ZAt(n, i)) && Parity(r.ls, x) == (Parity(s.ls, x) != x[i])
  {
    var s, r := Prefix(p.ls, i), Prefix(p.ls, i + 1);
    assert p.ls[i] == LZ;
    MulDisjoint(s, ZAt(n, i));
    assert XorLetters(s.ls, ZAt(n, i).ls) == r.ls;
    NoXCommutes(s.ls, ZAt(n, i).ls);
    assert s.ls[i := LZ] == r.ls;
    ParityUpdate(s.ls, x, i);
  }

  // ---------- splitting a functional ----------

  /** The real part of the component that z multiplies by the given sign. */
  ghost function PartRe(g: Pauli -> real, h: Pauli -> real, z: Pauli, neg: bool): Pauli -> real {
    (l: Pauli) =>
      if |l.ls| != |z.ls| then 0.0
      else if Commute(l, z) then (g(l) + SignedBy(neg, g(Mul(l, z)))) / 2.0
      else (g(l) - SignedBy(neg, h(Mul(l, z)))) / 2.0
  }

  /** Its imaginary part. */
  ghost function PartIm(g: Pauli -> real, h: Pauli -> real, z: Pauli, neg: bool): Pauli -> real {
    (l: Pauli) =>
      if |l.ls| != |z.ls| then 0.0
      else if Commute(l, z) then (h(l) + SignedBy(neg, h(Mul(l, z)))) / 2.0
      else (h(l) + SignedBy(neg, g(Mul(l, z)))) / 2.0
  }

  lemma PartsOdd(g: Pauli -> real, h: Pauli -> real, z: Pauli, neg: bool)
    requires Odd(g) && Odd(h)
    ensures Odd(PartRe(g, h, z, neg)) && Odd(PartIm(g, h, z, neg))
  {
    var g', h' := PartRe(g, h, z, neg), PartIm(g, h, z, neg);
    forall l: Pauli ensures OddAt(g', l) && OddAt(h', l) {
      if |l.ls| == |z.ls| {
        assert Mul(Neg(l), z) == Neg(Mul(l, z));
        assert OddAt(g, l) && OddAt(h, l) && OddAt(g, Mul(l, z)) && OddAt(h, Mul(l, z));
      }
    }
  }

  lemma PartsEigen(g: Pauli -> real, h: Pauli -> real, z: Pauli, neg: bool)
    requires Odd(g) && Odd(h)
    ensures Eigen(PartRe(g, h, z, neg), PartIm(g, h, z, neg), z, neg)
  {
    var g', h' := PartRe(g, h, z, neg), PartIm(g, h, z, neg);
    forall l: Pauli | |l.ls| == |z.ls| ensures EigenAt(g', h', z, neg, l) {
      MulTwice(l, z);
      AxisOfProduct(l, z);
      assert OddAt(g, l) && OddAt(h, l);
      hide Commute, Mul;
    }
  }

  /** What held for another commuting product still holds for the component. */
  lemma PartsKeep(g: Pauli -> real, h: Pauli -> real, z: Pauli, neg: bool, p: Pauli, a: bool)
    requires |p.ls| == |z.ls| && Commute(p, z) && Eigen(g, h, p, a)
    ensures Eigen(PartRe(g, h, z, neg), PartIm(g, h, z, neg), p, a)
  {
    hide EigenAt;
    forall l: Pauli | |l.ls| == |p.ls| ensures EigenAt(PartRe(g, h, z, neg), PartIm(g, h, z, neg), p, a, l) {
      assert EigenAt(g, h, p, a, l) && EigenAt(g, h, p, a, Mul(l, z));
      PartsKeepAt(g, h, z, neg, p, a, l);
    }
  }

  lemma PartsKeepAt(g: Pauli -> real, h: Pauli -> real, z: Pauli, neg: bool, p: Pauli, a: bool, l: Pauli)
    requires |p.ls| == |z.ls| == |l.ls| && Commute(p, z)
    requires EigenAt(g, h, p, a, l) && EigenAt(g, h, p, a, Mul(l, z))
    ensures EigenAt(PartRe(g, h, z, neg), PartIm(g, h, z, neg), p, a, l)
  {
    MulOrder(l, p, z);
    PartsAt(g, h, z, neg, l);
    PartsAt(g, h, z, neg, Mul(l, p));
    hide Commute, Mul, PartRe, PartIm;
  }

  lemma PartsAt(g: Pauli -> real, h: Pauli -> real, z: Pauli, neg: bool, l: Pauli)
    requires |l.ls| == |z.ls|
    ensures PartRe(g, h, z, neg)(l) == (if Commute(l, z) then g(l) + SignedBy(neg, g(Mul(l, z))) else g(l) - SignedBy(neg, h(Mul(l, z)))) / 2.0
    ensures PartIm(g, h, z, neg)(l) == (h(l) + SignedBy(neg, if Commute(l, z) then h(Mul(l, z)) else g(Mul(l, z)))) / 2.0
  {
  }

  lemma PartsAdd(g: Pauli -> real, h: Pauli -> real, z: Pauli, l: Pauli)
    requires |l.ls| == |z.ls|
    ensures g(l) == PartRe(g, h, z, false)(l) + PartRe(g, h, z, true)(l)
  {
    PartsAt(g, h, z, false, l);
    PartsAt(g, h, z, true, l);
  }

  lemma EigensNext(n: nat, g: Pauli -> real, h: Pauli -> real, x: seq<bool>, bit: bool)
    requires Eigens(n, g, h, x) && |x| < n && Odd(g) && Odd(h)
    ensures var z := ZAt(n, |x|); Eigens(n, PartRe(g, h, z, bit), PartIm(g, h, z, bit), x + [bit])
  {
    var z := ZAt(n, |x|);
    forall j | 0 <= j < |x| + 1 ensures Eigen(PartRe(g, h, z, bit), PartIm(g, h, z, bit), ZAt(n, j), (x + [bit])[j]) {
      if j < |x| {
        NoXCommutes(ZLetters(n, j), ZLetters(n, |x|));
        PartsKeep(g, h, z, bit, ZAt(n, j), x[j]);
      } else {
        PartsEigen(g, h, z, bit);
      }
    }
  }

  /** The value of a program is additive in the functional. */
  lemma {:induction false} ExpectSum(k: Trig, prog: seq<Item>, f: Pauli -> real, g: Pauli -> real, h: Pauli -> real, l: Pauli)
    requires forall p: Pauli :: |p.ls| == |l.ls| ==> f(p) == g(p) + h(p)
    ensures Expect(k, prog, f, l) == Expect(k, prog, g, l) + Expect(k, prog, h, l)
    decreases |prog|
  {
    hide Conj;
    if |prog| > 0 {
      var rest := prog[..|prog| - 1];
      match prog[|prog| - 1]
      case Gate(op) => ExpectSum(k, rest, f, g, h, Conj(AdjointOp(op), l));
      case Rot(p, t) =>
        ExpectSum(k, rest, f, g, h, l);
        if |p.ls| == |l.ls| && !Commute(l, p) {
          var m := Mul(l, p);
          ExpectSum(k, rest, f, g, h, m);
          SumOut(k.cos(t), k.sin(t), Expect(k, rest, g, l), Expect(k, rest, h, l), Expect(k, rest, g, m), Expect(k, rest, h, m));
        }
    }
  }

  lemma SumOut(c: real, s: real, x: real, x': real, y: real, y': real)
    ensures c * (x + x') + s * (y + y') == (c * x + s * y) + (c * x' + s * y')
  {
  }

  // ---------- diagonal rotations on one component ----------

  predicate AllLong(rs: seq<Rotation>, n: nat) { forall i :: 0 <= i < |rs| ==> |rs[i].p.ls| == n }

  /** How far the list turns the component of x on products with the x-bits y. */
  function TurnBy(rs: seq<Rotation>, x: seq<bool>, y: seq<bool>): real
    requires AllLong(rs, |x|) && |x| == |y|
  {
    PhaseAt(rs, XorBits(x, y)) - PhaseAt(rs, x)
  }

  lemma TurnNext(rs: seq<Rotation>, x: seq<bool>, l: Pauli)
    requires AllLong(rs, |x|) && |x| == |l.ls| && |rs| > 0 && Diagonal(rs[|rs| - 1].p)
    ensures var r := rs[|rs| - 1];
            TurnBy(rs, x, XBits(l.ls)) == TurnBy(rs[..|rs| - 1], x, XBits(l.ls))
                                          + if Commute(l, r.p) then 0.0 else SignedBy(Parity(r.p.ls, x), r.phase)
  {
    var r := rs[|rs| - 1];
    ParityXor(r.p.ls, x, XBits(l.ls));
    ParityIsForm(l.ls, r.p.ls);
  }

  lemma TurnOfProduct(rs: seq<Rotation>, x: seq<bool>, l: Pauli, p: Pauli)
    requires AllLong(rs, |x|) && |x| == |l.ls| == |p.ls| && Diagonal(p)
    ensures TurnBy(rs, x, XBits(Mul(l, p).ls)) == TurnBy(rs, x, XBits(l.ls))
  {
    assert XBits(Mul(l, p).ls) == XBits(l.ls);
  }

  lemma TurnFurther(k: Trig, t: real, a: real, neg: bool, v: real, w: real)
    requires Lawful(k)
    ensures k.cos(a) * (k.cos(t) * v + k.sin(t) * w) + k.sin(a) * (k.cos(t) * SignedBy(neg, w) + k.sin(t) * SignedBy(!neg, v))
            == k.cos(t + SignedBy(neg, a)) * v + k.sin(t + SignedBy(neg, a)) * w
  {
    assert AngleSum(k, t, a) && AngleSum(k, t, -a) && AngleNegated(k, a);
    if neg {
      Gather(k.cos(a), -k.sin(a), k.cos(t), k.sin(t), v, w);
    } else {
      Gather(k.cos(a), k.sin(a), k.cos(t), k.sin(t), v, w);
    }
  }

  lemma Gather(ca: real, sa: real, ct: real, st: real, v: real, w: real)
    ensures ca * (ct * v + st * w) + sa * (ct * w + st * -v) == (ct * ca - st * sa) * v + (st * ca + ct * sa) * w
  {
  }

  /** The real part of v + i w turned back by the angle t. */
  function Turned(k: Trig, t: real, v: real, w: real): real { k.cos(t) * v + k.sin(t) * w }

  lemma LastRotation(k: Trig, rs: seq<Rotation>, g: Pauli -> real, l: Pauli)
    requires |rs| > 0 && |rs[|rs| - 1].p.ls| == |l.ls|
    ensures
      var r, init := rs[|rs| - 1], Rots(rs[..|rs| - 1]);
      Expect(k, Rots(rs), g, l)
      == if Commute(l, r.p) then Expect(k, init, g, l)
         else k.cos(r.phase) * Expect(k, init, g, l) + k.sin(r.phase) * Expect(k, init, g, Mul(l, r.p))
  {
    hide Expect, Mul, Commute;
    assert Rots(rs)[..|rs| - 1] == Rots(rs[..|rs| - 1]) && Rots(rs)[|rs| - 1] == Item1(rs[|rs| - 1]);
    LastIsRotation(k, Rots(rs), g, l);
  }

  /** One rotation of the list that anticommutes with l. */
  lemma EigenTurns(k: Trig, t: real, a: real, neg: bool, g: Pauli -> real, h: Pauli -> real, p: Pauli, l: Pauli)
    requires Lawful(k) && |p.ls| == |l.ls| && !Commute(l, p) && EigenAt(g, h, p, neg, l)
    ensures k.cos(a) * Turned(k, t, g(l), h(l)) + k.sin(a) * Turned(k, t, g(Mul(l, p)), h(Mul(l, p)))
            == Turned(k, t + SignedBy(neg, a), g(l), h(l))
  {
    hide Lawful, Commute, Mul;
    TurnFurther(k, t, a, neg, g(l), h(l));
  }

  /** On the component of x the list is one rotation. */
  lemma {:induction false} EigenExpect(k: Trig, n: nat, rs: seq<Rotation>, g: Pauli -> real, h: Pauli -> real, x: seq<bool>, l: Pauli)
    requires Lawful(k) && AllNormal(rs, n) && AllDiagonal(rs) && |l.ls| == n == |x|
    requires Eigens(n, g, h, x) && Odd(g) && Odd(h)
    ensures AllLong(rs, n)
    ensures Expect(k, Rots(rs), g, l) == Turned(k, TurnBy(rs, x, XBits(l.ls)), g(l), h(l))
    decreases |rs|
  {
    hide Lawful, TurnBy, Odd, Eigens, EigenAt, Commute, Expect, Rots, Turned, Diagonal, XBits, Parity, Anticommutes, PowerSum;
    if |rs| == 0 {
      NoTurn(k, rs, g, h, x, l);
    } else {
      var i := |rs| - 1;
      var r := rs[i];
      LastRotation(k, rs, g, l);
      EigenExpect(k, n, rs[..i], g, h, x, l);
      TurnNext(rs, x, l);
      if !Commute(l, r.p) {
        var m := Mul(l, r.p);
        EigenExpect(k, n, rs[..i], g, h, x, m);
        TurnOfProduct(rs[..i], x, l, r.p);
        EigenRotation(n, g, h, x, r.p, l);
        EigenTurns(k, TurnBy(rs[..i], x, XBits(l.ls)), r.phase, Parity(r.p.ls, x), g, h, r.p, l);
      }
    }
  }

  lemma NoTurn(k: Trig, rs: seq<Rotation>, g: Pauli -> real, h: Pauli -> real, x: seq<bool>, l: Pauli)
    requires Lawful(k) && rs == [] && |x| == |l.ls|
    ensures Expect(k, Rots(rs), g, l) == Turned(k, TurnBy(rs, x, XBits(l.ls)), g(l), h(l))
  {
  }

  lemma EigenRotation(n: nat, g: Pauli -> real, h: Pauli -> real, x: seq<bool>, p: Pauli, l: Pauli)
    requires Eigens(n, g, h, x) && |x| == n == |p.ls| == |l.ls| && Diagonal(p) && Odd(g) && Odd(h)
    ensures EigenAt(g, h, p, Parity(p.ls, x), l)
  {
    hide EigenAt, Odd, Eigens, Parity;
    EigenDiagonal(n, g, h, x, p, n);
    assert Prefix(p.ls, n) == p;
  }

  // ---------- equal phases, equal meaning ----------

  /** Up to full turns the two lists give every basis state the same phase. */
  ghost predicate SamePhases(n: nat, a: seq<Rotation>, b: seq<Rotation>)
    requires AllLong(a, n) && AllLong(b, n)
  {
    forall x: seq<bool> :: |x| == n ==> Congruent(PhaseAt(a, x), PhaseAt(b, x))
  }

  lemma NormalIsLong(n: nat, rs: seq<Rotation>)
    requires AllNormal(rs, n)
    ensures AllLong(rs, n)
  {
  }

  lemma SameTurns(k: Trig, n: nat, a: seq<Rotation>, b: seq<Rotation>, x: seq<bool>, y: seq<bool>)
    requires Lawful(k) && AllLong(a, n) && AllLong(b, n) && SamePhases(n, a, b) && |x| == |y| == n
    ensures k.cos(TurnBy(a, x, y)) == k.cos(TurnBy(b, x, y)) && k.sin(TurnBy(a, x, y)) == k.sin(TurnBy(b, x, y))
  {
    var z := XorBits(x, y);
    assert Congruent(PhaseAt(a, z), PhaseAt(b, z)) && Congruent(PhaseAt(a, x), PhaseAt(b, x));
    var i: int :| SameUpTo(PhaseAt(a, z), PhaseAt(b, z), i);
    var j: int :| SameUpTo(PhaseAt(a, x), PhaseAt(b, x), j);
    assert TurnBy(a, x, y) == TurnBy(b, x, y) + 2.0 * (i - j) as real;
    ManyTurns(k, TurnBy(b, x, y), i - j);
  }

  /** Component by component the two lists have the same values. */
  lemma {:induction false} SameOnComponents(k: Trig, n: nat, a: seq<Rotation>, b: seq<Rotation>,
                                            g: Pauli -> real, h: Pauli -> real, x: seq<bool>, l: Pauli)
    requires Lawful(k) && AllNormal(a, n) && AllDiagonal(a) && AllNormal(b, n) && AllDiagonal(b)
    requires AllLong(a, n) && AllLong(b, n) && SamePhases(n, a, b)
    requires Eigens(n, g, h, x) && Odd(g) && Odd(h) && |l.ls| == n
    ensures Agree(k, Rots(a), Rots(b), g, l)
    decreases n - |x|
  {
    hide Lawful, SamePhases, Odd, Eigens, Expect, PartRe, PartIm, TurnBy, AllNormal, AllDiagonal, AllLong;
    EigensShort(n, g, h, x);
    if |x| == n {
      EigenExpect(k, n, a, g, h, x, l);
      EigenExpect(k, n, b, g, h, x, l);
      SameTurns(k, n, a, b, x, XBits(l.ls));
    } else {
      var z := ZAt(n, |x|);
      var g0, g1 := PartRe(g, h, z, false), PartRe(g, h, z, true);
      var h0, h1 := PartIm(g, h, z, false), PartIm(g, h, z, true);
      EigensNext(n, g, h, x, false);
      EigensNext(n, g, h, x, true);
      PartsOdd(g, h, z, false);
      PartsOdd(g, h, z, true);
      SameOnComponents(k, n, a, b, g0, h0, x + [false], l);
      SameOnComponents(k, n, a, b, g1, h1, x + [true], l);
      forall p: Pauli | |p.ls| == |l.ls| ensures g(p) == g0(p) + g1(p) { PartsAdd(g, h, z, p); }
      ExpectSum(k, Rots(a), g, g0, g1, l);
      ExpectSum(k, Rots(b), g, g0, g1, l);
    }
  }

  lemma EigensShort(n: nat, g: Pauli -> real, h: Pauli -> real, x: seq<bool>)
    requires Eigens(n, g, h, x)
    ensures |x| <= n
  {
  }

  ghost function Zero(): Pauli -> real { (p: Pauli) => 0.0 }

  lemma ZeroOdd()
    ensures Odd(Zero())
  {
    forall p ensures OddAt(Zero(), p) {
    }
  }

  /** Lists of diagonal rotations with the same phases have the same meaning. */
  lemma SamePhasesSameMeaning(n: nat, a: seq<Rotation>, b: seq<Rotation>)
    requires AllNormal(a, n) && AllDiagonal(a) && AllNormal(b, n) && AllDiagonal(b)
    requires AllLong(a, n) && AllLong(b, n) && SamePhases(n, a, b)
    ensures Equivalent(n, Rots(a), Rots(b))
  {
    forall k: Trig, f: Pauli -> real, l: Pauli | Lawful(k) && Odd(f) && |l.ls| == n ensures Agree(k, Rots(a), Rots(b), f, l) {
      ZeroOdd();
      assert Eigens(n, f, Zero(), []);
      SameOnComponents(k, n, a, b, f, Zero(), [], l);
    }
  }

  // ---------- equal meaning, equal phases ----------

  ghost predicate FaithfulAt(k: Trig, t: real) { k.cos(t) == 1.0 && k.sin(t) == 0.0 ==> Congruent(t, 0.0) }

  /** Only full turns bring cosine and sine back to 1 and 0. */
  ghost predicate Faithful(k: Trig) { forall t: real :: FaithfulAt(k, t) }

  predicate Beyond(p: Pauli, l: Pauli, m: nat)
    requires |p.ls| == |l.ls|
  {
    exists j :: m <= j < |p.ls| && p.ls[j] != l.ls[j]
  }

  ghost predicate FocusedAt(g: Pauli -> real, l: Pauli, m: nat, p: Pauli)
    requires |p.ls| == |l.ls|
  {
    Beyond(p, l, m) ==> g(p) == 0.0
  }

  /** The functional vanishes on products that differ from l on some qubit from m on. */
  ghost predicate Focused(g: Pauli -> real, l: Pauli, m: nat) {
    forall p: Pauli :: |p.ls| == |l.ls| ==> FocusedAt(g, l, m, p)
  }

  lemma FocusNext(n: nat, g: Pauli -> real, h: Pauli -> real, l: Pauli, m: nat)
    requires |l.ls| == n && m < n && Focused(g, l, m) && Focused(h, l, m)
    ensures
      var g', h' := PartRe(g, h, ZAt(n, m), false), PartIm(g, h, ZAt(n, m), false);
      Focused(g', l, m + 1) && Focused(h', l, m + 1) && g'(l) == g(l) / 2.0 && h'(l) == h(l) / 2.0
  {
    var z := ZAt(n, m);
    var g', h' := PartRe(g, h, z, false), PartIm(g, h, z, false);
    forall p: Pauli | |p.ls| == n ensures FocusedAt(g', l, m + 1, p) && FocusedAt(h', l, m + 1, p) {
      if Beyond(p, l, m + 1) {
        StillBeyond(p, l, m, n);
        assert FocusedAt(g, l, m, p) && FocusedAt(h, l, m, p) && FocusedAt(g, l, m, Mul(p, z)) && FocusedAt(h, l, m, Mul(p, z));
        PartsAt(g, h, z, false, p);
      }
    }
    assert Mul(l, z).ls[m] == XorLetter(l.ls[m], LZ);
    assert Beyond(Mul(l, z), l, m);
    assert FocusedAt(g, l, m, Mul(l, z)) && FocusedAt(h, l, m, Mul(l, z));
    PartsAt(g, h, z, false, l);
  }

  lemma StillBeyond(p: Pauli, l: Pauli, m: nat, n: nat)
    requires |p.ls| == |l.ls| == n && m < n && Beyond(p, l, m + 1)
    ensures Beyond(p, l, m) && Beyond(Mul(p, ZAt(n, m)), l, m)
  {
    var j :| m + 1 <= j < n && p.ls[j] != l.ls[j];
    assert Mul(p, ZAt(n, m)).ls[j] == XorLetter(p.ls[j], LI);
  }

  function Zeros(m: nat): (x: seq<bool>)
    ensures |x| == m && forall i :: 0 <= i < m ==> !x[i]
  {
    seq(m, i => false)
  }

  /** Equivalent lists turn the component of the zero state alike. */
  lemma {:induction false} SameTurnOnZero(k: Trig, n: nat, a: seq<Rotation>, b: seq<Rotation>,
                                          g: Pauli -> real, h: Pauli -> real, l: Pauli, m: nat)
    requires Lawful(k) && AllNormal(a, n) && AllDiagonal(a) && AllNormal(b, n) && AllDiagonal(b)
    requires AllLong(a, n) && AllLong(b, n) && Equivalent(n, Rots(a), Rots(b))
    requires m <= n == |l.ls| && Eigens(n, g, h, Zeros(m)) && Odd(g) && Odd(h) && Focused(g, l, m) && Focused(h, l, m)
    ensures
      var y := XBits(l.ls);
      var s, t := TurnBy(a, Zeros(n), y), TurnBy(b, Zeros(n), y);
      Turned(k, s, g(l), h(l)) == Turned(k, t, g(l), h(l))
    decreases n - m
  {
    hide Lawful, Odd, Eigens, Expect, PartRe, PartIm, TurnBy, AllNormal, AllDiagonal, AllLong, Focused, Zeros;
    if m == n {
      EigenExpect(k, n, a, g, h, Zeros(n), l);
      EigenExpect(k, n, b, g, h, Zeros(n), l);
      assert Agree(k, Rots(a), Rots(b), g, l);
    } else {
      var z := ZAt(n, m);
      var g', h' := PartRe(g, h, z, false), PartIm(g, h, z, false);
      EigensNext(n, g, h, Zeros(m), false);
      assert Zeros(m) + [false] == Zeros(m + 1);
      PartsOdd(g, h, z, false);
      FocusNext(n, g, h, l, m);
      SameTurnOnZero(k, n, a, b, g', h', l, m + 1);
      var s, t := TurnBy(a, Zeros(n), XBits(l.ls)), TurnBy(b, Zeros(n), XBits(l.ls));
      Halves(k.cos(s), k.sin(s), k.cos(t), k.sin(t), g(l), h(l));
    }
  }

  lemma Halves(cs: real, ss: real, ct: real, st: real, v: real, w: real)
    requires cs * (v / 2.0) + ss * (w / 2.0) == ct * (v / 2.0) + st * (w / 2.0)
    ensures cs * v + ss * w == ct * v + st * w
  {
  }

  /** A product with the given x-bits. */
  function WithXBits(y: seq<bool>): (l: Pauli)
    ensures |l.ls| == |y| && XBits(l.ls) == y
  {
    var ls := seq(|y|, i requires 0 <= i < |y| => Letter(false, y[i]));
    assert XBits(ls) == y;
    Pauli(ls, false)
  }

  lemma IndicatorFocused(l: Pauli)
    ensures Focused(Indicator(l), l, 0) && Focused(Zero(), l, 0) && Indicator(l)(l) == 1.0
  {
  }

  lemma EqualTurns(k: Trig, s: real, t: real)
    requires Lawful(k) && Faithful(k) && k.cos(s) == k.cos(t) && k.sin(s) == k.sin(t)
    ensures Congruent(s, t)
  {
    assert AngleSum(k, s, -t) && AngleSum(k, t, -t) && AngleNegated(k, t);
    assert t + -t == 0.0 && s + -t == s - t;
    assert FaithfulAt(k, s - t);
    var m: int :| SameUpTo(s - t, 0.0, m);
    assert SameUpTo(s, t, m);
  }

  lemma {:induction false} NoPhaseAtZero(rs: seq<Rotation>, n: nat)
    requires AllLong(rs, n)
    ensures PhaseAt(rs, Zeros(n)) == 0.0
  {
    if |rs| > 0 {
      NoPhaseAtZero(rs[..|rs| - 1], n);
      ParityOfZeros(rs[|rs| - 1].p.ls);
    }
  }

  lemma {:induction false} ParityOfZeros(ls: seq<Letter>)
    ensures !Parity(ls, Zeros(|ls|))
  {
    if |ls| > 0 {
      ParityOfZeros(ls[..|ls| - 1]);
      assert Zeros(|ls|)[..|ls| - 1] == Zeros(|ls| - 1);
    }
  }

  lemma TurnFromZero(rs: seq<Rotation>, n: nat, y: seq<bool>)
    requires AllLong(rs, n) && |y| == n
    ensures TurnBy(rs, Zeros(n), y) == PhaseAt(rs, y)
  {
    NoPhaseAtZero(rs, n);
    assert XorBits(Zeros(n), y) == y;
  }

  lemma SameMeaningSamePhase(k: Trig, n: nat, a: seq<Rotation>, b: seq<Rotation>, y: seq<bool>)
    requires Lawful(k) && Faithful(k) && AllNormal(a, n) && AllDiagonal(a) && AllNormal(b, n) && AllDiagonal(b)
    requires AllLong(a, n) && AllLong(b, n) && Equivalent(n, Rots(a), Rots(b)) && |y| == n
    ensures Congruent(PhaseAt(a, y), PhaseAt(b, y))
  {
    hide Equivalent, Lawful, Faithful, TurnBy, Odd, Focused, AllNormal, AllDiagonal, Indicator, Congruent;
    var l := WithXBits(y);
    var one := Indicator(l);
    ZeroOdd();
    IndicatorOdd(l);
    IndicatorFocused(l);
    NoEigens(n, one, Zero());
    NoEigens(n, Zero(), one);
    SameTurnOnZero(k, n, a, b, one, Zero(), l, 0);
    SameTurnOnZero(k, n, a, b, Zero(), one, l, 0);
    TurnFromZero(a, n, y);
    TurnFromZero(b, n, y);
    EqualTurns(k, PhaseAt(a, y), PhaseAt(b, y));
  }

  lemma NoEigens(n: nat, g: Pauli -> real, h: Pauli -> real)
    ensures Eigens(n, g, h, Zeros(0))
  {
  }

  /** Lists of diagonal rotations mean the same if and only if they give every basis state the same phase, up to full turns. */
  lemma MeaningIsPhase(k: Trig, n: nat, a: seq<Rotation>, b: seq<Rotation>)
    requires Lawful(k) && Faithful(k) && AllNormal(a, n) && AllDiagonal(a) && AllNormal(b, n) && AllDiagonal(b)
    ensures AllLong(a, n) && AllLong(b, n)
    ensures Equivalent(n, Rots(a), Rots(b)) <==> SamePhases(n, a, b)
  {
    hide Equivalent, Lawful, Faithful, AllDiagonal, Congruent, PhaseAt;
    NormalIsLong(n, a);
    NormalIsLong(n, b);
    if SamePhases(n, a, b) {
      SamePhasesSameMeaning(n, a, b);
    }
    if Equivalent(n, Rots(a), Rots(b)) {
      forall x: seq<bool> | |x| == n ensures Congruent(PhaseAt(a, x), PhaseAt(b, x)) {
        SameMeaningSamePhase(k, n, a, b, x);
      }
    }
  }
}
