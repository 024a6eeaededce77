/**
 The Pauli product as the bit array it is stored in: z-bits, then x-bits, then the sign.
 Gates and products flip bits in place; every method is proved against the algebra of
 signed Pauli products.
 */
module PauliProducts {
  import opened PauliAlgebra
  import opened CliffordOps

  /** The product a bit array stands for. */
  function Decoded(bits: seq<bool>, n: nat): (p: Pauli)
    requires |bits| == 2 * n + 1
    ensures |p.ls| == n && forall i :: 0 <= i < n ==> p.ls[i] == Letter(bits[i], bits[n + i])
  {
    Pauli(seq(n, i requires 0 <= i < n => Letter(bits[i], bits[n + i])), bits[2 * n])
  }

  /** Equal products have equal bits. */
  lemma DecodedDetermines(a: seq<bool>, b: seq<bool>, n: nat)
    requires |a| == |b| == 2 * n + 1 && Decoded(a, n) == Decoded(b, n)
    ensures a == b
  {
    forall k | 0 <= k < |a| ensures a[k] == b[k] {
      if k < n {
        assert Decoded(a, n).ls[k] == Decoded(b, n).ls[k];
      } else if k < 2 * n {
        assert Decoded(a, n).ls[k - n] == Decoded(b, n).ls[k - n];
      }
    }
  }

  /** Counting in eight bits keeps the power modulo 4. */
  lemma PowerNext(a: seq<Letter>, b: seq<Letter>, i: nat, power: nat)
    requires i < |a| == |b| && power % 4 == PowerSum(a[..i], b[..i]) % 4
    ensures (power + PowerOfI(a[i], b[i])) % 256 % 4 == PowerSum(a[..i + 1], b[..i + 1]) % 4
  {
    PowerSumNext(a, b, i);
    hide *;
    EightBits(power, PowerSum(a[..i], b[..i]), PowerOfI(a[i], b[i]));
  }

  lemma PowerSumNext(a: seq<Letter>, b: seq<Letter>, i: nat)
    requires i < |a| == |b|
    ensures PowerSum(a[..i + 1], b[..i + 1]) == PowerSum(a[..i], b[..i]) + PowerOfI(a[i], b[i])
  {
    assert a[..i + 1][..i] == a[..i] && b[..i + 1][..i] == b[..i];
  }

  /** Wrapping around at 256 does not change a sum modulo 4. */
  lemma EightBits(power: int, sum: int, step: int)
    requires power % 4 == sum % 4
    ensures (power + step) % 256 % 4 == (sum + step) % 4
  {
    var p := power + step;
    var q := p % 256;
    var d, r := sum / 4 - power / 4, q % 4;
    assert p == 256 * (p / 256) + q && q == 4 * (q / 4) + r;
    assert sum == power + 4 * d;
    Remainder4(sum + step, 64 * (p / 256) + q / 4 + d, r);
  }

  lemma AnticommutesNext(a: seq<Letter>, b: seq<Letter>, i: nat)
    requires i < |a| == |b|
    ensures Anticommutes(a[..i + 1], b[..i + 1]) == (Anticommutes(a[..i], b[..i]) != LetterAnticommutes(a[i], b[i]))
  {
    assert a[..i + 1][..i] == a[..i] && b[..i + 1][..i] == b[..i];
  }

  /** The bits after the sign has been flipped for a power of 2 or 3 and the other bits have been added. */
  lemma MultipliedBits(a: seq<bool>, b: seq<bool>, mid: seq<bool>, other: seq<bool>, r: seq<bool>, n: nat, power: nat)
    requires |a| == |b| == |mid| == |other| == |r| == 2 * n + 1
    requires power % 4 == PowerSum(Decoded(a, n).ls, Decoded(b, n).ls) % 4
    requires mid == if power % 4 / 2 == 1 then a[2 * n := !a[2 * n]] else a
    requires other == b || (a == b && other == mid && PowerSum(Decoded(a, n).ls, Decoded(a, n).ls) == 0)
    requires forall j :: 0 <= j < 2 * n + 1 ==> r[j] == (mid[j] != other[j])
    ensures Decoded(r, n) == Mul(Decoded(a, n), Decoded(b, n))
  {
    var la, lb := Decoded(a, n).ls, Decoded(b, n).ls;
    assert a == b && PowerSum(la, la) == 0 ==> mid == a;
    XoredLetters(a, b, mid, r, n);
    PowerSign(power, PowerSum(la, lb));
  }

  lemma PowerSign(power: nat, sum: nat)
    requires power % 4 == sum % 4
    ensures power % 4 / 2 == 1 <==> sum % 4 >= 2
  {
  }

  lemma XoredLetters(a: seq<bool>, b: seq<bool>, mid: seq<bool>, r: seq<bool>, n: nat)
    requires |a| == |b| == |mid| == |r| == 2 * n + 1 && forall j :: 0 <= j < 2 * n ==> mid[j] == a[j]
    requires forall j :: 0 <= j < 2 * n + 1 ==> r[j] == (mid[j] != b[j])
    ensures Decoded(r, n).ls == XorLetters(Decoded(a, n).ls, Decoded(b, n).ls)
  {
  }

  lemma SetX(a: seq<bool>, n: nat, q: nat, x: bool)
    requires |a| == 2 * n + 1 && q < n
    ensures var p := Decoded(a, n); Decoded(a[n + q := x], n) == Pauli(p.ls[q := Letter(p.ls[q].z, x)], p.neg)
  {
    var p := Decoded(a, n);
    assert Decoded(a[n + q := x], n).ls == p.ls[q := Letter(p.ls[q].z, x)];
  }

  lemma SetZ(a: seq<bool>, n: nat, q: nat, z: bool)
    requires |a| == 2 * n + 1 && q < n
    ensures var p := Decoded(a, n); Decoded(a[q := z], n) == Pauli(p.ls[q := Letter(z, p.ls[q].x)], p.neg)
  {
    var p := Decoded(a, n);
    assert Decoded(a[q := z], n).ls == p.ls[q := Letter(z, p.ls[q].x)];
  }

  lemma SetSign(a: seq<bool>, n: nat, neg: bool)
    requires |a| == 2 * n + 1
    ensures Decoded(a[2 * n := neg], n) == Pauli(Decoded(a, n).ls, neg)
  {
    assert Decoded(a[2 * n := neg], n).ls == Decoded(a, n).ls;
  }

  /** The bits after a CX: the sign, the x-bit of the target, then the z-bit of the control. */
  lemma CXBits(a: seq<bool>, n: nat, c: nat, t: nat)
    requires |a| == 2 * n + 1 && c < n && t < n
    ensures var signed := a[2 * n := a[2 * n] != (a[n + c] && a[t] && a[n + t] == a[c])];
            var added := signed[n + t := signed[n + t] != signed[n + c]];
            Decoded(added[c := added[c] != added[t]], n) == ConjCX(Decoded(a, n), c, t)
  {
    var flips := a[n + c] && a[t] && a[n + t] == a[c];
    var signed := a[2 * n := a[2 * n] != flips];
    var added := signed[n + t := signed[n + t] != signed[n + c]];
    SetSign(a, n, signed[2 * n]);
    SetX(signed, n, t, added[n + t]);
    SetZ(added, n, c, added[c] != added[t]);
  }

  class PauliProduct {
    const n: nat
    const bits: array<bool>

    predicate Valid()
      reads this
    {
      bits.Length == 2 * n + 1
    }

    function Value(): (p: Pauli)
      requires Valid()
      reads this, bits
      ensures |p.ls| == n
    {
      Decoded(bits[..], n)
    }

    /** Sets the letters one by one, then the sign. */
    constructor (letters: seq<Letter>, isNeg: bool)
      ensures Valid() && n == |letters| && fresh(bits) && Value() == Pauli(letters, isNeg)
    {
      n := |letters|;
      bits := new bool[2 * |letters| + 1];
      new;
      for i := 0 to n
        invariant bits.Length == 2 * n + 1
        invariant forall j :: 0 <= j < i ==> bits[j] == letters[j].z && bits[n + j] == letters[j].x
      {
        bits[i], bits[n + i] := letters[i].z, letters[i].x;
      }
      bits[2 * n] := isNeg;
      assert Value().ls == letters;
    }

    predicate IsY(q: nat)
      requires Valid() && q < n
      reads this, bits
    {
      bits[q] && bits[n + q]
    }

    /** Exchanges two bits by three exclusive ors. */
    method SwapTwo(i: nat, j: nat)
      requires i < bits.Length && j < bits.Length && i != j
      modifies bits
      ensures bits[..] == old(bits[..])[i := old(bits[j])][j := old(bits[i])]
    {
      bits[i] := bits[i] != bits[j];
      bits[j] := bits[j] != bits[i];
      bits[i] := bits[i] != bits[j];
    }

    method H(q: nat)
      requires Valid()
      modifies bits
      ensures Value() == ConjH(old(Value()), q)
    {
      if q >= n { return; }
      if IsY(q) { bits[2 * n] := !bits[2 * n]; }
      SwapTwo(q, n + q);
      assert Value().ls == ConjH(old(Value()), q).ls;
    }

    method S(q: nat)
      requires Valid()
      modifies bits
      ensures Value() == ConjS(old(Value()), q)
    {
      if q >= n { return; }
      if IsY(q) { bits[2 * n] := !bits[2 * n]; }
      bits[q] := bits[q] != bits[n + q];
      assert Value().ls == ConjS(old(Value()), q).ls;
    }

    method CX(c: nat, t: nat)
      requires Valid()
      modifies bits
      ensures Value() == ConjCX(old(Value()), c, t)
    {
      hide Decoded;
      if c >= n || t >= n { return; }
      ghost var a := bits[..];
      if bits[n + c] && bits[t] && bits[n + t] == bits[c] { bits[2 * n] := !bits[2 * n]; }
      ghost var signed := bits[..];
      assert signed == a[2 * n := a[2 * n] != (a[n + c] && a[t] && a[n + t] == a[c])];
      bits[n + t] := bits[n + t] != bits[n + c];
      ghost var added := bits[..];
      assert added == signed[n + t := signed[n + t] != signed[n + c]];
      bits[c] := bits[c] != bits[t];
      assert bits[..] == added[c := added[c] != added[t]];
      CXBits(a, n, c, t);
    }

    /** Any operator, by the basic ones. */
    method Apply(op: Op)
      requires Valid()
      modifies bits
      ensures Value() == Conj(op, old(Value()))
    {
      ghost var p := Value();
      var basics := Expand(op);
      assert basics[..0] == [];
      for k := 0 to |basics|
        invariant Value() == ConjAll(basics[..k], p)
      {
        assert basics[..k + 1][..k] == basics[..k];
        if basics[k].H? {
          H(basics[k].q);
        } else if basics[k].S? {
          S(basics[k].q);
        } else {
          CX(basics[k].c, basics[k].t);
        }
      }
      assert basics[..|basics|] == basics;
      ExpandConj(op, p);
    }

    function LetterAt(i: nat): Letter
      requires Valid() && i < n
      reads this, bits
    {
      Letter(bits[i], bits[n + i])
    }

    /**
     Multiplies by another product in place.  The power of i is counted in eight bits; it is used modulo 4 only.
     */
    method MultiplyBy(rhs: PauliProduct)
      requires Valid() && rhs.Valid() && rhs.n == n
      modifies bits
      ensures Value() == Mul(old(Value()), old(rhs.Value()))
    {
      ghost var old1, old2 := bits[..], rhs.bits[..];
      var power := CountPower(rhs);
      if power % 4 / 2 == 1 {
        bits[2 * n] := !bits[2 * n];
      }
      ghost var mid, other := bits[..], rhs.bits[..];
      XorBits(rhs);
      if rhs.bits == bits {
        SelfPower(Decoded(old1, n).ls);
      }
      MultipliedBits(old1, old2, mid, other, bits[..], n, power);
    }

    /** Adds the bits of another product to the own ones. */
    method XorBits(rhs: PauliProduct)
      requires Valid() && rhs.Valid() && rhs.n == n
      modifies bits
      ensures forall j :: 0 <= j < 2 * n + 1 ==> bits[j] == (old(bits[j]) != old(rhs.bits[j]))
    {
      for k := 0 to 2 * n + 1
        invariant forall j :: 0 <= j < k ==> bits[j] == (old(bits[j]) != old(rhs.bits[j]))
        invariant forall j :: k <= j < 2 * n + 1 ==> bits[j] == old(bits[j]) && rhs.bits[j] == old(rhs.bits[j])
      {
        bits[k] := bits[k] != rhs.bits[k];
      }
    }

    /** The power of i of the product, in eight bits. */
    method CountPower(rhs: PauliProduct) returns (power: nat)
      requires Valid() && rhs.Valid() && rhs.n == n
      ensures power < 256 && power % 4 == PowerSum(Value().ls, rhs.Value().ls) % 4
    {
      ghost var a, b := Value().ls, rhs.Value().ls;
      power := 0;
      for i := 0 to n
        invariant power < 256 && power % 4 == PowerSum(a[..i], b[..i]) % 4
      {
        PowerNext(a, b, i, power);
        power := (power + PowerOfI(LetterAt(i), rhs.LetterAt(i))) % 256;
      }
      assert a[..n] == a && b[..n] == b;
    }

    /** Whether the two products commute. */
    method IsCommutative(rhs: PauliProduct) returns (r: bool)
      requires Valid() && rhs.Valid() && rhs.n == n
      ensures r == Commute(Value(), rhs.Value())
    {
      ghost var a, b := Value().ls, rhs.Value().ls;
      r := true;
      for i := 0 to n
        invariant r == !Anticommutes(a[..i], b[..i])
      {
        AnticommutesNext(a, b, i);
        r := r != ((bits[i] && rhs.bits[n + i]) != (bits[n + i] && rhs.bits[i]));
      }
      assert a[..n] == a && b[..n] == b;
    }
  }

  /** A product with itself has no power of i. */
  lemma {:induction false} SelfPower(a: seq<Letter>)
    ensures PowerSum(a, a) == 0
  {
    if |a| > 0 { SelfPower(a[..|a| - 1]); }
  }
}
