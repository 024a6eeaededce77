/**
 Multi-controlled phases as lists of Pauli rotations: one rotation for every non-empty set
 of the qubits, with alternating sign.  Together their parities make up the product of the bits.
 */
module QcirToTableau {
  import opened Sequences
  import opened PauliAlgebra
  import opened CliffordOps
  import opened ProgramSemantics
  import opened PauliRotations
  import opened DiagonalCircuits
  import opened DiagonalPhases
  import opened Tableaux

  // ---------- parities ----------

  function Bit(b: bool): int { if b then 1 else 0 }

  /** The parity of the bits with the given indices. */
  function ParityOf(s: seq<nat>, x: seq<bool>): bool
    requires forall i :: 0 <= i < |s| ==> s[i] < |x|
  {
    if |s| == 0 then false else x[s[0]] != ParityOf(s[1..], x)
  }

  function ZOn(n: nat, s: seq<nat>): (r: seq<Letter>)
    ensures |r| == n && forall i :: 0 <= i < n ==> r[i] == if i in s then LZ else LI
  {
    seq(n, i requires 0 <= i < n => if i in s then LZ else LI)
  }

  lemma {:induction false} ParityBlank(n: nat, x: seq<bool>)
    requires |x| == n
    ensures !Parity(ZOn(n, []), x)
  {
    if n > 0 {
      assert ZOn(n, [])[..n - 1] == ZOn(n - 1, []);
      ParityBlank(n - 1, x[..n - 1]);
    }
  }

  predicate Below(s: seq<nat>, n: nat) { forall i :: 0 <= i < |s| ==> s[i] < n }

  /** The Z product on a set of qubits measures the parity of exactly their bits. */
  lemma {:induction false} ParityOfZ(n: nat, s: seq<nat>, x: seq<bool>)
    requires |x| == n && Distinct(s) && Below(s, n)
    ensures Parity(ZOn(n, s), x) == ParityOf(s, x)
  {
    if |s| == 0 {
      ParityBlank(n, x);
    } else {
      ParityOfZ(n, s[1..], x);
      assert s[0] !in s[1..];
      ParityUpdate(ZOn(n, s[1..]), x, s[0]);
      assert ZOn(n, s) == ZOn(n, s[1..])[s[0] := LZ];
    }
  }

  // ---------- combinations ----------

  function Prefixed(a: nat, cs: seq<seq<nat>>): (r: seq<seq<nat>>)
    ensures |r| == |cs| && forall i :: 0 <= i < |cs| ==> r[i] == [a] + cs[i]
  {
    seq(|cs|, i requires 0 <= i < |cs| => [a] + cs[i])
  }

  /** All selections of k elements, in lexicographic order. */
  function Combinations(v: seq<nat>, k: nat): seq<seq<nat>> {
    if k == 0 then [[]]
    else if |v| == 0 then []
    else Prefixed(v[0], Combinations(v[1..], k - 1)) + Combinations(v[1..], k)
  }

  /** A selection of k different elements of v. */
  predicate Selection(c: seq<nat>, v: seq<nat>, k: nat) {
    |c| == k && Distinct(c) && forall i :: 0 <= i < |c| ==> c[i] in v
  }

  lemma PrefixSelects(v: seq<nat>, c: seq<nat>, k: nat)
    requires |v| > 0 && Distinct(v) && Selection(c, v[1..], k)
    ensures Selection([v[0]] + c, v, k + 1)
  {
    forall i | 0 <= i < |c| ensures c[i] in v && c[i] != v[0] {
      var j :| 0 <= j < |v[1..]| && v[1..][j] == c[i];
      assert v[j + 1] == c[i];
    }
  }

  lemma LaterSelects(v: seq<nat>, c: seq<nat>, k: nat)
    requires |v| > 0 && Selection(c, v[1..], k)
    ensures Selection(c, v, k)
  {
    forall i | 0 <= i < |c| ensures c[i] in v { assert c[i] in v[1..]; }
  }

  lemma {:induction false} CombinationsSelect(v: seq<nat>, k: nat)
    requires Distinct(v)
    ensures forall i :: 0 <= i < |Combinations(v, k)| ==> Selection(Combinations(v, k)[i], v, k)
  {
    if k > 0 && |v| > 0 {
      var with, without := Combinations(v[1..], k - 1), Combinations(v[1..], k);
      CombinationsSelect(v[1..], k - 1);
      CombinationsSelect(v[1..], k);
      forall i | 0 <= i < |Combinations(v, k)| ensures Selection(Combinations(v, k)[i], v, k) {
        if i < |with| {
          PrefixSelects(v, with[i], k - 1);
        } else {
          LaterSelects(v, without[i - |with|], k);
        }
      }
    }
  }

  lemma SelectionBelow(c: seq<nat>, v: seq<nat>, k: nat, n: nat)
    requires Selection(c, v, k) && Below(v, n)
    ensures Below(c, n)
  {
    forall i | 0 <= i < |c| ensures c[i] < n {
      var j :| 0 <= j < |v| && v[j] == c[i];
    }
  }

  lemma {:induction false} TooMany(v: seq<nat>, k: nat)
    requires k > |v|
    ensures Combinations(v, k) == []
  {
    if |v| > 0 {
      TooMany(v[1..], k - 1);
      TooMany(v[1..], k);
      assert Combinations(v, k) == Prefixed(v[0], []) + [];
    }
  }

  // ---------- the alternating sum of parities ----------

  predicate AllBelow(cs: seq<seq<nat>>, n: nat) { forall i :: 0 <= i < |cs| ==> Below(cs[i], n) }

  /** How many of the selections have an odd parity, where flip inverts them all. */
  function Odd(cs: seq<seq<nat>>, x: seq<bool>, flip: bool): int
    requires AllBelow(cs, |x|)
  {
    if |cs| == 0 then 0 else Bit(ParityOf(cs[0], x) != flip) + Odd(cs[1..], x, flip)
  }

  lemma {:induction false} OddConcat(a: seq<seq<nat>>, b: seq<seq<nat>>, x: seq<bool>, flip: bool)
    requires AllBelow(a, |x|) && AllBelow(b, |x|)
    ensures AllBelow(a + b, |x|) && Odd(a + b, x, flip) == Odd(a, x, flip) + Odd(b, x, flip)
  {
    if |a| == 0 {
      assert a + b == b;
    } else {
      OddConcat(a[1..], b, x, flip);
      assert (a + b)[1..] == a[1..] + b;
    }
  }

  lemma {:induction false} OddPrefixed(a: nat, cs: seq<seq<nat>>, x: seq<bool>, flip: bool)
    requires a < |x| && AllBelow(cs, |x|)
    ensures AllBelow(Prefixed(a, cs), |x|) && Odd(Prefixed(a, cs), x, flip) == Odd(cs, x, flip != x[a])
  {
    if |cs| > 0 {
      OddPrefixed(a, cs[1..], x, flip);
      assert Prefixed(a, cs)[1..] == Prefixed(a, cs[1..]);
      assert ([a] + cs[0])[1..] == cs[0];
    }
  }

  lemma CombinationsBelow(v: seq<nat>, k: nat, n: nat)
    requires Distinct(v) && Below(v, n)
    ensures AllBelow(Combinations(v, k), n)
  {
    CombinationsSelect(v, k);
    forall i | 0 <= i < |Combinations(v, k)| ensures Below(Combinations(v, k)[i], n) {
      SelectionBelow(Combinations(v, k)[i], v, k, n);
    }
  }

  function Signed(k: nat, t: int): int { if k % 2 == 0 then t else -t }

  /** The sum with alternating signs. */
  function AlternatingSum(s: seq<int>): int {
    if |s| == 0 then 0 else AlternatingSum(s[..|s| - 1]) + Signed(|s| - 1, s[|s| - 1])
  }

  lemma {:induction false} SumsSplit(f: seq<int>, g: seq<int>, h: seq<int>)
    requires |f| == |g| == |h| + 1 && f[0] == g[0] && forall i :: 0 <= i < |h| ==> f[i + 1] == g[i + 1] + h[i]
    ensures AlternatingSum(f) == AlternatingSum(g) - AlternatingSum(h)
  {
    var k := |h|;
    if k == 0 {
      assert f == [f[0]] == g;
    } else {
      SumsSplit(f[..k], g[..k], h[..k - 1]);
    }
  }

  /** For every size below k, how many selections of that size are odd. */
  function OddCounts(v: seq<nat>, x: seq<bool>, flip: bool, k: nat): (r: seq<int>)
    requires Distinct(v) && Below(v, |x|)
    ensures |r| == k
  {
    seq(k, i requires 0 <= i < k => CombinationsBelow(v, i, |x|); Odd(Combinations(v, i), x, flip))
  }

  /** The sum over the sizes below k of (-1)^size times the number of odd selections of that size. */
  function Alternating(v: seq<nat>, x: seq<bool>, flip: bool, k: nat): int
    requires Distinct(v) && Below(v, |x|)
  {
    AlternatingSum(OddCounts(v, x, flip, k))
  }

  /** Selections with and without the first element. */
  lemma OddSplit(v: seq<nat>, x: seq<bool>, flip: bool, k: nat)
    requires |v| > 0 && Distinct(v) && Below(v, |x|) && k > 0
    ensures AllBelow(Combinations(v, k), |x|) && AllBelow(Combinations(v[1..], k), |x|) && AllBelow(Combinations(v[1..], k - 1), |x|)
    ensures Odd(Combinations(v, k), x, flip)
            == Odd(Combinations(v[1..], k - 1), x, flip != x[v[0]]) + Odd(Combinations(v[1..], k), x, flip)
  {
    CombinationsBelow(v[1..], k, |x|);
    CombinationsBelow(v[1..], k - 1, |x|);
    OddPrefixed(v[0], Combinations(v[1..], k - 1), x, flip);
    OddConcat(Prefixed(v[0], Combinations(v[1..], k - 1)), Combinations(v[1..], k), x, flip);
  }

  lemma AlternatingNext(v: seq<nat>, x: seq<bool>, flip: bool, k: nat)
    requires Distinct(v) && Below(v, |x|)
    ensures AllBelow(Combinations(v, k), |x|)
    ensures Alternating(v, x, flip, k + 1) == Alternating(v, x, flip, k) + Signed(k, Odd(Combinations(v, k), x, flip))
  {
    CombinationsBelow(v, k, |x|);
    var s := OddCounts(v, x, flip, k + 1);
    assert s[..k] == OddCounts(v, x, flip, k);
  }

  lemma CountsStart(v: seq<nat>, x: seq<bool>, flip: bool, k: nat)
    requires |v| > 0 && Distinct(v) && Below(v, |x|) && k > 0
    ensures OddCounts(v, x, flip, k)[0] == OddCounts(v[1..], x, flip, k)[0]
  {
    assert Combinations(v, 0) == [[]] && Combinations(v[1..], 0) == [[]];
  }

  lemma CountsSplit(v: seq<nat>, x: seq<bool>, flip: bool, k: nat, i: nat)
    requires |v| > 0 && Distinct(v) && Below(v, |x|) && i < k
    ensures OddCounts(v, x, flip, k + 1)[i + 1]
            == OddCounts(v[1..], x, flip, k + 1)[i + 1] + OddCounts(v[1..], x, flip != x[v[0]], k)[i]
  {
    OddSplit(v, x, flip, i + 1);
  }

  lemma AlternatingSplit(v: seq<nat>, x: seq<bool>, flip: bool, k: nat)
    requires |v| > 0 && Distinct(v) && Below(v, |x|)
    ensures Alternating(v, x, flip, k + 1) == Alternating(v[1..], x, flip, k + 1) - Alternating(v[1..], x, flip != x[v[0]], k)
  {
    var rest, other := v[1..], flip != x[v[0]];
    var f, g, h := OddCounts(v, x, flip, k + 1), OddCounts(rest, x, flip, k + 1), OddCounts(rest, x, other, k);
    CountsStart(v, x, flip, k + 1);
    forall i | 0 <= i < k ensures f[i + 1] == g[i + 1] + h[i] {
      CountsSplit(v, x, flip, k, i);
    }
    SumsSplit(f, g, h);
  }

  lemma BeyondAll(v: seq<nat>, x: seq<bool>, flip: bool)
    requires Distinct(v) && Below(v, |x|)
    ensures Alternating(v, x, flip, |v| + 2) == Alternating(v, x, flip, |v| + 1)
  {
    TooMany(v, |v| + 1);
    AlternatingNext(v, x, flip, |v| + 1);
    assert Odd([], x, flip) == 0;
  }

  function Pow2(k: nat): (r: nat)
    ensures r > 0
  {
    if k == 0 then 1 else 2 * Pow2(k - 1)
  }

  predicate AllSet(v: seq<nat>, x: seq<bool>)
    requires Below(v, |x|)
  {
    forall i :: 0 <= i < |v| ==> x[v[i]]
  }

  lemma AllSetSplit(v: seq<nat>, x: seq<bool>)
    requires |v| > 0 && Below(v, |x|)
    ensures Below(v[1..], |x|) && (AllSet(v, x) <==> x[v[0]] && AllSet(v[1..], x))
  {
    if x[v[0]] && AllSet(v[1..], x) {
      forall i | 0 <= i < |v| ensures x[v[i]] { if i > 0 { assert x[v[1..][i - 1]]; } }
    }
    if AllSet(v, x) {
      forall i | 0 <= i < |v[1..]| ensures x[v[1..][i]] { assert x[v[i + 1]]; }
    }
  }

  /** The alternating sum of the parities of k bits, flipped or not. */
  function Total(k: nat, allSet: bool, flip: bool): int {
    if k == 0 then Bit(flip)
    else if !allSet then 0
    else Signed(if flip then 0 else 1, Pow2(k - 1))
  }

  lemma TotalStep(k: nat, bit: bool, restSet: bool, flip: bool)
    requires k == 0 ==> restSet
    ensures Total(k + 1, bit && restSet, flip) == Total(k, restSet, flip) - Total(k, restSet, flip != bit)
  {
  }

  /** The alternating sum over all sizes vanishes unless all bits are set. */
  lemma {:induction false} AlternatingTotal(v: seq<nat>, x: seq<bool>, flip: bool)
    requires Distinct(v) && Below(v, |x|)
    ensures Alternating(v, x, flip, |v| + 1) == Total(|v|, AllSet(v, x), flip)
  {
    hide Alternating, Distinct;
    if |v| == 0 {
      AlternatingEmpty(v, x, flip);
    } else {
      AlternatingCons(v, x, flip);
      AlternatingTotal(v[1..], x, flip);
      AlternatingTotal(v[1..], x, flip != x[v[0]]);
      AllSetSplit(v, x);
      TotalStep(|v| - 1, x[v[0]], AllSet(v[1..], x), flip);
    }
  }

  lemma AlternatingCons(v: seq<nat>, x: seq<bool>, flip: bool)
    requires |v| > 0 && Distinct(v) && Below(v, |x|)
    ensures Distinct(v[1..]) && Below(v[1..], |x|)
    ensures Alternating(v, x, flip, |v| + 1) == Alternating(v[1..], x, flip, |v|) - Alternating(v[1..], x, flip != x[v[0]], |v|)
  {
    hide Alternating;
    AlternatingSplit(v, x, flip, |v|);
    BeyondAll(v[1..], x, flip);
  }

  lemma AlternatingEmpty(v: seq<nat>, x: seq<bool>, flip: bool)
    requires |v| == 0
    ensures Alternating(v, x, flip, 1) == Bit(flip)
  {
    assert Combinations(v, 0) == [[]];
    assert Odd([[]], x, flip) == Bit(flip) + Odd([[]][1..], x, flip);
    AlternatingNext(v, x, flip, 0);
  }

  // ---------- the phase of a list of diagonal rotations ----------

  function Times(t: real, a: int): real { t * a as real }

  // ---------- the expansion ----------

  /** One rotation for every selection. */
  function SizeRotations(n: nat, cs: seq<seq<nat>>, phase: real): (r: seq<Rotation>)
    ensures |r| == |cs| && forall i :: 0 <= i < |cs| ==> r[i] == Rotation(Pauli(ZOn(n, cs[i]), false), phase)
  {
    seq(|cs|, i requires 0 <= i < |cs| => Rotation(Pauli(ZOn(n, cs[i]), false), phase))
  }

  /** The phase of the rotations of one size: even sizes are negated. */
  function SizePhase(t: real, size: nat): real
    requires size > 0
  {
    if (size - 1) % 2 == 1 then Normalize(-Normalize(t)) else Normalize(t)
  }

  /** The rotations for all selections of 1 to k qubits. */
  function Expansion(n: nat, v: seq<nat>, t: real, k: nat): (r: seq<Rotation>)
    ensures forall i :: 0 <= i < |r| ==> |r[i].p.ls| == n
  {
    if k == 0 then [] else Expansion(n, v, t, k - 1) + SizeRotations(n, Combinations(v, k), SizePhase(t, k))
  }

  // ---------- how many rotations ----------

  function Choose(m: nat, k: nat): nat {
    if k == 0 then 1 else if m == 0 then 0 else Choose(m - 1, k - 1) + Choose(m - 1, k)
  }

  /** Selections of at most k of m elements. */
  function ChooseUpTo(m: nat, k: nat): nat { if k == 0 then 1 else ChooseUpTo(m, k - 1) + Choose(m, k) }

  lemma {:induction false} CombinationCount(v: seq<nat>, k: nat)
    ensures |Combinations(v, k)| == Choose(|v|, k)
  {
    if k > 0 && |v| > 0 {
      CombinationCount(v[1..], k - 1);
      CombinationCount(v[1..], k);
    }
  }

  lemma {:induction false} NoneLarger(m: nat, k: nat)
    requires k > m
    ensures Choose(m, k) == 0
  {
    if m > 0 {
      NoneLarger(m - 1, k - 1);
      NoneLarger(m - 1, k);
    }
  }

  lemma {:induction false} ChooseUpToPascal(m: nat, k: nat)
    requires m > 0 && k > 0
    ensures ChooseUpTo(m, k) == ChooseUpTo(m - 1, k - 1) + ChooseUpTo(m - 1, k)
  {
    if k > 1 {
      ChooseUpToPascal(m, k - 1);
    } else {
      assert Choose(m, 1) == Choose(m - 1, 0) + Choose(m - 1, 1);
      assert ChooseUpTo(m, 1) == ChooseUpTo(m, 0) + Choose(m, 1) && ChooseUpTo(m - 1, 1) == ChooseUpTo(m - 1, 0) + Choose(m - 1, 1);
    }
  }

  /** All selections together are a power of two. */
  lemma {:induction false} AllSelections(m: nat)
    ensures ChooseUpTo(m, m) == Pow2(m)
  {
    if m > 0 {
      AllSelections(m - 1);
      ChooseUpToPascal(m, m);
      NoneLarger(m - 1, m);
    }
  }

  lemma {:induction false} ExpansionUpTo(n: nat, v: seq<nat>, t: real, k: nat)
    ensures |Expansion(n, v, t, k)| + 1 == ChooseUpTo(|v|, k)
  {
    if k > 0 {
      ExpansionUpTo(n, v, t, k - 1);
      CombinationCount(v, k);
    }
  }

  lemma ExpansionLength(n: nat, v: seq<nat>, t: real)
    ensures |Expansion(n, v, t, |v|)| == Pow2(|v|) - 1
  {
    ExpansionUpTo(n, v, t, |v|);
    AllSelections(|v|);
  }

  lemma {:induction false} OddSnoc(cs: seq<seq<nat>>, c: seq<nat>, x: seq<bool>)
    requires AllBelow(cs, |x|) && Below(c, |x|)
    ensures AllBelow(cs + [c], |x|) && Odd(cs + [c], x, false) == Odd(cs, x, false) + Bit(ParityOf(c, x))
  {
    OddConcat(cs, [c], x, false);
    assert [c][1..] == [];
    assert Odd([c], x, false) == Bit(ParityOf(c, x) != false) + Odd([c][1..], x, false);
  }

  lemma OddLast(cs: seq<seq<nat>>, x: seq<bool>)
    requires |cs| > 0 && AllBelow(cs, |x|)
    ensures var k := |cs| - 1;
            AllBelow(cs[..k], |x|) && Odd(cs, x, false) == Odd(cs[..k], x, false) + Bit(ParityOf(cs[k], x))
  {
    hide Below, Odd, ParityOf;
    var k := |cs| - 1;
    assert cs == cs[..k] + [cs[k]];
    OddSnoc(cs[..k], cs[k], x);
  }

  lemma TimesNext(t: real, a: int, b: bool, c: int)
    requires c == a + Bit(b)
    ensures Times(t, c) == Times(t, a) + if b then t else 0.0
  {
  }

  lemma {:induction false} SizePhaseAt(n: nat, cs: seq<seq<nat>>, phase: real, t: real, x: seq<bool>)
    requires |x| == n && AllBelow(cs, n) && (forall i :: 0 <= i < |cs| ==> Distinct(cs[i])) && Congruent(phase, t)
    ensures Congruent(PhaseAt(SizeRotations(n, cs, phase), x), Times(t, Odd(cs, x, false)))
  {
    if |cs| == 0 {
      assert Times(t, 0) == 0.0;
      CongruentSame(0.0);
    } else {
      SizePhaseAt(n, cs[..|cs| - 1], phase, t, x);
      SizePhaseNext(n, cs, phase, t, x);
    }
  }

  lemma SizePhaseNext(n: nat, cs: seq<seq<nat>>, phase: real, t: real, x: seq<bool>)
    requires |x| == n && AllBelow(cs, n) && |cs| > 0 && Distinct(cs[|cs| - 1]) && Congruent(phase, t)
    requires Congruent(PhaseAt(SizeRotations(n, cs[..|cs| - 1], phase), x), Times(t, Odd(cs[..|cs| - 1], x, false)))
    ensures Congruent(PhaseAt(SizeRotations(n, cs, phase), x), Times(t, Odd(cs, x, false)))
  {
    hide Congruent, Times, PhaseAt, ParityOf, Odd, SizeRotations;
    PhaseNext(n, cs, phase, x);
    OddLast(cs, x);
    TimesNext(t, Odd(cs[..|cs| - 1], x, false), ParityOf(cs[|cs| - 1], x), Odd(cs, x, false));
    CongruentIf(PhaseAt(SizeRotations(n, cs[..|cs| - 1], phase), x), Times(t, Odd(cs[..|cs| - 1], x, false)), phase, t,
                ParityOf(cs[|cs| - 1], x), PhaseAt(SizeRotations(n, cs, phase), x), Times(t, Odd(cs, x, false)));
  }

  lemma PhaseNext(n: nat, cs: seq<seq<nat>>, phase: real, x: seq<bool>)
    requires |x| == n && AllBelow(cs, n) && |cs| > 0 && Distinct(cs[|cs| - 1])
    ensures PhaseAt(SizeRotations(n, cs, phase), x)
            == PhaseAt(SizeRotations(n, cs[..|cs| - 1], phase), x) + if ParityOf(cs[|cs| - 1], x) then phase else 0.0
  {
    hide PhaseAt, Parity, ParityOf, ZOn;
    SizeRotationsInit(n, cs, phase);
    ParityOfZ(n, cs[|cs| - 1], x);
    OnePhase(n, SizeRotations(n, cs, phase), x);
  }

  lemma CongruentIf(a: real, b: real, c: real, d: real, bit: bool, a': real, b': real)
    requires Congruent(a, b) && Congruent(c, d)
    requires a' == a + (if bit then c else 0.0) && b' == b + if bit then d else 0.0
    ensures Congruent(a', b')
  {
    if bit { CongruentSum(a, b, c, d); }
  }

  lemma SizeRotationsInit(n: nat, cs: seq<seq<nat>>, phase: real)
    requires |cs| > 0
    ensures SizeRotations(n, cs, phase)[..|cs| - 1] == SizeRotations(n, cs[..|cs| - 1], phase)
  {
    hide ZOn;
  }

  lemma OnePhase(n: nat, rs: seq<Rotation>, x: seq<bool>)
    requires |rs| > 0 && forall i :: 0 <= i < |rs| ==> |rs[i].p.ls| == |x|
    ensures PhaseAt(rs, x) == PhaseAt(rs[..|rs| - 1], x) + if Parity(rs[|rs| - 1].p.ls, x) then rs[|rs| - 1].phase else 0.0
  {
  }

  lemma SizePhaseCongruent(t: real, size: nat)
    requires size > 0
    ensures Congruent(SizePhase(t, size), if size % 2 == 0 then -t else t)
  {
    NormalizeCongruent(t);
    NormalizeCongruent(-Normalize(t));
    var m: int :| SameUpTo(Normalize(t), t, m);
    assert SameUpTo(-Normalize(t), -t, -m);
    CongruentChain(Normalize(-Normalize(t)), -Normalize(t), -t);
  }

  lemma SignedTimes(t: real, k: nat, c: int)
    ensures Times(if k % 2 == 0 then -t else t, c) == Times(-t, Signed(k, c))
  {
  }

  lemma MinusTimes(t: real, a: int, b: int)
    ensures Times(-t, a + b) == Times(-t, a) + Times(-t, b)
  {
  }

  lemma NothingIsEven(x: seq<bool>)
    ensures Odd([[]], x, false) == 0
  {
    var cs: seq<seq<nat>> := [[]];
    assert cs[1..] == [];
    assert !ParityOf(cs[0], x);
  }

  /** The rotations of sizes 1 to k add minus t times the alternating sum. */
  lemma {:induction false} ExpansionPhase(n: nat, v: seq<nat>, t: real, k: nat, x: seq<bool>)
    requires |x| == n && Distinct(v) && Below(v, n)
    ensures Congruent(PhaseAt(Expansion(n, v, t, k), x), Times(-t, Alternating(v, x, false, k + 1)))
  {
    AlternatingNext(v, x, false, k);
    if k == 0 {
      NothingIsEven(x);
      assert Combinations(v, 0) == [[]];
      assert OddCounts(v, x, false, 0) == [];
      CongruentSame(0.0);
    } else {
      ExpansionPhase(n, v, t, k - 1, x);
      assert k - 1 + 1 == k;
      SizeAdds(n, v, t, k, x);
    }
  }

  /** The phase of the rotations of one size. */
  function OneSize(n: nat, v: seq<nat>, t: real, k: nat, x: seq<bool>): real
    requires |x| == n && k > 0
  {
    PhaseAt(SizeRotations(n, Combinations(v, k), SizePhase(t, k)), x)
  }

  /** The signed number of odd selections of one size. */
  function OneSigned(v: seq<nat>, k: nat, x: seq<bool>): int
    requires Distinct(v) && Below(v, |x|)
  {
    CombinationsBelow(v, k, |x|);
    Signed(k, Odd(Combinations(v, k), x, false))
  }

  lemma SizeAt(n: nat, v: seq<nat>, t: real, k: nat, x: seq<bool>)
    requires |x| == n && Distinct(v) && Below(v, n) && k > 0
    ensures Congruent(OneSize(n, v, t, k, x), Times(-t, OneSigned(v, k, x)))
  {
    var cs := Combinations(v, k);
    CombinationsBelow(v, k, n);
    CombinationsSelect(v, k);
    forall i | 0 <= i < |cs| ensures Distinct(cs[i]) { assert Selection(cs[i], v, k); }
    SizePhaseCongruent(t, k);
    SizePhaseAt(n, cs, SizePhase(t, k), if k % 2 == 0 then -t else t, x);
    SignedTimes(t, k, Odd(cs, x, false));
  }

  lemma ExpansionNext(n: nat, v: seq<nat>, t: real, k: nat, x: seq<bool>)
    requires |x| == n && k > 0
    ensures PhaseAt(Expansion(n, v, t, k), x) == PhaseAt(Expansion(n, v, t, k - 1), x) + OneSize(n, v, t, k, x)
  {
    PhaseConcat(Expansion(n, v, t, k - 1), SizeRotations(n, Combinations(v, k), SizePhase(t, k)), x);
  }

  lemma AlternatingTimes(v: seq<nat>, t: real, k: nat, x: seq<bool>)
    requires Distinct(v) && Below(v, |x|)
    ensures Times(-t, Alternating(v, x, false, k + 1)) == Times(-t, Alternating(v, x, false, k)) + Times(-t, OneSigned(v, k, x))
  {
    hide Times, Alternating, Distinct, Below, Odd, Combinations;
    AlternatingNext(v, x, false, k);
    MinusTimes(t, Alternating(v, x, false, k), OneSigned(v, k, x));
  }

  lemma SizeAdds(n: nat, v: seq<nat>, t: real, k: nat, x: seq<bool>)
    requires |x| == n && Distinct(v) && Below(v, n) && k > 0
    requires Congruent(PhaseAt(Expansion(n, v, t, k - 1), x), Times(-t, Alternating(v, x, false, k)))
    ensures Congruent(PhaseAt(Expansion(n, v, t, k), x), Times(-t, Alternating(v, x, false, k + 1)))
  {
    hide Times, Alternating, OneSigned, OneSize, Distinct, Below, PhaseAt, Expansion, Congruent;
    SizeAt(n, v, t, k, x);
    ExpansionNext(n, v, t, k, x);
    AlternatingTimes(v, t, k, x);
    CongruentSum(PhaseAt(Expansion(n, v, t, k - 1), x), Times(-t, Alternating(v, x, false, k)),
                 OneSize(n, v, t, k, x), Times(-t, OneSigned(v, k, x)));
  }

  /** The share of every single rotation. */
  function Share(phase: real, k: nat): real
    requires k > 0
  {
    phase / Pow2(k - 1) as real
  }

  lemma ShareTimes(phase: real, k: nat)
    requires k > 0
    ensures Times(-Share(phase, k), Signed(1, Pow2(k - 1))) == phase
  {
    var d := Pow2(k - 1) as real;
    assert phase / d * d == phase;
    assert Signed(1, Pow2(k - 1)) as real == -d;
    NegatedProduct(Share(phase, k), d);
  }

  lemma NegatedProduct(a: real, b: real)
    ensures -a * -b == a * b
  {
  }

  /** The expansion of a multi-controlled phase adds the phase exactly when all its qubits are set. */
  lemma McpPhase(n: nat, v: seq<nat>, phase: real, x: seq<bool>)
    requires |x| == n && Distinct(v) && Below(v, n) && |v| > 0
    ensures Congruent(PhaseAt(Expansion(n, v, Share(phase, |v|), |v|), x), if AllSet(v, x) then phase else 0.0)
  {
    hide Expansion, Alternating, Share, PhaseAt, Congruent;
    var t := Share(phase, |v|);
    ExpansionPhase(n, v, t, |v|, x);
    AlternatingTotal(v, x, false);
    var total := Alternating(v, x, false, |v| + 1);
    if AllSet(v, x) {
      ShareTimes(phase, |v|);
    } else {
      assert total == 0 && Times(-t, total) == 0.0;
    }
  }

  // ---------- the rotation plane of the target ----------

  datatype Plane = PlaneX | PlaneY | PlaneZ

  /** The gates before the rotations. */
  function Into(plane: Plane, q: nat): seq<Op> {
    match plane
    case PlaneX => [H(q)]
    case PlaneY => [V(q)]
    case PlaneZ => []
  }

  /** The gates after the rotations. */
  function Back(plane: Plane, q: nat): seq<Op> {
    match plane
    case PlaneX => [H(q)]
    case PlaneY => [Vdg(q)]
    case PlaneZ => []
  }

  function LetterOf(plane: Plane): Letter {
    match plane
    case PlaneX => LX
    case PlaneY => LY
    case PlaneZ => LZ
  }

  /** Z on the selection, with the letter of the plane on the target. */
  function OnPlane(n: nat, s: seq<nat>, q: nat, plane: Plane): seq<Letter>
    requires q < n
  {
    if q in s then ZOn(n, s)[q := LetterOf(plane)] else ZOn(n, s)
  }

  /** The plane change turns the Z of the target into the letter of the plane and changes no sign. */
  lemma PlaneChange(n: nat, s: seq<nat>, q: nat, plane: Plane)
    requires q < n
    ensures ConjAll(Back(plane, q), Pauli(ZOn(n, s), false)) == Pauli(OnPlane(n, s, q, plane), false)
  {
    var p := Pauli(ZOn(n, s), false);
    if plane.PlaneZ? {
      assert OnPlane(n, s, q, plane) == ZOn(n, s);
    } else {
      ConjAllOne(Back(plane, q)[0], p);
    }
  }

  lemma PlaneUndone(n: nat, q: nat, plane: Plane)
    requires q < n
    ensures AllFit(Into(plane, q), n) && AllFit(Back(plane, q), n)
    ensures Equivalent(n, Gates(Into(plane, q)) + Gates(Back(plane, q)), [])
  {
    assert Back(plane, q) == Adjoint(Into(plane, q));
    AdjointIsInverse(n, Into(plane, q));
  }

  // ---------- pushing into the tableau ----------

  /** Gates appended to a tableau without a Clifford end up in front of its program. */
  ghost function Front(subs: seq<SubTableau>, ops: seq<Op>): seq<Item> {
    if HasClifford(subs) then [] else Gates(ops)
  }

  lemma FrontStays(a: seq<SubTableau>, b: seq<SubTableau>, ops: seq<Op>)
    requires SameKinds(a, b)
    ensures (HasClifford(a) <==> HasClifford(b)) && Front(a, ops) == Front(b, ops)
  {
    assert forall i :: 0 <= i < |a| ==> a[i].Rotations? == b[i].Rotations?;
  }

  /** One more operator after some others. */
  lemma FrontNext(n: nat, start: seq<Item>, subs: seq<SubTableau>, ops: seq<Op>, op: Op, now: seq<Item>, next: seq<Item>)
    requires Equivalent(n, start + Gates(ops), Front(subs, ops) + now)
    requires Equivalent(n, now + [Gate(op)], Front(subs, [op]) + next)
    ensures Equivalent(n, start + Gates(ops + [op]), Front(subs, ops + [op]) + next)
  {
    hide Equivalent, HasClifford;
    EquivalentBefore(n, start + Gates(ops), Front(subs, ops) + now, [Gate(op)]);
    EquivalentAfter(n, Front(subs, ops), now + [Gate(op)], Front(subs, [op]) + next);
    GatesConcat(ops, [op]);
    assert Gates([op]) == [Gate(op)];
    assert start + Gates(ops) + [Gate(op)] == start + Gates(ops + [op]);
    assert Front(subs, ops) + now + [Gate(op)] == Front(subs, ops) + (now + [Gate(op)]);
    assert Front(subs, ops) + (Front(subs, [op]) + next) == Front(subs, ops + [op]) + next;
    EquivalentTransitive(n, start + Gates(ops + [op]), Front(subs, ops) + (now + [Gate(op)]), Front(subs, ops + [op]) + next);
  }

  /** Applies any operator as a string of h, s and cx. */
  method ApplyOp(tableau: Tableau, op: Op)
    requires tableau.Valid() && op.Fits(tableau.n)
    modifies tableau
    ensures tableau.Valid() && SameKinds(tableau.subs, old(tableau.subs))
    ensures RotationCount(tableau.subs) == RotationCount(old(tableau.subs))
    ensures Equivalent(tableau.n, Items(old(tableau.subs), tableau.n) + Gates([op]),
                       Front(old(tableau.subs), [op]) + Items(tableau.subs, tableau.n))
  {
    hide Expand, Equivalent, Items, Conj, AdjointOp, Front, HasClifford;
    ghost var n, was := tableau.n, tableau.subs;
    var basics := Expand(op);
    ghost var start := Items(was, n);
    FrontNone(n, was, start);
    assert basics[..0] == [];
    for k := 0 to |basics|
      invariant tableau.Valid() && SameKinds(tableau.subs, was)
      invariant RotationCount(tableau.subs) == RotationCount(was)
      invariant Equivalent(n, start + Gates(basics[..k]), Front(was, basics[..k]) + Items(tableau.subs, n))
    {
      ghost var before := tableau.subs;
      FrontStays(before, was, [basics[k]]);
      OneGate(tableau, basics[k]);
      FrontNext(n, start, was, basics[..k], basics[k], Items(before, n), Items(tableau.subs, n));
      assert basics[..k + 1] == basics[..k] + [basics[k]];
    }
    assert basics[..|basics|] == basics;
    FrontExpanded(n, start, was, op, Items(tableau.subs, n));
  }

  method OneGate(tableau: Tableau, op: Op)
    requires tableau.Valid() && op.Basic() && op.Fits(tableau.n)
    modifies tableau
    ensures tableau.Valid() && SameKinds(tableau.subs, old(tableau.subs))
    ensures RotationCount(tableau.subs) == RotationCount(old(tableau.subs))
    ensures Equivalent(tableau.n, Items(old(tableau.subs), tableau.n) + [Gate(op)],
                       Front(old(tableau.subs), [op]) + Items(tableau.subs, tableau.n))
  {
    hide Equivalent, Items, Appended, HasClifford;
    tableau.ApplyGate(op);
    assert Gates([op]) == [Gate(op)];
    assert [] + Items(tableau.subs, tableau.n) == Items(tableau.subs, tableau.n);
  }

  lemma FrontNone(n: nat, subs: seq<SubTableau>, start: seq<Item>)
    ensures Equivalent(n, start + Gates([]), Front(subs, []) + start)
  {
    assert Gates([]) == [] && start + [] == start == [] + start;
    EquivalentReflexive(n, start);
  }

  /** The string of basic gates and the operator itself mean the same, in front as well. */
  lemma FrontExpanded(n: nat, start: seq<Item>, subs: seq<SubTableau>, op: Op, now: seq<Item>)
    requires op.Fits(n) && Equivalent(n, start + Gates(Expand(op)), Front(subs, Expand(op)) + now)
    ensures Equivalent(n, start + Gates([op]), Front(subs, [op]) + now)
  {
    hide Equivalent, Expand;
    ExpandMeans(n, op);
    EquivalentAfter(n, start, Gates([op]), Gates(Expand(op)));
    EquivalentTransitive(n, start + Gates([op]), start + Gates(Expand(op)), Front(subs, Expand(op)) + now);
    if !HasClifford(subs) {
      EquivalentSymmetric(n, Gates([op]), Gates(Expand(op)));
      EquivalentBefore(n, Gates(Expand(op)), Gates([op]), now);
      EquivalentTransitive(n, start + Gates([op]), Gates(Expand(op)) + now, Gates([op]) + now);
    }
  }

  lemma ExpandMeans(n: nat, op: Op)
    requires op.Fits(n)
    ensures AllFit(Expand(op), n) && Equivalent(n, Gates([op]), Gates(Expand(op)))
  {
    forall i | 0 <= i < 2 * n ensures ConjAll([op], Identity(n)[i]) == ConjAll(Expand(op), Identity(n)[i]) {
      ConjAllOne(op, Identity(n)[i]);
      ExpandConj(op, Identity(n)[i]);
    }
    assert TableauOf(n, [op]) == TableauOf(n, Expand(op));
    SameTableauSameMeaning(n, [op], Expand(op));
  }

  lemma {:induction false} ExpansionNormal(n: nat, v: seq<nat>, t: real, k: nat)
    ensures AllNormal(Expansion(n, v, t, k), n)
  {
    if k > 0 { ExpansionNormal(n, v, t, k - 1); }
  }

  /** More rotations in the last list are more rotations at the end of the program. */
  lemma LongerList(subs: seq<SubTableau>, n: nat, more: seq<Rotation>)
    requires AllValid(subs, n) && |subs| > 0 && subs[|subs| - 1].Rotations? && AllNormal(more, n)
    ensures
      var i := |subs| - 1;
      var longer := subs[i := Rotations(subs[i].rs + more)];
      AllValid(longer, n) && Items(longer, n) == Items(subs, n) + Rots(more)
  {
    hide Items, AllNormal, Reachable;
    var i := |subs| - 1;
    var init, rs := subs[..i], subs[i].rs;
    PartsValid(subs, n, i);
    ValidAt(subs, n, i);
    NormalConcat(rs, more, n);
    assert subs == init + [Rotations(rs)] && subs[i := Rotations(rs + more)] == init + [Rotations(rs + more)];
    ItemsSnoc(init, Rotations(rs), n);
    ItemsSnoc(init, Rotations(rs + more), n);
    RotsConcat(rs, more);
    assert Items(init, n) + (Rots(rs) + Rots(more)) == Items(init, n) + Rots(rs) + Rots(more);
  }

  lemma SizeRotationsNext(n: nat, cs: seq<seq<nat>>, phase: real, i: nat)
    requires i < |cs|
    ensures SizeRotations(n, cs[..i + 1], phase) == SizeRotations(n, cs[..i], phase) + [Rotation(Pauli(ZOn(n, cs[i]), false), phase)]
  {
    assert cs[..i + 1] == cs[..i] + [cs[i]];
  }

  /** The rotations of one size. */
  method BuildSize(n: nat, combinations: seq<seq<nat>>, phase: real) returns (rs: seq<Rotation>)
    ensures rs == SizeRotations(n, combinations, phase)
  {
    rs := [];
    for i := 0 to |combinations|
      invariant rs == SizeRotations(n, combinations[..i], phase)
    {
      SizeRotationsNext(n, combinations, phase, i);
      rs := rs + [Rotation(Pauli(ZOn(n, combinations[i]), false), phase)];
    }
    assert combinations[..|combinations|] == combinations;
  }

  /** Pushes the rotations of all sizes to the last list. */
  method PushExpansion(tableau: Tableau, v: seq<nat>, t: real)
    requires tableau.Valid() && |tableau.subs| > 0 && tableau.subs[|tableau.subs| - 1].Rotations?
    modifies tableau
    ensures tableau.Valid() && SameKinds(tableau.subs, old(tableau.subs))
    ensures RotationCount(tableau.subs) == RotationCount(old(tableau.subs)) + |Expansion(tableau.n, v, t, |v|)|
    ensures Items(tableau.subs, tableau.n) == Items(old(tableau.subs), tableau.n) + Rots(Expansion(tableau.n, v, t, |v|))
  {
    var n, last := tableau.n, |tableau.subs| - 1;
    var pushed: seq<Rotation> := [];
    for size := 1 to |v| + 1
      invariant pushed == Expansion(n, v, t, size - 1) && tableau.subs == old(tableau.subs)
    {
      var isNeg := (size - 1) % 2 == 1;
      var more := BuildSize(n, Combinations(v, size), if isNeg then Normalize(-Normalize(t)) else Normalize(t));
      pushed := pushed + more;
    }
    ExpansionNormal(n, v, t, |v|);
    LongerList(tableau.subs, n, pushed);
    LongerCount(tableau.subs, pushed);
    tableau.subs := tableau.subs[last := Rotations(tableau.subs[last].rs + pushed)];
  }

  lemma LongerCount(subs: seq<SubTableau>, more: seq<Rotation>)
    requires |subs| > 0 && subs[|subs| - 1].Rotations?
    ensures var k := |subs| - 1;
      RotationCount(subs[k := Rotations(subs[k].rs + more)]) == RotationCount(subs) + |more|
  {
    var k := |subs| - 1;
    assert subs[k := Rotations(subs[k].rs + more)] == subs[..k] + [Rotations(subs[k].rs + more)];
    CountSnoc(subs[..k], Rotations(subs[k].rs + more));
  }

  /** An empty list at the end does not change the program. */
  lemma EmptyListAtEnd(subs: seq<SubTableau>, n: nat)
    requires AllValid(subs, n)
    ensures AllValid(subs + [Rotations([])], n) && Items(subs + [Rotations([])], n) == Items(subs, n)
  {
    ItemsOne(Rotations([]), n);
    ItemsConcat(subs, [Rotations([])], n);
    assert Rots([]) == [] && Items(subs, n) + [] == Items(subs, n);
  }

  /** The rotations a multi-controlled phase becomes, in the plane of the target. */
  function McpRotations(n: nat, v: seq<nat>, phase: real, q: nat, plane: Plane): seq<Rotation>
    requires |v| > 0
  {
    ConjRotations(Back(plane, q), Expansion(n, v, Share(phase, |v|), |v|))
  }

  /** Between two plane changes the rotations are those conjugated by the second one. */
  lemma PlaneSandwich(n: nat, x: seq<Item>, rs: seq<Rotation>, q: nat, plane: Plane)
    requires AllNormal(rs, n) && q < n
    ensures Equivalent(n, x + Gates(Into(plane, q)) + Rots(rs) + Gates(Back(plane, q)), x + Rots(ConjRotations(Back(plane, q), rs)))
  {
    hide Into, Back, Equivalent, ConjAll, Conj, ConjRotations, Gates, Rots;
    var a, e, b := Gates(Into(plane, q)), Rots(rs), Gates(Back(plane, q));
    var r := Rots(ConjRotations(Back(plane, q), rs));
    PlaneUndone(n, q, plane);
    PushRotations(n, rs, Back(plane, q));
    EquivalentAfter(n, x + a, e + b, b + r);
    EquivalentWithin(n, x, a + b, [], r);
    assert x + a + (e + b) == x + a + e + b;
    assert x + (a + b) + r == x + a + (b + r);
    assert x + [] + r == x + r;
    EquivalentTransitive(n, x + a + e + b, x + a + (b + r), x + r);
  }

  predicate Ascending(v: seq<nat>) { forall i, j :: 0 <= i < j < |v| ==> v[i] <= v[j] }

  /** Inserts a qubit in order. */
  method Insert(v: seq<nat>, q: nat) returns (r: seq<nat>)
    requires Ascending(v)
    ensures Ascending(r) && multiset(r) == multiset(v) + multiset{q}
  {
    var j := 0;
    while j < |v| && v[j] <= q
      invariant j <= |v| && forall i :: 0 <= i < j ==> v[i] <= q
    {
      j := j + 1;
    }
    InsertOrdered(v, q, j);
    r := v[..j] + [q] + v[j..];
  }

  lemma InsertOrdered(v: seq<nat>, q: nat, j: nat)
    requires Ascending(v) && j <= |v| && (forall i :: 0 <= i < j ==> v[i] <= q) && (j < |v| ==> q < v[j])
    ensures Ascending(v[..j] + [q] + v[j..])
    ensures multiset(v[..j] + [q] + v[j..]) == multiset(v) + multiset{q}
  {
    var r := v[..j] + [q] + v[j..];
    forall a, b | 0 <= a < b < |r| ensures r[a] <= r[b] {
      InsertedPair(v, q, j, a, b);
    }
    InsertedSame(v, q, j);
  }

  lemma InsertedSame(v: seq<nat>, q: nat, j: nat)
    requires j <= |v|
    ensures multiset(v[..j] + [q] + v[j..]) == multiset(v) + multiset{q}
  {
    assert v == v[..j] + v[j..];
  }

  lemma InsertedPair(v: seq<nat>, q: nat, j: nat, a: nat, b: nat)
    requires Ascending(v) && j <= |v| && (forall i :: 0 <= i < j ==> v[i] <= q) && (j < |v| ==> q < v[j])
    requires a < b <= |v|
    ensures (v[..j] + [q] + v[j..])[a] <= (v[..j] + [q] + v[j..])[b]
  {
    var r := v[..j] + [q] + v[j..];
    assert r[a] == if a < j then v[a] else if a == j then q else v[a - 1];
    assert r[b] == if b < j then v[b] else if b == j then q else v[b - 1];
    if j < b { assert v[j] <= v[b - 1]; }
  }

  /** Sorts the qubits. */
  method SortQubits(qubits: seq<nat>) returns (v: seq<nat>)
    ensures Ascending(v) && multiset(v) == multiset(qubits)
  {
    v := [];
    for k := 0 to |qubits|
      invariant Ascending(v) && multiset(v) == multiset(qubits[..k])
    {
      v := Insert(v, qubits[k]);
      assert qubits[..k + 1] == qubits[..k] + [qubits[k]];
    }
    assert qubits[..|qubits|] == qubits;
  }

  /** Changes the rotation plane before the rotations. */
  method EnterPlane(tableau: Tableau, plane: Plane, q: nat)
    requires tableau.Valid() && q < tableau.n
    modifies tableau
    ensures tableau.Valid() && SameKinds(tableau.subs, old(tableau.subs))
    ensures RotationCount(tableau.subs) == RotationCount(old(tableau.subs))
    ensures Equivalent(tableau.n, Items(old(tableau.subs), tableau.n) + Gates(Into(plane, q)),
                       Front(old(tableau.subs), Into(plane, q)) + Items(tableau.subs, tableau.n))
  {
    if plane.PlaneX? {
      ApplyOp(tableau, H(q));
    } else if plane.PlaneY? {
      ApplyOp(tableau, V(q));
    } else {
      FrontNone(tableau.n, tableau.subs, Items(tableau.subs, tableau.n));
    }
  }

  /** Changes the rotation plane back. */
  method LeavePlane(tableau: Tableau, plane: Plane, q: nat)
    requires tableau.Valid() && q < tableau.n
    modifies tableau
    ensures tableau.Valid() && SameKinds(tableau.subs, old(tableau.subs))
    ensures RotationCount(tableau.subs) == RotationCount(old(tableau.subs))
    ensures Equivalent(tableau.n, Items(old(tableau.subs), tableau.n) + Gates(Back(plane, q)),
                       Front(old(tableau.subs), Back(plane, q)) + Items(tableau.subs, tableau.n))
  {
    if plane.PlaneX? {
      ApplyOp(tableau, H(q));
    } else if plane.PlaneY? {
      ApplyOp(tableau, Vdg(q));
    } else {
      FrontNone(tableau.n, tableau.subs, Items(tableau.subs, tableau.n));
    }
  }

  /** The two plane changes cancel where they end up in front. */
  lemma FrontsCancel(n: nat, subs: seq<SubTableau>, q: nat, plane: Plane)
    requires q < n
    ensures Equivalent(n, Front(subs, Into(plane, q)) + Front(subs, Back(plane, q)), [])
  {
    hide Equivalent, Into, Back;
    if HasClifford(subs) {
      var none: seq<Item> := [];
      assert none + none == none;
      EquivalentReflexive(n, none);
    } else {
      PlaneUndone(n, q, plane);
    }
  }

  /** Plane change, rotations and plane change back, one after the other; f and g are what ends up in front. */
  lemma PlaneChain(n: nat, x: seq<Item>, f: seq<Item>, s1: seq<Item>, g: seq<Item>, s3: seq<Item>, rs: seq<Rotation>, q: nat, plane: Plane)
    requires AllNormal(rs, n) && q < n && Equivalent(n, f + g, [])
    requires Equivalent(n, x + Gates(Into(plane, q)), f + s1)
    requires Equivalent(n, s1 + Rots(rs) + Gates(Back(plane, q)), g + s3)
    ensures Equivalent(n, s3, x + Rots(ConjRotations(Back(plane, q), rs)))
  {
    hide Equivalent, Into, Back, ConjRotations;
    PlaneSandwich(n, x, rs, q, plane);
    FrontChain(n, x + Gates(Into(plane, q)), Rots(rs), Gates(Back(plane, q)), f, s1, g, s3, x + Rots(ConjRotations(Back(plane, q), rs)));
  }

  lemma FrontChain(n: nat, x: seq<Item>, e: seq<Item>, b: seq<Item>, f: seq<Item>, s1: seq<Item>, g: seq<Item>, s3: seq<Item>, r: seq<Item>)
    requires Equivalent(n, x, f + s1) && Equivalent(n, s1 + e + b, g + s3) && Equivalent(n, f + g, []) && Equivalent(n, x + e + b, r)
    ensures Equivalent(n, s3, r)
  {
    hide Equivalent;
    EquivalentBefore(n, x, f + s1, e + b);
    EquivalentAfter(n, f, s1 + e + b, g + s3);
    EquivalentBefore(n, f + g, [], s3);
    assert x + (e + b) == x + e + b && f + s1 + (e + b) == f + (s1 + e + b);
    assert f + (g + s3) == f + g + s3 && [] + s3 == s3;
    EquivalentTransitive(n, x + e + b, f + (s1 + e + b), f + g + s3);
    EquivalentTransitive(n, x + e + b, f + g + s3, s3);
    EquivalentSymmetric(n, x + e + b, s3);
    EquivalentTransitive(n, s3, x + e + b, r);
  }

  /**
   A multi-controlled phase on the plane of its last qubit: the program gets exactly the rotations of its expansion.
   This holds without a Clifford as well: the two plane changes then meet in front of the program.
   */
  method ImplementMcp(tableau: Tableau, qubits: seq<nat>, phase: real, plane: Plane) returns (ghost v: seq<nat>)
    requires tableau.Valid() && |tableau.subs| > 0
    requires |qubits| > 0 && Distinct(qubits) && Below(qubits, tableau.n)
    modifies tableau
    ensures tableau.Valid() && multiset(v) == multiset(qubits) && |v| > 0
    ensures HasClifford(old(tableau.subs)) ==> HasClifford(tableau.subs)
    ensures RotationCount(tableau.subs) == RotationCount(old(tableau.subs)) + Pow2(|qubits|) - 1
    ensures Equivalent(tableau.n, Items(tableau.subs, tableau.n),
                       Items(old(tableau.subs), tableau.n) + Rots(McpRotations(tableau.n, v, phase, qubits[|qubits| - 1], plane)))
  {
    hide Equivalent, Items, HasClifford, Front, Expansion, Share, Into, Back, ConjRotations, RotationCount, Pow2;
    ghost var n, start := tableau.n, Items(tableau.subs, tableau.n);
    OpenList(tableau);
    var targ := qubits[|qubits| - 1];
    ghost var subs := tableau.subs;
    EnterPlane(tableau, plane, targ);
    ghost var entered := Items(tableau.subs, n);
    var sorted := SortQubits(qubits);
    v := sorted;
    assert |multiset(sorted)| == |multiset(qubits)|;
    PushExpansion(tableau, sorted, Share(phase, |qubits|));
    FrontStays(tableau.subs, subs, Back(plane, targ));
    ghost var pushed := tableau.subs;
    LeavePlane(tableau, plane, targ);
    FrontStays(tableau.subs, pushed, []);
    FrontsCancel(n, subs, targ, plane);
    ExpansionNormal(n, v, Share(phase, |v|), |v|);
    ExpansionLength(n, v, Share(phase, |v|));
    PlaneChain(n, start, Front(subs, Into(plane, targ)), entered, Front(subs, Back(plane, targ)), Items(tableau.subs, n),
               Expansion(n, v, Share(phase, |v|), |v|), targ, plane);
  }

  /** The tableau ends with a list of rotations. */
  method OpenList(tableau: Tableau)
    requires tableau.Valid() && |tableau.subs| > 0
    modifies tableau
    ensures tableau.Valid() && |tableau.subs| > 0 && tableau.subs[|tableau.subs| - 1].Rotations?
    ensures HasClifford(old(tableau.subs)) ==> HasClifford(tableau.subs)
    ensures RotationCount(tableau.subs) == RotationCount(old(tableau.subs))
    ensures Items(tableau.subs, tableau.n) == Items(old(tableau.subs), tableau.n)
  {
    if tableau.subs[|tableau.subs| - 1].Clifford? {
      EmptyListAtEnd(tableau.subs, tableau.n);
      ghost var subs := tableau.subs;
      CountSnoc(subs, Rotations([]));
      assert (subs + [Rotations([])])[|subs| - 1].Clifford?;
      tableau.subs := tableau.subs + [Rotations([])];
    }
  }

  /** The sorted qubits are the same different qubits. */
  lemma SameQubits(v: seq<nat>, qubits: seq<nat>, n: nat, x: seq<bool>)
    requires multiset(v) == multiset(qubits) && Distinct(qubits) && Below(qubits, n) && |x| == n
    ensures Distinct(v) && Below(v, n) && (AllSet(v, x) <==> AllSet(qubits, x))
  {
    forall a ensures a in v <==> a in qubits { assert a in multiset(v) <==> a in multiset(qubits); }
    forall i | 0 <= i < |v| ensures v[i] < n {
      assert v[i] in qubits;
    }
    forall i, j | 0 <= i < j < |v| ensures v[i] != v[j] {
      if v[i] == v[j] {
        TwiceIn(v, i, j);
        OnceIn(qubits, v[i]);
        assert false;
      }
    }
    if AllSet(v, x) { forall i | 0 <= i < |qubits| ensures x[qubits[i]] { assert qubits[i] in v; } }
    if AllSet(qubits, x) { forall i | 0 <= i < |v| ensures x[v[i]] { assert v[i] in qubits; } }
  }

  lemma TwiceIn(v: seq<nat>, i: nat, j: nat)
    requires i < j < |v| && v[i] == v[j]
    ensures multiset(v)[v[i]] >= 2
  {
    assert v == v[..i] + [v[i]] + (v[i + 1..j] + [v[j]] + v[j + 1..]);
  }

  lemma {:induction false} OnceIn(s: seq<nat>, a: nat)
    requires Distinct(s)
    ensures multiset(s)[a] <= 1
  {
    if |s| > 0 {
      var k := |s| - 1;
      assert s == s[..k] + [s[k]];
      OnceIn(s[..k], a);
      if s[k] == a { assert a !in s[..k]; }
    }
  }

  /** The expansion in the end adds the phase exactly when all operands are set. */
  lemma McpAddsPhase(n: nat, qubits: seq<nat>, v: seq<nat>, phase: real, x: seq<bool>)
    requires multiset(v) == multiset(qubits) && |v| > 0 && Distinct(qubits) && Below(qubits, n) && |x| == n
    ensures Below(v, n)
    ensures Congruent(PhaseAt(Expansion(n, v, Share(phase, |v|), |v|), x), if AllSet(qubits, x) then phase else 0.0)
  {
    SameQubits(v, qubits, n, x);
    McpPhase(n, v, phase, x);
  }

  lemma {:induction false} ExpansionDiagonal(n: nat, v: seq<nat>, t: real, k: nat)
    ensures AllDiagonal(Expansion(n, v, t, k))
  {
    if k > 0 {
      ExpansionDiagonal(n, v, t, k - 1);
      SizeDiagonal(n, Combinations(v, k), SizePhase(t, k));
    }
  }

  lemma SizeDiagonal(n: nat, cs: seq<seq<nat>>, phase: real)
    ensures AllDiagonal(SizeRotations(n, cs, phase))
  {
  }

  /** The list gives exactly the basis states in which all operands are set the phase. */
  ghost predicate ControlledPhase(n: nat, qubits: seq<nat>, phase: real, rs: seq<Rotation>)
    requires AllLong(rs, n) && Below(qubits, n)
  {
    forall x: seq<bool> :: |x| == n ==> Congruent(PhaseAt(rs, x), if AllSet(qubits, x) then phase else 0.0)
  }

  /**
   The expansion means the multi-controlled phase: a list of diagonal rotations is equivalent to it if and only if
   it gives the phase to exactly the basis states in which all operands are set.
   */
  lemma McpMeaning(k: Trig, n: nat, qubits: seq<nat>, v: seq<nat>, phase: real, rs: seq<Rotation>)
    requires Lawful(k) && Faithful(k) && multiset(v) == multiset(qubits) && |v| > 0 && Distinct(qubits) && Below(qubits, n)
    requires AllNormal(rs, n) && AllDiagonal(rs)
    ensures AllLong(rs, n)
    ensures Equivalent(n, Rots(Expansion(n, v, Share(phase, |v|), |v|)), Rots(rs)) <==> ControlledPhase(n, qubits, phase, rs)
  {
    hide Equivalent, Lawful, Faithful, AllDiagonal, AllNormal, AllSet, Congruent, PhaseAt, Expansion, Share, Distinct;
    var e := Expansion(n, v, Share(phase, |v|), |v|);
    ExpansionNormal(n, v, Share(phase, |v|), |v|);
    ExpansionDiagonal(n, v, Share(phase, |v|), |v|);
    MeaningIsPhase(k, n, e, rs);
    forall x: seq<bool> | |x| == n
      ensures Congruent(PhaseAt(e, x), PhaseAt(rs, x)) <==> Congruent(PhaseAt(rs, x), if AllSet(qubits, x) then phase else 0.0)
    {
      McpAddsPhase(n, qubits, v, phase, x);
      CongruentTo(PhaseAt(e, x), if AllSet(qubits, x) then phase else 0.0, PhaseAt(rs, x));
    }
  }

  lemma CongruentTo(a: real, b: real, c: real)
    requires Congruent(a, b)
    ensures Congruent(a, c) <==> Congruent(c, b)
  {
    var m: int :| SameUpTo(a, b, m);
    if Congruent(a, c) {
      var i: int :| SameUpTo(a, c, i);
      assert SameUpTo(c, b, m - i);
    }
    if Congruent(c, b) {
      var i: int :| SameUpTo(c, b, i);
      assert SameUpTo(a, c, m - i);
    }
  }
}
