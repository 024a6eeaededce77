/**
 Controlled rotations: the list of rotations that the translation pushes for them, and
 the list that would be right.  They agree if there is no control or no angle, and never otherwise.
 */
module ControlledTurns {
  import opened Sequences
  import opened PauliAlgebra
  import opened PauliRotations
  import opened DiagonalCircuits
  import opened DiagonalPhases
  import opened QcirToTableau

  // ---------- parities with the target ----------

  lemma {:induction false} ParityOfCleared(s: seq<nat>, x: seq<bool>, q: nat)
    requires Below(s, |x|) && Distinct(s) && q < |x|
    ensures ParityOf(s, x[q := false]) == (ParityOf(s, x) != (q in s && x[q]))
  {
    if |s| > 0 {
      ParityOfCleared(s[1..], x, q);
      assert s[0] !in s[1..];
    }
  }

  /** Z on a selection and the target measures the parity of the rest of the selection and the target. */
  lemma ParityWithTarget(n: nat, s: seq<nat>, q: nat, x: seq<bool>)
    requires |x| == n && Below(s, n) && Distinct(s) && q < n
    ensures Parity(ZOn(n, s + [q]), x) == (ParityOf(s, x[q := false]) != x[q])
  {
    ParityOfCleared(s, x, q);
    ParityOfZ(n, s, x);
    if q in s {
      assert ZOn(n, s + [q]) == ZOn(n, s);
    } else {
      ParityUpdate(ZOn(n, s), x, q);
      assert ZOn(n, s + [q]) == ZOn(n, s)[q := LZ];
    }
  }

  // ---------- what is pushed ----------

  /** One rotation for every selection, about Z on the selection and the target. */
  function TurnRotations(n: nat, cs: seq<seq<nat>>, q: nat, phase: real): (r: seq<Rotation>)
    ensures |r| == |cs| && forall i :: 0 <= i < |cs| ==> r[i] == Rotation(Pauli(ZOn(n, cs[i] + [q]), false), phase)
  {
    seq(|cs|, i requires 0 <= i < |cs| => Rotation(Pauli(ZOn(n, cs[i] + [q]), false), phase))
  }

  /** The rotations for all selections of fewer than k qubits, the target among those to select from. */
  function TurnExpansion(n: nat, v: seq<nat>, q: nat, t: real, k: nat): (r: seq<Rotation>)
    ensures forall i :: 0 <= i < |r| ==> |r[i].p.ls| == n
  {
    if k == 0 then [] else TurnExpansion(n, v, q, t, k - 1) + TurnRotations(n, Combinations(v, k - 1), q, SizePhase(t, k))
  }

  lemma {:induction false} TurnNormal(n: nat, v: seq<nat>, q: nat, t: real, k: nat)
    ensures AllNormal(TurnExpansion(n, v, q, t, k), n) && AllDiagonal(TurnExpansion(n, v, q, t, k))
  {
    if k > 0 { TurnNormal(n, v, q, t, k - 1); }
  }

  lemma {:induction false} TurnsUpTo(n: nat, v: seq<nat>, q: nat, t: real, k: nat)
    requires k > 0
    ensures |TurnExpansion(n, v, q, t, k)| == ChooseUpTo(|v|, k - 1)
  {
    CombinationCount(v, k - 1);
    if k > 1 {
      TurnsUpTo(n, v, q, t, k - 1);
    } else {
      assert TurnExpansion(n, v, q, t, 0) == [];
    }
  }

  lemma TurnsLength(n: nat, v: seq<nat>, q: nat, t: real)
    requires |v| > 0
    ensures |TurnExpansion(n, v, q, t, |v|)| == Pow2(|v|) - 1
  {
    TurnsUpTo(n, v, q, t, |v|);
    AllSelections(|v|);
    AllOnce(|v|);
  }

  lemma {:induction false} AllOnce(m: nat)
    ensures Choose(m, m) == 1
  {
    if m > 0 {
      AllOnce(m - 1);
      NoneLarger(m - 1, m);
    }
  }

  predicate AllDistinct(cs: seq<seq<nat>>) { forall i :: 0 <= i < |cs| ==> Distinct(cs[i]) }

  lemma {:induction false} TurnsPhaseAt(n: nat, cs: seq<seq<nat>>, q: nat, phase: real, t: real, x: seq<bool>)
    requires |x| == n && AllBelow(cs, n) && AllDistinct(cs) && q < n && Congruent(phase, t)
    ensures Congruent(PhaseAt(TurnRotations(n, cs, q, phase), x), Times(t, Odd(cs, x[q := false], x[q])))
  {
    hide Congruent, Times, Parity, ParityOf, ZOn, Distinct, Below;
    if |cs| == 0 {
      NoTurns(n, cs, q, phase, t, x);
    } else {
      var k := |cs| - 1;
      TurnsPhaseAt(n, cs[..k], q, phase, t, x);
      TurnsPhaseNext(n, cs, q, phase, t, x);
    }
  }

  lemma NoTurns(n: nat, cs: seq<seq<nat>>, q: nat, phase: real, t: real, x: seq<bool>)
    requires |x| == n && |cs| == 0 && q < n
    ensures Congruent(PhaseAt(TurnRotations(n, cs, q, phase), x), Times(t, Odd(cs, x[q := false], x[q])))
  {
    CongruentSame(0.0);
  }

  lemma TurnsPhaseNext(n: nat, cs: seq<seq<nat>>, q: nat, phase: real, t: real, x: seq<bool>)
    requires |x| == n && AllBelow(cs, n) && AllDistinct(cs) && q < n && Congruent(phase, t) && |cs| > 0
    requires Congruent(PhaseAt(TurnRotations(n, cs[..|cs| - 1], q, phase), x), Times(t, Odd(cs[..|cs| - 1], x[q := false], x[q])))
    ensures Congruent(PhaseAt(TurnRotations(n, cs, q, phase), x), Times(t, Odd(cs, x[q := false], x[q])))
  {
    hide *;
    var k := |cs| - 1;
    InitBelow(cs, k, n);
    LastTurn(n, cs, q, phase, x);
    LastOdd(cs, x[q := false], x[q]);
    OneMore(PhaseAt(TurnRotations(n, cs[..k], q, phase), x), Odd(cs[..k], x[q := false], x[q]), phase, t,
            ParityOf(cs[k], x[q := false]) != x[q], PhaseAt(TurnRotations(n, cs, q, phase), x), Odd(cs, x[q := false], x[q]));
  }

  lemma InitBelow(cs: seq<seq<nat>>, k: nat, n: nat)
    requires AllBelow(cs, n) && k < |cs|
    ensures AllBelow(cs[..k], n) && Below(cs[k], n) && forall i :: 0 <= i < |cs[k]| ==> cs[k][i] < n
  {
  }

  lemma OneMore(a: real, c: int, phase: real, t: real, bit: bool, a': real, c': int)
    requires Congruent(a, Times(t, c)) && Congruent(phase, t)
    requires a' == a + (if bit then phase else 0.0) && c' == c + Bit(bit)
    ensures Congruent(a', Times(t, c'))
  {
    hide Congruent;
    TimesNext(t, c, bit, c');
    CongruentIf(a, Times(t, c), phase, t, bit, a', Times(t, c'));
  }

  lemma LastTurn(n: nat, cs: seq<seq<nat>>, q: nat, phase: real, x: seq<bool>)
    requires |x| == n && AllBelow(cs, n) && AllDistinct(cs) && q < n && |cs| > 0
    ensures
      var k := |cs| - 1;
      PhaseAt(TurnRotations(n, cs, q, phase), x)
      == PhaseAt(TurnRotations(n, cs[..k], q, phase), x) + if ParityOf(cs[k], x[q := false]) != x[q] then phase else 0.0
  {
    hide ZOn, ParityOf;
    var k := |cs| - 1;
    ParityWithTarget(n, cs[k], q, x);
    assert TurnRotations(n, cs, q, phase)[..k] == TurnRotations(n, cs[..k], q, phase);
  }

  lemma LastOdd(cs: seq<seq<nat>>, x: seq<bool>, flip: bool)
    requires |cs| > 0 && AllBelow(cs, |x|)
    ensures var k := |cs| - 1; Odd(cs, x, flip) == Odd(cs[..k], x, flip) + Bit(ParityOf(cs[k], x) != flip)
  {
    var k := |cs| - 1;
    assert cs == cs[..k] + [cs[k]];
    var last := [cs[k]];
    OddConcat(cs[..k], last, x, flip);
    assert last[1..] == [];
  }

  /** The rotations of all sizes below k add t times the alternating sum. */
  lemma {:induction false} TurnExpansionPhase(n: nat, v: seq<nat>, q: nat, t: real, k: nat, x: seq<bool>)
    requires |x| == n && Distinct(v) && Below(v, n) && q < n
    ensures Congruent(PhaseAt(TurnExpansion(n, v, q, t, k), x), Times(t, Alternating(v, x[q := false], x[q], k)))
  {
    hide Congruent, Times, Alternating, Distinct, Below;
    if k == 0 {
      NoAlternating(v, t, x[q := false], x[q]);
      CongruentSame(0.0);
    } else {
      TurnExpansionPhase(n, v, q, t, k - 1, x);
      TurnSizeAdds(n, v, q, t, k, x);
    }
  }

  lemma NoAlternating(v: seq<nat>, t: real, x: seq<bool>, flip: bool)
    requires Distinct(v) && Below(v, |x|)
    ensures Times(t, Alternating(v, x, flip, 0)) == 0.0
  {
    assert OddCounts(v, x, flip, 0) == [];
  }

  /** The signed number of odd selections of one size. */
  function SignedOdd(v: seq<nat>, size: nat, x: seq<bool>, flip: bool): int
    requires Distinct(v) && Below(v, |x|)
  {
    CombinationsBelow(v, size, |x|);
    Signed(size, Odd(Combinations(v, size), x, flip))
  }

  lemma TurnSizeAt(n: nat, v: seq<nat>, q: nat, t: real, k: nat, x: seq<bool>)
    requires |x| == n && Distinct(v) && Below(v, n) && q < n && k > 0
    ensures Congruent(PhaseAt(TurnRotations(n, Combinations(v, k - 1), q, SizePhase(t, k)), x), Times(t, SignedOdd(v, k - 1, x[q := false], x[q])))
  {
    hide Congruent, Times, PhaseAt, Odd, Combinations, Distinct, Below, SizePhase, Signed;
    var cs := Combinations(v, k - 1);
    CombinationsFine(v, k - 1, n);
    SizePhaseCongruent(t, k);
    var s := if k % 2 == 0 then -t else t;
    TurnsPhaseAt(n, cs, q, SizePhase(t, k), s, x);
    TimesSigned(t, k - 1, Odd(cs, x[q := false], x[q]));
  }

  lemma CombinationsFine(v: seq<nat>, size: nat, n: nat)
    requires Distinct(v) && Below(v, n)
    ensures AllBelow(Combinations(v, size), n) && AllDistinct(Combinations(v, size))
  {
    CombinationsBelow(v, size, n);
    CombinationsSelect(v, size);
    var cs := Combinations(v, size);
    forall i | 0 <= i < |cs| ensures Distinct(cs[i]) { assert Selection(cs[i], v, size); }
  }

  lemma TimesSigned(t: real, size: nat, a: int)
    ensures Times(if (size + 1) % 2 == 0 then -t else t, a) == Times(t, Signed(size, a))
  {
  }

  lemma TimesSum(t: real, a: int, b: int)
    ensures Times(t, a + b) == Times(t, a) + Times(t, b)
  {
  }

  lemma TurnExpansionNext(n: nat, v: seq<nat>, q: nat, t: real, k: nat, x: seq<bool>)
    requires |x| == n && k > 0
    ensures AllLong(TurnRotations(n, Combinations(v, k - 1), q, SizePhase(t, k)), n)
    ensures PhaseAt(TurnExpansion(n, v, q, t, k), x)
            == PhaseAt(TurnExpansion(n, v, q, t, k - 1), x) + PhaseAt(TurnRotations(n, Combinations(v, k - 1), q, SizePhase(t, k)), x)
  {
    hide PhaseAt, Combinations, SizePhase, ZOn;
    PhaseConcat(TurnExpansion(n, v, q, t, k - 1), TurnRotations(n, Combinations(v, k - 1), q, SizePhase(t, k)), x);
  }

  lemma TurnSizeAdds(n: nat, v: seq<nat>, q: nat, t: real, k: nat, x: seq<bool>)
    requires |x| == n && Distinct(v) && Below(v, n) && q < n && k > 0
    requires Congruent(PhaseAt(TurnExpansion(n, v, q, t, k - 1), x), Times(t, Alternating(v, x[q := false], x[q], k - 1)))
    ensures Congruent(PhaseAt(TurnExpansion(n, v, q, t, k), x), Times(t, Alternating(v, x[q := false], x[q], k)))
  {
    hide Congruent, Times, Alternating, Distinct, Below, PhaseAt, Odd, Combinations, TurnExpansion, TurnRotations, SizePhase, Signed;
    var y, more := x[q := false], TurnRotations(n, Combinations(v, k - 1), q, SizePhase(t, k));
    TurnExpansionNext(n, v, q, t, k, x);
    TurnSizeAt(n, v, q, t, k, x);
    AlternatingNext(v, y, x[q], k - 1);
    TimesSum(t, Alternating(v, y, x[q], k - 1), SignedOdd(v, k - 1, y, x[q]));
    CongruentSum(PhaseAt(TurnExpansion(n, v, q, t, k - 1), x), Times(t, Alternating(v, y, x[q], k - 1)),
                 PhaseAt(more, x), Times(t, SignedOdd(v, k - 1, y, x[q])));
  }

  lemma {:induction false} SelectAllOfThem(v: seq<nat>)
    ensures Combinations(v, |v|) == [v]
  {
    if |v| > 0 {
      SelectAllOfThem(v[1..]);
      TooMany(v[1..], |v|);
      assert [v[0]] + v[1..] == v;
      assert Prefixed(v[0], [v[1..]]) == [v];
    }
  }

  /** All sizes but the full one: only the full selection is missing from a sum that vanishes. */
  lemma AlternatingAllButOne(v: seq<nat>, x: seq<bool>, flip: bool)
    requires Distinct(v) && Below(v, |x|) && |v| > 0 && !AllSet(v, x)
    ensures Alternating(v, x, flip, |v|) == Signed(|v| + 1, Bit(ParityOf(v, x) != flip))
  {
    OneSelection(v, x, flip);
    AllButOne(v, x, flip, Bit(ParityOf(v, x) != flip));
  }

  lemma AllButOne(v: seq<nat>, x: seq<bool>, flip: bool, odd: int)
    requires Distinct(v) && Below(v, |x|) && |v| > 0 && !AllSet(v, x)
    requires AllBelow(Combinations(v, |v|), |x|) && Odd(Combinations(v, |v|), x, flip) == odd
    ensures Alternating(v, x, flip, |v|) == Signed(|v| + 1, odd)
  {
    hide *;
    AlternatingTotal(v, x, flip);
    AlternatingNext(v, x, flip, |v|);
    NextSign(|v|, flip, odd);
  }

  lemma NextSign(k: nat, flip: bool, b: int)
    requires k > 0
    ensures Total(k, false, flip) == 0 && Signed(k + 1, b) == -Signed(k, b)
  {
  }

  lemma NotAllSet(v: seq<nat>, q: nat, y: seq<bool>)
    requires Below(v, |y|) && q in v && !y[q]
    ensures !AllSet(v, y)
  {
    var i :| 0 <= i < |v| && v[i] == q;
    assert !y[v[i]];
  }

  lemma OneSelection(v: seq<nat>, y: seq<bool>, flip: bool)
    requires Below(v, |y|)
    ensures Combinations(v, |v|) == [v] && AllBelow(Combinations(v, |v|), |y|)
    ensures Odd(Combinations(v, |v|), y, flip) == Bit(ParityOf(v, y) != flip)
  {
    hide Combinations, ParityOf;
    SelectAllOfThem(v);
    var all := [v];
    assert all[1..] == [];
  }

  /** What is pushed for a rotation turns by its share, up to sign, wherever the parity of all its qubits is odd. */
  lemma TurnPhase(n: nat, v: seq<nat>, q: nat, t: real, x: seq<bool>)
    requires |x| == n && Distinct(v) && Below(v, n) && q in v
    ensures Congruent(PhaseAt(TurnExpansion(n, v, q, t, |v|), x), Times(t, Signed(|v| + 1, Bit(ParityOf(v, x)))))
  {
    var y := x[q := false];
    NotAllSet(v, q, y);
    hide Congruent, Times, PhaseAt, TurnExpansion, Alternating, ParityOf, AllSet, Distinct;
    TurnExpansionPhase(n, v, q, t, |v|, x);
    AlternatingAllButOne(v, y, x[q]);
    ParityOfCleared(v, x, q);
  }

  // ---------- what would be right ----------

  /** A rotation of the last qubit by the angle, if all others are set. */
  function TurnOn(qubits: seq<nat>, phase: real, x: seq<bool>): real
    requires |qubits| > 0 && Below(qubits, |x|)
  {
    var m := |qubits| - 1;
    if !AllSet(qubits[..m], x) then 0.0 else if x[qubits[m]] then phase / 2.0 else -phase / 2.0
  }

  /** The list turns the basis states as a controlled rotation does, up to full turns and one constant. */
  ghost predicate ControlledTurn(n: nat, qubits: seq<nat>, phase: real, rs: seq<Rotation>)
    requires AllLong(rs, n) && |qubits| > 0 && Below(qubits, n)
  {
    forall x: seq<bool> :: |x| == n ==> TurnsRight(n, qubits, phase, rs, x)
  }

  ghost predicate TurnsRight(n: nat, qubits: seq<nat>, phase: real, rs: seq<Rotation>, x: seq<bool>)
    requires AllLong(rs, n) && |qubits| > 0 && Below(qubits, n) && |x| == n
  {
    Congruent(PhaseAt(rs, x), TurnOn(qubits, phase, x) - TurnOn(qubits, phase, Zeros(n)))
  }

  /** A controlled phase on all qubits, and half of it taken back on the controls. */
  function RightTurn(n: nat, qubits: seq<nat>, phase: real): (r: seq<Rotation>)
    requires |qubits| > 0
    ensures AllLong(r, n)
  {
    var m := |qubits| - 1;
    Expansion(n, qubits, Share(phase, m + 1), m + 1)
    + if m == 0 then [] else Expansion(n, qubits[..m], Share(-phase / 2.0, m), m)
  }

  lemma RightTurnNormal(n: nat, qubits: seq<nat>, phase: real)
    requires |qubits| > 0
    ensures AllNormal(RightTurn(n, qubits, phase), n) && AllDiagonal(RightTurn(n, qubits, phase))
  {
    var m := |qubits| - 1;
    ExpansionNormal(n, qubits, Share(phase, m + 1), m + 1);
    ExpansionDiagonal(n, qubits, Share(phase, m + 1), m + 1);
    if m > 0 {
      ExpansionNormal(n, qubits[..m], Share(-phase / 2.0, m), m);
      ExpansionDiagonal(n, qubits[..m], Share(-phase / 2.0, m), m);
    }
  }

  lemma ControlsOf(qubits: seq<nat>, n: nat, x: seq<bool>)
    requires |qubits| > 0 && Distinct(qubits) && Below(qubits, n) && |x| == n
    ensures var m := |qubits| - 1; Distinct(qubits[..m]) && Below(qubits[..m], n)
    ensures var m := |qubits| - 1; AllSet(qubits, x) <==> AllSet(qubits[..m], x) && x[qubits[m]]
    ensures |qubits| > 1 ==> TurnOn(qubits, 1.0, Zeros(n)) == 0.0 && !AllSet(qubits[..|qubits| - 1], Zeros(n))
  {
    var m := |qubits| - 1;
    if m > 0 { assert !Zeros(n)[qubits[..m][0]]; }
    if AllSet(qubits[..m], x) && x[qubits[m]] {
      forall i | 0 <= i < |qubits| ensures x[qubits[i]] { if i < m { assert x[qubits[..m][i]]; } }
    }
  }

  lemma RightTurnAt(n: nat, qubits: seq<nat>, phase: real, x: seq<bool>)
    requires |qubits| > 0 && Distinct(qubits) && Below(qubits, n) && |x| == n
    ensures TurnsRight(n, qubits, phase, RightTurn(n, qubits, phase), x)
  {
    hide Congruent, PhaseAt, Expansion, Share, Distinct, AllSet;
    var m := |qubits| - 1;
    ControlsOf(qubits, n, x);
    McpPhase(n, qubits, phase, x);
    var a := Expansion(n, qubits, Share(phase, m + 1), m + 1);
    if m == 0 {
      assert RightTurn(n, qubits, phase) == a;
      NoControls(qubits[..m], x);
      NoControls(qubits[..m], Zeros(n));
    } else {
      var b := Expansion(n, qubits[..m], Share(-phase / 2.0, m), m);
      McpPhase(n, qubits[..m], -phase / 2.0, x);
      PhaseConcat(a, b, x);
      CongruentSum(PhaseAt(a, x), if AllSet(qubits, x) then phase else 0.0, PhaseAt(b, x), if AllSet(qubits[..m], x) then -phase / 2.0 else 0.0);
    }
  }

  lemma NoControls(s: seq<nat>, x: seq<bool>)
    requires |s| == 0
    ensures Below(s, |x|) && AllSet(s, x)
  {
  }

  lemma RightTurnIsRight(n: nat, qubits: seq<nat>, phase: real)
    requires |qubits| > 0 && Distinct(qubits) && Below(qubits, n)
    ensures ControlledTurn(n, qubits, phase, RightTurn(n, qubits, phase))
  {
    forall x: seq<bool> | |x| == n ensures TurnsRight(n, qubits, phase, RightTurn(n, qubits, phase), x) {
      RightTurnAt(n, qubits, phase, x);
    }
  }

  // ---------- exactly when it is right ----------

  lemma NotAllTheWay(a: real)
    requires -2.0 < a < 2.0 && a != 0.0
    ensures !Congruent(a, 0.0)
  {
    if m: int :| SameUpTo(a, 0.0, m) {
      assert a == 2.0 * m as real;
    }
  }

  lemma ShareRange(phase: real, m: nat)
    requires -1.0 < phase <= 1.0 && phase != 0.0 && m > 0
    ensures -2.0 < Share(phase, m) < 2.0 && Share(phase, m) != 0.0
  {
    var d := Pow2(m - 1) as real;
    var s := Share(phase, m);
    assert d >= 1.0 && s * d == phase;
    if s >= 2.0 { Larger(s, d, 2.0); }
    if s <= -2.0 { Larger(-s, d, 2.0); }
  }

  lemma Larger(s: real, d: real, b: real)
    requires s >= b > 0.0 && d >= 1.0
    ensures s * d >= b
  {
  }

  /** The basis state in which only the target is set. */
  function OnlyTarget(n: nat, q: nat): (x: seq<bool>)
    ensures |x| == n && forall i :: 0 <= i < n ==> x[i] == (i == q)
  {
    seq(n, i => i == q)
  }

  lemma {:induction false} ParityOfOne(s: seq<nat>, n: nat, q: nat)
    requires Distinct(s) && Below(s, n) && q < n
    ensures ParityOf(s, OnlyTarget(n, q)) == (q in s)
  {
    if |s| > 0 {
      ParityOfOne(s[1..], n, q);
      assert s[0] !in s[1..];
    }
  }

  /** The controls are not all set where only the target is. */
  lemma NoTurnThere(n: nat, qubits: seq<nat>, phase: real)
    requires |qubits| > 1 && Distinct(qubits) && Below(qubits, n)
    ensures
      var x := OnlyTarget(n, qubits[|qubits| - 1]);
      TurnOn(qubits, phase, x) - TurnOn(qubits, phase, Zeros(n)) == 0.0
  {
    var m := |qubits| - 1;
    var x := OnlyTarget(n, qubits[m]);
    assert qubits[..m][0] != qubits[m];
    assert !x[qubits[..m][0]] && !Zeros(n)[qubits[..m][0]];
  }

  /** With controls and an angle, the state in which only the target is set is turned, and should not be. */
  lemma WrongWithControls(n: nat, qubits: seq<nat>, v: seq<nat>, phase: real)
    requires |qubits| > 1 && Distinct(qubits) && Below(qubits, n) && Distinct(v) && Below(v, n) && |v| == |qubits|
    requires qubits[|qubits| - 1] in v && -1.0 < phase <= 1.0 && phase != 0.0
    ensures
      var q, m := qubits[|qubits| - 1], |qubits|;
      !TurnsRight(n, qubits, phase, TurnExpansion(n, v, q, Share(phase, m), m), OnlyTarget(n, q))
  {
    hide Congruent, PhaseAt, TurnExpansion, Share, Times, ParityOf, Distinct, TurnOn;
    var q, m := qubits[|qubits| - 1], |qubits|;
    var x, t := OnlyTarget(n, q), Share(phase, m);
    TurnPhase(n, v, q, t, x);
    ParityOfOne(v, n, q);
    NoTurnThere(n, qubits, phase);
    var turned := Times(t, Signed(m + 1, 1));
    TurnsSomewhere(phase, m, turned);
    CongruentTo(PhaseAt(TurnExpansion(n, v, q, t, m), x), turned, 0.0);
  }

  lemma TurnsSomewhere(phase: real, m: nat, turned: real)
    requires -1.0 < phase <= 1.0 && phase != 0.0 && m > 0 && turned == Times(Share(phase, m), Signed(m + 1, 1))
    ensures !Congruent(0.0, turned)
  {
    ShareRange(phase, m);
    assert turned == Share(phase, m) || turned == -Share(phase, m);
    NotAllTheWay(turned);
    if Congruent(0.0, turned) { CongruentBack(turned); }
  }

  lemma CongruentBack(a: real)
    requires Congruent(0.0, a)
    ensures Congruent(a, 0.0)
  {
    var m: int :| SameUpTo(0.0, a, m);
    assert SameUpTo(a, 0.0, -m);
  }

  lemma RightWithout(n: nat, qubits: seq<nat>, v: seq<nat>, phase: real, x: seq<bool>)
    requires |qubits| > 0 && Distinct(qubits) && Below(qubits, n) && Distinct(v) && Below(v, n) && |v| == |qubits|
    requires qubits[|qubits| - 1] in v && |x| == n && (|qubits| == 1 || phase == 0.0)
    ensures
      var q, m := qubits[|qubits| - 1], |qubits|;
      TurnsRight(n, qubits, phase, TurnExpansion(n, v, q, Share(phase, m), m), x)
  {
    var q, m := qubits[|qubits| - 1], |qubits|;
    hide Congruent, PhaseAt, TurnExpansion, ParityOf, Distinct, TurnOn, Times, Share, Signed, Below;
    TurnPhase(n, v, q, Share(phase, m), x);
    if phase == 0.0 {
      NoAngle(qubits, m, Signed(m + 1, Bit(ParityOf(v, x))), x);
      NoAngle(qubits, m, 0, Zeros(n));
    } else {
      OneQubit(qubits, v, phase, x);
      OneQubit(qubits, v, phase, Zeros(n));
    }
  }

  lemma NoAngle(qubits: seq<nat>, m: nat, a: int, x: seq<bool>)
    requires m > 0 && |qubits| > 0 && Below(qubits, |x|)
    ensures Times(Share(0.0, m), a) == 0.0 && TurnOn(qubits, 0.0, x) == 0.0
  {
  }

  lemma OneQubit(qubits: seq<nat>, v: seq<nat>, phase: real, x: seq<bool>)
    requires |qubits| == 1 && Below(qubits, |x|) && |v| == 1 && qubits[0] in v
    ensures Below(v, |x|) && Times(Share(phase, 1), Signed(1 + 1, Bit(ParityOf(v, x)))) == if x[qubits[0]] then phase else 0.0
    ensures TurnOn(qubits, phase, x) == if x[qubits[0]] then phase / 2.0 else -phase / 2.0
  {
    assert v[0] == qubits[0];
    assert ParityOf(v, x) == (x[v[0]] != ParityOf(v[1..], x));
    NoControls(qubits[..0], x);
    assert Share(phase, 1) == phase;
  }

  /** What is pushed for a controlled rotation is right if and only if there is no control or no angle. */
  lemma TurnRightIff(n: nat, qubits: seq<nat>, v: seq<nat>, phase: real)
    requires |qubits| > 0 && Distinct(qubits) && Below(qubits, n) && Distinct(v) && Below(v, n) && |v| == |qubits|
    requires qubits[|qubits| - 1] in v && -1.0 < phase <= 1.0
    ensures
      var q, m := qubits[|qubits| - 1], |qubits|;
      ControlledTurn(n, qubits, phase, TurnExpansion(n, v, q, Share(phase, m), m)) <==> m == 1 || phase == 0.0
  {
    hide TurnsRight, TurnExpansion, Share;
    var q, m := qubits[|qubits| - 1], |qubits|;
    if m == 1 || phase == 0.0 {
      forall x: seq<bool> | |x| == n ensures TurnsRight(n, qubits, phase, TurnExpansion(n, v, q, Share(phase, m), m), x) {
        RightWithout(n, qubits, v, phase, x);
      }
    } else {
      WrongWithControls(n, qubits, v, phase);
    }
  }
}
