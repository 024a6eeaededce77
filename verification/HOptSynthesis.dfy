/**
 Hadamard-optimal synthesis: the stabilizers are diagonalized first, with one h per
 stabilizer that still has an x, and the diagonal rest goes to Aaronson-Gottesman.
 */
module HOptSynthesis {
  import opened PauliAlgebra
  import opened CliffordOps
  import opened CliffordTableaux
  import opened StabilizerTableaux
  import opened StabilizerRank
  import AGSynthesis

  datatype Mode = Star | Staircase

  predicate XSetIs(ls: seq<Letter>, qs: seq<nat>) {
    forall j :: 0 <= j < |ls| ==> (ls[j].x <==> j in qs)
  }

  predicate Ascending(qs: seq<nat>, n: nat) {
    && (forall a, b :: 0 <= a < b < |qs| ==> qs[a] < qs[b])
    && forall a :: 0 <= a < |qs| ==> qs[a] < n
  }

  method QubitsWithStabilizerSet(ls: seq<Letter>) returns (qs: seq<nat>)
    ensures XSetIs(ls, qs) && Ascending(qs, |ls|)
  {
    qs := [];
    for i := 0 to |ls|
      invariant forall j :: 0 <= j < i ==> (ls[j].x <==> j in qs)
      invariant Ascending(qs, i)
    {
      if ls[i].x {
        qs := qs + [i];
      }
    }
  }

  /** The first i stabilizers have no x left. */
  predicate DiagonalBelow(rows: seq<Pauli>, n: nat, i: nat)
    requires i <= n && Shaped(rows, n)
  {
    forall j :: 0 <= j < i ==> NoX(rows[j].ls)
  }

  /** The number of h recorded so far is the rank lost so far. */
  ghost predicate Accounted(rec: Recorder)
    requires rec.Valid()
    reads rec, rec.copy
  {
    HCount(rec.ops) + Rank(rec.copy.rows, rec.copy.n) == Rank(rec.start, rec.copy.n)
  }

  lemma NoXStays(op: Op, rows: seq<Pauli>, n: nat, i: nat)
    requires i <= n && Shaped(rows, n) && DiagonalBelow(rows, n, i) && HFree(op) && op.Fits(n)
    ensures DiagonalBelow(ConjEach(op, rows), n, i)
  {
    forall j | 0 <= j < i ensures NoX(ConjEach(op, rows)[j].ls) {
      ConjLettersOfPauli(op, rows[j]);
      HFreeKeepsNoX(op, rows[j].ls);
    }
  }

  // ---------- which operators are emitted ----------

  /** The cx for the set qubits: all from the first one, or between neighbours from the last pair up. */
  function Ladder(mode: Mode, qs: seq<nat>): (r: seq<Op>)
    requires |qs| > 0
    ensures |r| == |qs| - 1
  {
    seq(|qs| - 1, m requires 0 <= m < |qs| - 1 =>
      if mode == Star then CX(qs[0], qs[m + 1]) else CX(qs[|qs| - 2 - m], qs[|qs| - 1 - m]))
  }

  /** The cx of the mode, an s if there is a z on the first qubit, and an h on it; nothing if no qubit is set. */
  ghost predicate ClearsBy(mode: Mode, ls: seq<Letter>, block: seq<Op>) {
    exists qs: seq<nat>, phase: seq<Op> :: ClearsWith(mode, ls, qs, phase, block)
  }

  predicate ClearsWith(mode: Mode, ls: seq<Letter>, qs: seq<nat>, phase: seq<Op>, block: seq<Op>) {
    && XSetIs(ls, qs) && Ascending(qs, |ls|)
    && if |qs| == 0 then block == [] else (phase == [] || phase == [S(qs[0])]) && block == Ladder(mode, qs) + phase + [H(qs[0])]
  }

  /** Stabilizer by stabilizer, the recorded operators clear what is left of it in the given mode. */
  ghost predicate ClearsAll(mode: Mode, rows: seq<Pauli>, k: nat, recorded: seq<Op>) {
    if k == 0 then recorded == []
    else exists before: seq<Op>, block: seq<Op> ::
      && recorded == before + block && ClearsAll(mode, rows, k - 1, before)
      && k <= |rows| && ClearsBy(mode, ConjRows(before, rows)[k - 1].ls, block)
  }

  /** The string is an h-free one for the diagonal rest, and the operators that cleared the stabilizers undone. */
  ghost predicate ByMode(mode: Mode, n: nat, rows: seq<Pauli>, ops: seq<Op>) {
    exists recorded: seq<Op>, rest: seq<Op> :: ClearsAll(mode, rows, n, recorded) && NoH(rest) && ops == rest + Adjoint(recorded)
  }

  lemma ClearsOne(mode: Mode, rows: seq<Pauli>, k: nat, before: seq<Op>, block: seq<Op>)
    requires ClearsAll(mode, rows, k, before) && k < |rows| && ClearsBy(mode, ConjRows(before, rows)[k].ls, block)
    ensures ClearsAll(mode, rows, k + 1, before + block)
  {
    hide ClearsBy;
  }

  lemma ClearedBy(mode: Mode, ls: seq<Letter>, qs: seq<nat>, phase: seq<Op>, block: seq<Op>)
    requires ClearsWith(mode, ls, qs, phase, block)
    ensures ClearsBy(mode, ls, block)
  {
  }

  lemma LadderNext(mode: Mode, qs: seq<nat>, k: nat)
    requires |qs| > 0 && k < |qs| - 1
    ensures Ladder(mode, qs)[..k + 1] == Ladder(mode, qs)[..k] + [if mode == Star then CX(qs[0], qs[k + 1]) else CX(qs[|qs| - 2 - k], qs[|qs| - 1 - k])]
  {
  }

  /** A cx or s while stabilizer i is being cleared. */
  method DiagGate(rec: Recorder, i: nat, op: Op)
    requires rec.Valid() && i < rec.copy.n && DiagonalBelow(rec.copy.rows, rec.copy.n, i) && Accounted(rec)
    requires (op.CX? || op.S?) && op.Fits(rec.copy.n)
    modifies rec, rec.copy
    ensures rec.Valid() && DiagonalBelow(rec.copy.rows, rec.copy.n, i) && Accounted(rec)
    ensures rec.copy.rows[i] == Conj(op, old(rec.copy.rows)[i]) && rec.ops == old(rec.ops) + [op]
  {
    HFreeKeepsRank(op, rec.copy.rows, rec.copy.n);
    NoXStays(op, rec.copy.rows, rec.copy.n, i);
    HCountSnoc(rec.ops, op);
    rec.Add(op);
  }

  lemma CXDropsTarget(p: Pauli, c: nat, t: nat, qs: seq<nat>, qs': seq<nat>)
    requires c < |p.ls| && t < |p.ls| && c != t
    requires XSetIs(p.ls, qs) && c in qs && t in qs
    requires forall j :: j in qs' <==> j in qs && j != t
    ensures XSetIs(ConjCX(p, c, t).ls, qs')
  {
    var r := ConjCX(p, c, t).ls;
    forall j | 0 <= j < |r| ensures r[j].x <==> j in qs' {
      if j != t { assert r[j].x == p.ls[j].x; }
    }
  }

  lemma StarDrops(p: Pauli, qs: seq<nat>, m: nat)
    requires 1 <= m < |qs| && Ascending(qs, |p.ls|) && XSetIs(p.ls, [qs[0]] + qs[m..])
    ensures qs[0] != qs[m] && XSetIs(ConjCX(p, qs[0], qs[m]).ls, [qs[0]] + qs[m + 1..])
  {
    var before, after := [qs[0]] + qs[m..], [qs[0]] + qs[m + 1..];
    assert before[1] == qs[m] && before[0] == qs[0];
    assert qs[m..] == [qs[m]] + qs[m + 1..];
    assert qs[m] !in qs[m + 1..];
    CXDropsTarget(p, qs[0], qs[m], before, after);
  }

  lemma StairDrops(p: Pauli, qs: seq<nat>, m: nat)
    requires 1 <= m < |qs| && Ascending(qs, |p.ls|) && XSetIs(p.ls, qs[..m + 1])
    ensures qs[m - 1] != qs[m] && XSetIs(ConjCX(p, qs[m - 1], qs[m]).ls, qs[..m])
  {
    assert qs[..m + 1] == qs[..m] + [qs[m]];
    assert qs[..m][m - 1] == qs[m - 1];
    CXDropsTarget(p, qs[m - 1], qs[m], qs[..m + 1], qs[..m]);
  }

  /** All cx go from the first set qubit. */
  method ClearStar(rec: Recorder, i: nat, qs: seq<nat>)
    requires rec.Valid() && i < rec.copy.n && DiagonalBelow(rec.copy.rows, rec.copy.n, i) && Accounted(rec)
    requires Ascending(qs, rec.copy.n) && |qs| > 0 && XSetIs(rec.copy.rows[i].ls, qs)
    modifies rec, rec.copy
    ensures rec.Valid() && DiagonalBelow(rec.copy.rows, rec.copy.n, i) && Accounted(rec)
    ensures XSetIs(rec.copy.rows[i].ls, [qs[0]]) && rec.ops == old(rec.ops) + Ladder(Star, qs)
  {
    hide Accounted, DiagonalBelow, Ladder, XSetIs, Related, ConjCX, ConjRows;
    assert [qs[0]] + qs[1..] == qs;
    for m := 1 to |qs|
      invariant rec.Valid() && DiagonalBelow(rec.copy.rows, rec.copy.n, i) && Accounted(rec)
      invariant XSetIs(rec.copy.rows[i].ls, [qs[0]] + qs[m..])
      invariant rec.ops == old(rec.ops) + Ladder(Star, qs)[..m - 1]
    {
      LadderNext(Star, qs, m - 1);
      StarDrops(rec.copy.rows[i], qs, m);
      DiagGate(rec, i, CX(qs[0], qs[m]));
    }
    assert [qs[0]] + qs[|qs|..] == [qs[0]];
  }

  /** The cx run down the ladder of set qubits, from the last pair to the first. */
  method ClearStaircase(rec: Recorder, i: nat, qs: seq<nat>)
    requires rec.Valid() && i < rec.copy.n && DiagonalBelow(rec.copy.rows, rec.copy.n, i) && Accounted(rec)
    requires Ascending(qs, rec.copy.n) && |qs| > 0 && XSetIs(rec.copy.rows[i].ls, qs)
    modifies rec, rec.copy
    ensures rec.Valid() && DiagonalBelow(rec.copy.rows, rec.copy.n, i) && Accounted(rec)
    ensures XSetIs(rec.copy.rows[i].ls, [qs[0]]) && rec.ops == old(rec.ops) + Ladder(Staircase, qs)
  {
    hide Accounted, DiagonalBelow, Ladder, XSetIs, Related, ConjCX, ConjRows;
    var m := |qs| - 1;
    assert qs[..m + 1] == qs;
    while m > 0
      invariant 0 <= m < |qs|
      invariant rec.Valid() && DiagonalBelow(rec.copy.rows, rec.copy.n, i) && Accounted(rec)
      invariant XSetIs(rec.copy.rows[i].ls, qs[..m + 1])
      invariant rec.ops == old(rec.ops) + Ladder(Staircase, qs)[..|qs| - 1 - m]
    {
      StairDrops(rec.copy.rows[i], qs, m);
      LadderNext(Staircase, qs, |qs| - 1 - m);
      DiagGate(rec, i, CX(qs[m - 1], qs[m]));
      m := m - 1;
    }
    assert qs[..1] == [qs[0]];
  }

  /** The final h: it clears stabilizer i, keeps the earlier ones clear and lowers the rank by one. */
  method FinalH(rec: Recorder, i: nat, c: nat)
    requires rec.Valid() && i < rec.copy.n && DiagonalBelow(rec.copy.rows, rec.copy.n, i) && Accounted(rec)
    requires c < rec.copy.n && OnlyXAt(rec.copy.rows[i].ls, c)
    modifies rec, rec.copy
    ensures rec.Valid() && DiagonalBelow(rec.copy.rows, rec.copy.n, i + 1) && Accounted(rec)
    ensures rec.ops == old(rec.ops) + [H(c)]
  {
    var n := rec.copy.n;
    var rows := rec.copy.rows;
    PivotLowersRank(rows, n, i, c);
    HCountSnoc(rec.ops, H(c));
    forall j | 0 <= j <= i ensures NoX(ConjEach(H(c), rows)[j].ls) {
      if j < i {
        assert Related(rows, n, i, j);
        CommutingPivot(rows[i].ls, rows[j].ls, c);
      }
      ConjLettersOfPauli(H(c), rows[j]);
      HKeepsOtherX(rows[j].ls, c);
      assert ConjLetters(H(c), rows[j].ls)[c].x == rows[j].ls[c].z;
    }
    assert rows[i].ls[c].x;
    rec.Add(H(c));
  }

  method ClearStabilizer(rec: Recorder, i: nat, mode: Mode)
    requires rec.Valid() && i < rec.copy.n && DiagonalBelow(rec.copy.rows, rec.copy.n, i) && Accounted(rec)
    requires ClearsAll(mode, rec.start, i, rec.ops)
    modifies rec, rec.copy
    ensures rec.Valid() && DiagonalBelow(rec.copy.rows, rec.copy.n, i + 1) && Accounted(rec)
    ensures ClearsAll(mode, rec.start, i + 1, rec.ops)
  {
    hide ClearsAll, ClearsBy, Accounted, XSetIs, Related, Ladder, DiagonalBelow;
    ghost var before, ls := rec.ops, rec.copy.rows[i].ls;
    var qs := QubitsWithStabilizerSet(rec.copy.rows[i].ls);
    if |qs| == 0 {
      NothingToClear(rec, i, qs);
      assert ClearsWith(mode, ls, qs, [], []);
      ClearedBy(mode, ls, qs, [], []);
      ClearsOne(mode, rec.start, i, before, []);
      assert before + [] == before;
      return;
    }
    ghost var phase := ClearQubits(rec, i, qs, mode);
    ghost var block := Ladder(mode, qs) + phase + [H(qs[0])];
    ClearedBy(mode, ls, qs, phase, block);
    ClearsOne(mode, rec.start, i, before, block);
    assert rec.ops == before + block;
  }

  /** Leaves one x-bit of stabilizer i, turns it into a z and records the operators that did. */
  method ClearQubits(rec: Recorder, i: nat, qs: seq<nat>, mode: Mode) returns (ghost phase: seq<Op>)
    requires rec.Valid() && i < rec.copy.n && DiagonalBelow(rec.copy.rows, rec.copy.n, i) && Accounted(rec)
    requires Ascending(qs, rec.copy.n) && |qs| > 0 && XSetIs(rec.copy.rows[i].ls, qs)
    modifies rec, rec.copy
    ensures rec.Valid() && DiagonalBelow(rec.copy.rows, rec.copy.n, i + 1) && Accounted(rec)
    ensures (phase == [] || phase == [S(qs[0])]) && rec.ops == old(rec.ops) + Ladder(mode, qs) + phase + [H(qs[0])]
  {
    hide Accounted, DiagonalBelow, Ladder, XSetIs, Related;
    var ctrl := qs[0];
    if mode == Star {
      ClearStar(rec, i, qs);
    } else {
      ClearStaircase(rec, i, qs);
    }
    OnlyOne(rec.copy.rows[i].ls, ctrl);
    phase := [];
    if rec.copy.rows[i].ls[ctrl].z {
      DiagGate(rec, i, S(ctrl));
      phase := [S(ctrl)];
    }
    FinalH(rec, i, ctrl);
  }

  lemma OnlyOne(ls: seq<Letter>, c: nat)
    requires XSetIs(ls, [c]) && c < |ls|
    ensures ls[c].x && NoXExcept(ls, c)
  {
  }

  lemma NothingToClear(rec: Recorder, i: nat, qs: seq<nat>)
    requires rec.Valid() && i < rec.copy.n && DiagonalBelow(rec.copy.rows, rec.copy.n, i) && XSetIs(rec.copy.rows[i].ls, qs) && |qs| == 0
    ensures DiagonalBelow(rec.copy.rows, rec.copy.n, i + 1)
  {
  }

  lemma NothingCleared(rows: seq<Pauli>, mode: Mode)
    ensures HCount([]) == 0 && ClearsAll(mode, rows, 0, [])
  {
  }

  lemma MadeByMode(mode: Mode, n: nat, rows: seq<Pauli>, recorded: seq<Op>, rest: seq<Op>)
    requires ClearsAll(mode, rows, n, recorded) && NoH(rest)
    ensures ByMode(mode, n, rows, rest + Adjoint(recorded))
  {
    hide ClearsAll, NoH, Adjoint;
  }

  /**
   The synthesized string reproduces the tableau exactly and contains as many h as the
   X-block of the stabilizers has rank; the mode decides how the stabilizers are cleared.
   */
  method Synthesize(n: nat, rows: seq<Pauli>, mode: Mode) returns (ops: seq<Op>)
    requires Symplectic(rows, n)
    ensures AllFit(ops, n)
    ensures TableauOf(n, ops) == rows
    ensures HCount(ops) == Rank(rows, n)
    ensures ByMode(mode, n, rows, ops)
  {
    hide ClearsAll, HCount, Rank;
    var rec := new Recorder(n, rows);
    NothingCleared(rows, mode);
    for i := 0 to n
      invariant rec.Valid() && rec.copy.n == n && rec.start == rows
      invariant fresh(rec) && fresh(rec.copy)
      invariant DiagonalBelow(rec.copy.rows, n, i) && Accounted(rec) && ClearsAll(mode, rows, i, rec.ops)
    {
      ClearStabilizer(rec, i, mode);
    }
    var diag := rec.copy.rows;
    assert DiagonalStabilizers(diag, n);
    DiagonalRank(diag, n);
    var tail := AGSynthesis.Synthesize(n, diag);
    assert NoH(tail);
    ops := tail + Adjoint(rec.ops);
    AdjointFits(rec.ops, n);
    ConjRowsConcat(tail, Adjoint(rec.ops), Identity(n));
    ConjRowsAdjoint(rec.ops, rows, n);
    HCountConcat(tail, Adjoint(rec.ops));
    HCountAdjoint(rec.ops);
    HCountNone(tail);
    MadeByMode(mode, n, rows, rec.ops, tail);
  }

  /** No circuit over h and Hadamard-free operators with the same tableau uses fewer h than the rank. */
  lemma HCountOptimal(n: nat, rows: seq<Pauli>, other: seq<Op>)
    requires Shaped(rows, n) && AllFit(other, n)
    requires forall i :: 0 <= i < |other| ==> other[i].H? || HFree(other[i])
    requires TableauOf(n, other) == rows
    ensures Rank(rows, n) <= HCount(other)
  {
    RankBoundsHCount(n, other);
  }
}
