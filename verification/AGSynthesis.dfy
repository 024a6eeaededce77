/**
 Aaronson-Gottesman synthesis: Gaussian elimination on a working copy of the tableau,
 one qubit at a time, recording the gates and returning their adjoint.
 */
module AGSynthesis {
  import opened PauliAlgebra
  import opened CliffordOps
  import opened CliffordTableaux
  import opened StabilizerTableaux
  import opened StabilizerRank

  /** Stabilizer i and destabilizer i are Z_i and X_i up to sign. */
  predicate ReducedPair(rows: seq<Pauli>, n: nat, i: nat)
    requires Shaped(rows, n) && i < n
  {
    rows[i].ls == ZLetters(n, i) && rows[n + i].ls == XLetters(n, i)
  }

  predicate Reduced(rows: seq<Pauli>, n: nat, k: nat)
    requires k <= n
  {
    Shaped(rows, n) && forall i :: 0 <= i < k ==> ReducedPair(rows, n, i)
  }

  /** The operator is h, s or cx and touches only qubits from k on. */
  predicate From(op: Op, k: nat) {
    match op
    case CX(c, t) => c >= k && t >= k
    case H(q) => q >= k
    case S(q) => q >= k
    case _ => false
  }

  lemma ReducedPreserved(op: Op, rows: seq<Pauli>, n: nat, k: nat)
    requires k <= n && Reduced(rows, n, k) && From(op, k) && op.Fits(n)
    ensures Reduced(ConjEach(op, rows), n, k)
  {
    forall i | 0 <= i < k ensures ReducedPair(ConjEach(op, rows), n, i) {
      assert ReducedPair(rows, n, i);
      assert Conj(op, rows[i]).ls == rows[i].ls;
      assert Conj(op, rows[n + i]).ls == rows[n + i].ls;
    }
  }

  /** The other rows carry no letter on the reduced qubits. */
  lemma CleanBelow(rows: seq<Pauli>, n: nat, k: nat, r: nat)
    requires k < n && Symplectic(rows, n) && Reduced(rows, n, k)
    requires r == k || r == n + k
    ensures forall j :: 0 <= j < k ==> rows[r].ls[j] == LI
  {
    forall j | 0 <= j < k ensures rows[r].ls[j] == LI {
      assert ReducedPair(rows, n, j) && Related(rows, n, r, j) && Related(rows, n, r, n + j);
      AnticommutesGenerator(rows[r].ls, j);
    }
  }

  lemma AnticommutingHasLetter(a: seq<Letter>, b: seq<Letter>)
    requires |a| == |b| && Anticommutes(a, b)
    ensures exists j :: 0 <= j < |a| && a[j] != LI
  {
    if forall j :: 0 <= j < |a| ==> a[j] == LI {
      BlankCommutes(b, |b|);
      Blanks(a);
    }
  }

  lemma Blanks(a: seq<Letter>)
    requires forall j :: 0 <= j < |a| ==> a[j] == LI
    ensures a == Blank(|a|)
  {
  }

  // ---------- what one CX does to the row being reduced ----------

  predicate XClear(ls: seq<Letter>, from: nat, to: nat)
    requires to <= |ls|
  {
    forall j :: from <= j < to ==> !ls[j].x
  }

  predicate ZClear(ls: seq<Letter>, from: nat, to: nat)
    requires to <= |ls|
  {
    forall j :: from <= j < to ==> !ls[j].z
  }

  /** With an x on the control, a CX clears the x of its target and changes no other x. */
  lemma CXClearsX(p: Pauli, k: nat, t: nat)
    requires k < t < |p.ls| && p.ls[k].x && p.ls[t].x && XClear(p.ls, k + 1, t)
    ensures var r := ConjCX(p, k, t).ls; r[k].x && XClear(r, k + 1, t + 1)
    ensures ZClear(p.ls, k + 1, |p.ls|) ==> ZClear(ConjCX(p, k, t).ls, k + 1, |p.ls|)
  {
  }

  /** With a z on the target, a CX clears the z of its control. */
  lemma CXClearsZ(p: Pauli, c: nat, k: nat)
    requires k < c < |p.ls| && p.ls[k].z && p.ls[c].z && ZClear(p.ls, k + 1, c)
    ensures var r := ConjCX(p, c, k).ls; r[k].z && ZClear(r, k + 1, c + 1)
    ensures XClear(p.ls, k + 1, |p.ls|) ==> XClear(ConjCX(p, c, k).ls, k + 1, |p.ls|) && ConjCX(p, c, k).ls[k].x == p.ls[k].x
  {
  }

  lemma OnlyOn(ls: seq<Letter>, k: nat)
    requires k < |ls| && XClear(ls, k + 1, |ls|) && ZClear(ls, k + 1, |ls|)
    requires forall j :: 0 <= j < k ==> ls[j] == LI
    ensures ls[k] == LX ==> ls == XLetters(|ls|, k)
    ensures ls[k] == LZ ==> ls == ZLetters(|ls|, k)
  {
  }

  lemma GeneratorFixed(n: nat, k: nat, o: nat, p: Pauli)
    requires k < n && o < n && k != o
    ensures p.ls == XLetters(n, k) ==> ConjCX(p, o, k).ls == p.ls
    ensures p.ls == ZLetters(n, k) ==> ConjCX(p, k, o).ls == p.ls
    ensures p.ls == ZLetters(n, k) ==> ConjS(p, k).ls == p.ls
    ensures p.ls == XLetters(n, k) ==> ConjH(p, k).ls == ZLetters(n, k)
    ensures p.ls == ZLetters(n, k) ==> ConjH(p, k).ls == XLetters(n, k)
  {
    if p.ls == XLetters(n, k) {
      assert ConjCX(p, o, k).ls == p.ls;
      assert ConjH(p, k).ls == ZLetters(n, k);
    }
    if p.ls == ZLetters(n, k) {
      assert ConjCX(p, k, o).ls == p.ls;
      assert ConjS(p, k).ls == p.ls;
      assert ConjH(p, k).ls == XLetters(n, k);
    }
  }

  // ---------- which operators are emitted ----------

  /** The operators of step k: h on any qubit from k on, s on qubit k, and cx between k and a later qubit. */
  predicate Through(op: Op, k: nat) {
    From(op, k) && (op.S? ==> op.q == k) && (op.CX? ==> op.c == k || op.t == k)
  }

  /** Operators of step k have been added, with the given number of h. */
  predicate Emitted(before: seq<Op>, after: seq<Op>, k: nat, h: nat) {
    && before <= after && HCount(after) == HCount(before) + h
    && forall i :: |before| <= i < |after| ==> Through(after[i], k)
  }

  lemma EmittedNone(ops: seq<Op>, k: nat)
    ensures Emitted(ops, ops, k, 0)
  {
  }

  lemma EmittedMore(a: seq<Op>, b: seq<Op>, c: seq<Op>, k: nat, h: nat, h': nat)
    requires Emitted(a, b, k, h) && Emitted(b, c, k, h')
    ensures Emitted(a, c, k, h + h')
  {
  }

  lemma EmittedOne(ops: seq<Op>, op: Op, k: nat)
    requires Through(op, k)
    ensures Emitted(ops, ops + [op], k, if op.H? then 1 else 0)
  {
    HCountSnoc(ops, op);
  }

  /**
   Step k: the first part reduces the destabilizer and needs one h exactly when it has no x at all;
   the second one reduces the stabilizer and needs two h exactly when it still has an x.
   */
  ghost predicate StepOk(n: nat, k: nat, rows: seq<Pauli>, first: seq<Op>, second: seq<Op>)
    requires k < n && Shaped(rows, n)
  {
    && Emitted([], first, k, if NoX(rows[n + k].ls) then 1 else 0)
    && ConjRows(first, rows)[n + k].ls == XLetters(n, k)
    && Emitted([], second, k, if NoX(ConjRows(first, rows)[k].ls) then 0 else 2)
    && Reduced(ConjRows(first + second, rows), n, k + 1)
  }

  /** The first k steps, one after the other. */
  ghost predicate Steps(n: nat, rows: seq<Pauli>, k: nat, recorded: seq<Op>)
    requires k <= n && Shaped(rows, n)
  {
    if k == 0 then recorded == []
    else exists before: seq<Op>, first: seq<Op>, second: seq<Op> ::
      && recorded == before + (first + second) && AllFit(before, n) && Steps(n, rows, k - 1, before)
      && StepOk(n, k - 1, ConjRows(before, rows), first, second)
  }

  predicate SignsOnly(ops: seq<Op>) { forall i :: 0 <= i < |ops| ==> ops[i].X? || ops[i].Z? }

  /** The string undoes a step for every qubit and the gates for the signs. */
  ghost predicate ByElimination(n: nat, rows: seq<Pauli>, ops: seq<Op>)
    requires Shaped(rows, n)
  {
    exists recorded: seq<Op>, signs: seq<Op> :: Steps(n, rows, n, recorded) && SignsOnly(signs) && ops == Adjoint(recorded + signs)
  }

  /** One gate of the elimination of qubit k. */
  method Gate(rec: Recorder, k: nat, op: Op, ghost start: seq<Op>, ghost h: nat)
    requires rec.Valid() && k < rec.copy.n && Reduced(rec.copy.rows, rec.copy.n, k)
    requires Through(op, k) && op.Fits(rec.copy.n)
    requires op.H? ==> !DiagonalStabilizers(rec.copy.rows, rec.copy.n)
    requires Emitted(start, rec.ops, k, h)
    modifies rec, rec.copy
    ensures rec.Valid() && Reduced(rec.copy.rows, rec.copy.n, k)
    ensures rec.copy.rows[k] == Conj(op, old(rec.copy.rows)[k])
    ensures rec.copy.rows[rec.copy.n + k] == Conj(op, old(rec.copy.rows)[rec.copy.n + k])
    ensures Emitted(start, rec.ops, k, h + if op.H? then 1 else 0)
  {
    hide Emitted;
    EmittedOne(rec.ops, op, k);
    EmittedMore(start, rec.ops, rec.ops + [op], k, h, if op.H? then 1 else 0);
    ReducedPreserved(op, rec.copy.rows, rec.copy.n, k);
    rec.Add(op);
  }

  /** First position from `from` on with a set x-bit, or the length when there is none. */
  method FindX(ls: seq<Letter>, from: nat) returns (r: nat)
    requires from <= |ls|
    ensures from <= r <= |ls|
    ensures r < |ls| ==> ls[r].x
    ensures forall j :: from <= j < r ==> !ls[j].x
  {
    r := from;
    while r < |ls| && !ls[r].x
      invariant from <= r <= |ls|
      invariant forall j :: from <= j < r ==> !ls[j].x
    {
      r := r + 1;
    }
  }

  /** When destabilizer k has no x at all, some stabilizer has one and destabilizer k has a z. */
  lemma NoXInDestabilizer(rows: seq<Pauli>, n: nat, k: nat)
    requires k < n && Symplectic(rows, n) && Reduced(rows, n, k)
    requires XClear(rows[n + k].ls, k, n)
    ensures !DiagonalStabilizers(rows, n)
    ensures !ZClear(rows[n + k].ls, k, n)
  {
    var d, s := rows[n + k].ls, rows[k].ls;
    CleanBelow(rows, n, k, n + k);
    assert Related(rows, n, n + k, k);
    AnticommutingHasLetter(d, s);
    if DiagonalStabilizers(rows, n) {
      NoXCommutes(d, s);
      assert false;
    }
  }

  /** On the reduced qubits there is no x anyway. */
  lemma NoXFrom(rows: seq<Pauli>, n: nat, k: nat, r: nat)
    requires k < n && Symplectic(rows, n) && Reduced(rows, n, k) && (r == k || r == n + k)
    ensures NoX(rows[r].ls) <==> XClear(rows[r].ls, k, n)
  {
    CleanBelow(rows, n, k, r);
  }

  /** Gives destabilizer k an x on qubit k. */
  method MakeDestabXMainDiag(rec: Recorder, k: nat)
    requires rec.Valid() && k < rec.copy.n && Reduced(rec.copy.rows, rec.copy.n, k)
    modifies rec, rec.copy
    ensures rec.Valid() && Reduced(rec.copy.rows, rec.copy.n, k)
    ensures rec.copy.rows[rec.copy.n + k].ls[k].x
    ensures Emitted(old(rec.ops), rec.ops, k, if NoX(old(rec.copy.rows[rec.copy.n + k].ls)) then 1 else 0)
  {
    hide Emitted, Related, ReducedPair;
    ghost var start := rec.ops;
    EmittedNone(start, k);
    var n := rec.copy.n;
    var d := rec.copy.rows[n + k].ls;
    if d[k].x { return; }
    var ctrl := FindX(d, k + 1);
    if ctrl < n {
      Gate(rec, k, CX(ctrl, k), start, 0);
      return;
    }
    NoXFrom(rec.copy.rows, n, k, n + k);
    MakeXFromZ(rec, k);
  }

  lemma XFromZ(p: Pauli, k: nat, c: nat)
    requires k <= c < |p.ls| && XClear(p.ls, k, |p.ls|) && p.ls[c].z
    ensures if c == k then ConjH(p, c).ls[k].x else ConjCX(ConjH(p, c), c, k).ls[k].x
  {
    assert !p.ls[k].x;
  }

  /** An h turns the first z of destabilizer k into an x, and a cx brings it to qubit k. */
  method MakeXFromZ(rec: Recorder, k: nat)
    requires rec.Valid() && k < rec.copy.n && Reduced(rec.copy.rows, rec.copy.n, k)
    requires XClear(rec.copy.rows[rec.copy.n + k].ls, k, rec.copy.n)
    modifies rec, rec.copy
    ensures rec.Valid() && Reduced(rec.copy.rows, rec.copy.n, k)
    ensures rec.copy.rows[rec.copy.n + k].ls[k].x
    ensures Emitted(old(rec.ops), rec.ops, k, 1)
  {
    hide Emitted, Related, ReducedPair, NoX, ConjH, ConjCX, ConjRows;
    ghost var start := rec.ops;
    EmittedNone(start, k);
    var n := rec.copy.n;
    var d := rec.copy.rows[n + k].ls;
    NoXInDestabilizer(rec.copy.rows, n, k);
    var c := k;
    while c < n && !d[c].z
      invariant k <= c <= n && ZClear(d, k, c)
    {
      c := c + 1;
    }
    XFromZ(rec.copy.rows[n + k], k, c);
    Gate(rec, k, H(c), start, 0);
    if c != k {
      Gate(rec, k, CX(c, k), start, 1);
    }
  }

  /** With an x on qubit k only, clears the z-bits of destabilizer k. */
  method ClearDestabZ(rec: Recorder, k: nat)
    requires rec.Valid() && k < rec.copy.n && Reduced(rec.copy.rows, rec.copy.n, k)
    requires rec.copy.rows[rec.copy.n + k].ls[k].x && XClear(rec.copy.rows[rec.copy.n + k].ls, k + 1, rec.copy.n)
    modifies rec, rec.copy
    ensures Emitted(old(rec.ops), rec.ops, k, 0)
    ensures rec.Valid() && Reduced(rec.copy.rows, rec.copy.n, k)
    ensures rec.copy.rows[rec.copy.n + k].ls[k] == LX
    ensures XClear(rec.copy.rows[rec.copy.n + k].ls, k + 1, rec.copy.n)
    ensures ZClear(rec.copy.rows[rec.copy.n + k].ls, k + 1, rec.copy.n)
  {
    hide Related, ReducedPair, ConjRows, ConjAll, Emitted;
    ghost var start := rec.ops;
    EmittedNone(start, k);
    var n := rec.copy.n;
    if !rec.copy.rows[n + k].ls[k].z {
      Gate(rec, k, S(k), start, 0);
    }
    for ctrl := k + 1 to n
      invariant rec.Valid() && Reduced(rec.copy.rows, n, k) && Emitted(start, rec.ops, k, 0)
      invariant rec.copy.rows[n + k].ls[k] == LY
      invariant XClear(rec.copy.rows[n + k].ls, k + 1, n) && ZClear(rec.copy.rows[n + k].ls, k + 1, ctrl)
    {
      if rec.copy.rows[n + k].ls[ctrl].z {
        CXClearsZ(rec.copy.rows[n + k], ctrl, k);
        Gate(rec, k, CX(ctrl, k), start, 0);
      }
    }
    Gate(rec, k, S(k), start, 0);
  }

  /** Turns destabilizer k into X_k up to sign. */
  method MakeDestabXOffDiag(rec: Recorder, k: nat)
    requires rec.Valid() && k < rec.copy.n && Reduced(rec.copy.rows, rec.copy.n, k)
    requires rec.copy.rows[rec.copy.n + k].ls[k].x
    modifies rec, rec.copy
    ensures Emitted(old(rec.ops), rec.ops, k, 0)
    ensures rec.Valid() && Reduced(rec.copy.rows, rec.copy.n, k)
    ensures rec.copy.rows[rec.copy.n + k].ls == XLetters(rec.copy.n, k)
  {
    hide Related, ReducedPair, ConjRows, ConjAll, ConjCX, Emitted;
    ghost var start := rec.ops;
    EmittedNone(start, k);
    var n := rec.copy.n;
    for targ := k + 1 to n
      invariant rec.Valid() && Reduced(rec.copy.rows, n, k) && Emitted(start, rec.ops, k, 0)
      invariant rec.copy.rows[n + k].ls[k].x && XClear(rec.copy.rows[n + k].ls, k + 1, targ)
    {
      if rec.copy.rows[n + k].ls[targ].x {
        CXClearsX(rec.copy.rows[n + k], k, targ);
        Gate(rec, k, CX(k, targ), start, 0);
      }
    }
    if !ZClear(rec.copy.rows[n + k].ls, k, n) {
      ghost var mid := rec.ops;
      ClearDestabZ(rec, k);
      EmittedMore(start, mid, rec.ops, k, 0, 0);
    }
    CleanBelow(rec.copy.rows, n, k, n + k);
    OnlyOn(rec.copy.rows[n + k].ls, k);
  }

  /** Clears the z-bits of stabilizer k off the diagonal. */
  method ClearStabZ(rec: Recorder, k: nat)
    requires rec.Valid() && k < rec.copy.n && Reduced(rec.copy.rows, rec.copy.n, k)
    requires rec.copy.rows[rec.copy.n + k].ls == XLetters(rec.copy.n, k)
    modifies rec, rec.copy
    ensures Emitted(old(rec.ops), rec.ops, k, 0)
    ensures rec.Valid() && Reduced(rec.copy.rows, rec.copy.n, k)
    ensures NoX(rec.copy.rows[k].ls) <==> NoX(old(rec.copy.rows[k].ls))
    ensures rec.copy.rows[rec.copy.n + k].ls == XLetters(rec.copy.n, k)
    ensures rec.copy.rows[k].ls[k].z && ZClear(rec.copy.rows[k].ls, k + 1, rec.copy.n)
  {
    hide ReducedPair, ConjRows, ConjAll, Emitted;
    ghost var start := rec.ops;
    EmittedNone(start, k);
    var n := rec.copy.n;
    assert rec.copy.rows[k].ls[k].z by {
      AnticommutesGenerator(rec.copy.rows[k].ls, k);
      assert Related(rec.copy.rows, n, k, n + k);
    }
    ghost var was := rec.copy.rows[k].ls;
    for ctrl := k + 1 to n
      invariant rec.Valid() && Reduced(rec.copy.rows, n, k) && Emitted(start, rec.ops, k, 0)
      invariant NoX(rec.copy.rows[k].ls) <==> NoX(was)
      invariant rec.copy.rows[n + k].ls == XLetters(n, k)
      invariant rec.copy.rows[k].ls[k].z && ZClear(rec.copy.rows[k].ls, k + 1, ctrl)
    {
      if rec.copy.rows[k].ls[ctrl].z {
        CXClearsZ(rec.copy.rows[k], ctrl, k);
        ConjLettersOfPauli(CX(ctrl, k), rec.copy.rows[k]);
        CXKeepsNoX(rec.copy.rows[k].ls, ctrl, k);
        GeneratorFixed(n, k, ctrl, rec.copy.rows[n + k]);
        Gate(rec, k, CX(ctrl, k), start, 0);
      }
    }
  }

  /** Between two h on qubit k: clears the x-bits of stabilizer k off the diagonal. */
  method ClearStabX(rec: Recorder, k: nat)
    requires rec.Valid() && k < rec.copy.n && Reduced(rec.copy.rows, rec.copy.n, k)
    requires rec.copy.rows[rec.copy.n + k].ls == ZLetters(rec.copy.n, k)
    requires rec.copy.rows[k].ls[k].x && ZClear(rec.copy.rows[k].ls, k + 1, rec.copy.n)
    modifies rec, rec.copy
    ensures Emitted(old(rec.ops), rec.ops, k, 0)
    ensures rec.Valid() && Reduced(rec.copy.rows, rec.copy.n, k)
    ensures rec.copy.rows[rec.copy.n + k].ls == ZLetters(rec.copy.n, k)
    ensures rec.copy.rows[k].ls[k] == LX
    ensures XClear(rec.copy.rows[k].ls, k + 1, rec.copy.n) && ZClear(rec.copy.rows[k].ls, k + 1, rec.copy.n)
  {
    hide ReducedPair, ConjRows, ConjAll, Emitted;
    ghost var start := rec.ops;
    EmittedNone(start, k);
    var n := rec.copy.n;
    for targ := k + 1 to n
      invariant rec.Valid() && Reduced(rec.copy.rows, n, k) && Emitted(start, rec.ops, k, 0)
      invariant rec.copy.rows[n + k].ls == ZLetters(n, k)
      invariant rec.copy.rows[k].ls[k].x && ZClear(rec.copy.rows[k].ls, k + 1, n)
      invariant XClear(rec.copy.rows[k].ls, k + 1, targ)
    {
      if rec.copy.rows[k].ls[targ].x {
        CXClearsX(rec.copy.rows[k], k, targ);
        GeneratorFixed(n, k, targ, rec.copy.rows[n + k]);
        Gate(rec, k, CX(k, targ), start, 0);
      }
    }
    if rec.copy.rows[k].ls[k].z {
      assert ConjS(rec.copy.rows[n + k], k).ls == ZLetters(n, k);
      Gate(rec, k, S(k), start, 0);
    }
  }

  /** Turns stabilizer k into Z_k up to sign and keeps destabilizer k. */
  method MakeStabZOffDiag(rec: Recorder, k: nat)
    requires rec.Valid() && k < rec.copy.n && Reduced(rec.copy.rows, rec.copy.n, k)
    requires rec.copy.rows[rec.copy.n + k].ls == XLetters(rec.copy.n, k)
    modifies rec, rec.copy
    ensures rec.Valid() && Reduced(rec.copy.rows, rec.copy.n, k + 1)
    ensures Emitted(old(rec.ops), rec.ops, k, if NoX(old(rec.copy.rows[k].ls)) then 0 else 2)
  {
    hide Related, ConjRows, ConjAll, ConjCX, ReducedPair, Emitted;
    ghost var start := rec.ops;
    var n := rec.copy.n;
    ClearStabZ(rec, k);
    NoXFrom(rec.copy.rows, n, k, k);
    if !XClear(rec.copy.rows[k].ls, k, n) {
      assert ConjH(rec.copy.rows[n + k], k).ls == ZLetters(n, k);
      Gate(rec, k, H(k), start, 0);
      ghost var mid := rec.ops;
      ClearStabX(rec, k);
      EmittedMore(start, mid, rec.ops, k, 1, 0);
      assert ConjH(rec.copy.rows[n + k], k).ls == XLetters(n, k);
      assert rec.copy.rows[k].ls[k].x;
      Gate(rec, k, H(k), start, 1);
    }
    PairReduced(rec.copy.rows, n, k);
  }

  lemma PairReduced(rows: seq<Pauli>, n: nat, k: nat)
    requires k < n && Symplectic(rows, n) && Reduced(rows, n, k)
    requires rows[n + k].ls == XLetters(n, k) && rows[k].ls[k] == LZ
    requires XClear(rows[k].ls, k + 1, n) && ZClear(rows[k].ls, k + 1, n)
    ensures Reduced(rows, n, k + 1)
  {
    CleanBelow(rows, n, k, k);
    OnlyOn(rows[k].ls, k);
    assert ReducedPair(rows, n, k);
  }

  lemma SignGates(n: nat, k: nat, i: nat, neg: bool)
    requires i < n && k < n
    ensures ConjX(Pauli(ZLetters(n, i), neg), k) == Pauli(ZLetters(n, i), neg != (i == k))
    ensures ConjX(Pauli(XLetters(n, i), neg), k) == Pauli(XLetters(n, i), neg)
    ensures ConjZ(Pauli(ZLetters(n, i), neg), k) == Pauli(ZLetters(n, i), neg)
    ensures ConjZ(Pauli(XLetters(n, i), neg), k) == Pauli(XLetters(n, i), neg != (i == k))
  {
    XForm(Pauli(ZLetters(n, i), neg), k);
    XForm(Pauli(XLetters(n, i), neg), k);
    assert ConjZ(Pauli(ZLetters(n, i), neg), k).ls == ZLetters(n, i);
    assert ConjZ(Pauli(XLetters(n, i), neg), k).ls == XLetters(n, i);
  }

  /** Stabilizer i and destabilizer i are exactly Z_i and X_i when i < k, and up to sign otherwise. */
  predicate SignsFixed(rows: seq<Pauli>, n: nat, k: nat)
    requires k <= n
  {
    && Reduced(rows, n, n)
    && forall i :: 0 <= i < k ==> PositivePair(rows, n, i)
  }

  predicate PositivePair(rows: seq<Pauli>, n: nat, i: nat)
    requires Shaped(rows, n) && i < n
  {
    !rows[i].neg && !rows[n + i].neg
  }

  lemma SignGatePair(rows: seq<Pauli>, n: nat, k: nat, i: nat, op: Op)
    requires k < n && i < n && Reduced(rows, n, n)
    requires op == X(k) || op == Z(k)
    ensures ReducedPair(ConjEach(op, rows), n, i)
    ensures ConjEach(op, rows)[i].neg == (rows[i].neg != (op.X? && i == k))
    ensures ConjEach(op, rows)[n + i].neg == (rows[n + i].neg != (op.Z? && i == k))
  {
    assert ReducedPair(rows, n, i);
    SignGates(n, k, i, rows[i].neg);
    SignGates(n, k, i, rows[n + i].neg);
  }

  lemma SignGateStep(rows: seq<Pauli>, n: nat, k: nat, op: Op)
    requires k < n && SignsFixed(rows, n, k)
    requires op == X(k) || op == Z(k)
    ensures SignsFixed(ConjEach(op, rows), n, k)
    ensures ConjEach(op, rows)[k].neg == (rows[k].neg != op.X?)
    ensures ConjEach(op, rows)[n + k].neg == (rows[n + k].neg != op.Z?)
  {
    var r := ConjEach(op, rows);
    forall i | 0 <= i < n ensures ReducedPair(r, n, i) && (i < k ==> PositivePair(r, n, i)) {
      SignGatePair(rows, n, k, i, op);
      if i < k { assert PositivePair(rows, n, i); }
    }
    SignGatePair(rows, n, k, k, op);
  }

  lemma SignsFixedIsIdentity(rows: seq<Pauli>, n: nat)
    requires SignsFixed(rows, n, n)
    ensures rows == Identity(n)
  {
    forall i | 0 <= i < 2 * n ensures rows[i] == Generator(n, i) {
      var k := if i < n then i else i - n;
      assert ReducedPair(rows, n, k) && PositivePair(rows, n, k);
    }
  }

  method FixSigns(rec: Recorder)
    requires rec.Valid() && Reduced(rec.copy.rows, rec.copy.n, rec.copy.n)
    modifies rec, rec.copy
    ensures rec.Valid() && rec.copy.rows == Identity(rec.copy.n)
    ensures old(rec.ops) <= rec.ops && SignsOnly(rec.ops[|old(rec.ops)|..])
  {
    hide Related, ReducedPair, ConjRows, ConjAll, ConjX, ConjZ;
    var n := rec.copy.n;
    for k := 0 to n
      invariant rec.Valid() && SignsFixed(rec.copy.rows, n, k)
      invariant old(rec.ops) <= rec.ops && SignsOnly(rec.ops[|old(rec.ops)|..])
    {
      if rec.copy.rows[k].neg {
        SignGateStep(rec.copy.rows, n, k, X(k));
        rec.Add(X(k));
      }
      if rec.copy.rows[n + k].neg {
        SignGateStep(rec.copy.rows, n, k, Z(k));
        rec.Add(Z(k));
      }
      assert PositivePair(rec.copy.rows, n, k);
    }
    SignsFixedIsIdentity(rec.copy.rows, n);
  }

  /** New operators as a string of their own. */
  lemma EmittedAlone(before: seq<Op>, after: seq<Op>, k: nat, h: nat)
    requires Emitted(before, after, k, h)
    ensures after == before + after[|before|..] && Emitted([], after[|before|..], k, h)
  {
    HCountConcat(before, after[|before|..]);
  }

  lemma StepDone(n: nat, start: seq<Pauli>, k: nat, before: seq<Op>, mid: seq<Op>, after: seq<Op>)
    requires k < n && Shaped(start, n) && AllFit(after, n) && AllFit(mid, n) && AllFit(before, n)
    requires Steps(n, start, k, before)
    requires Emitted(before, mid, k, if NoX(ConjRows(before, start)[n + k].ls) then 1 else 0)
    requires ConjRows(mid, start)[n + k].ls == XLetters(n, k)
    requires Emitted(mid, after, k, if NoX(ConjRows(mid, start)[k].ls) then 0 else 2)
    requires Reduced(ConjRows(after, start), n, k + 1)
    ensures Steps(n, start, k + 1, after)
  {
    hide Emitted, Reduced, NoX, Steps, ConjAll, XLetters;
    var h1 := if NoX(ConjRows(before, start)[n + k].ls) then 1 else 0;
    var h2 := if NoX(ConjRows(mid, start)[k].ls) then 0 else 2;
    EmittedAlone(before, mid, k, h1);
    EmittedAlone(mid, after, k, h2);
    var first, second := mid[|before|..], after[|mid|..];
    assert after == before + (first + second);
    ConjRowsConcat(before, first, start);
    ConjRowsConcat(before, first + second, start);
    TakeStep(n, start, k, before, first, second);
  }

  lemma TakeStep(n: nat, start: seq<Pauli>, k: nat, before: seq<Op>, first: seq<Op>, second: seq<Op>)
    requires k < n && Shaped(start, n) && AllFit(before, n) && Steps(n, start, k, before)
    requires Shaped(ConjRows(before, start), n) && StepOk(n, k, ConjRows(before, start), first, second)
    ensures Steps(n, start, k + 1, before + (first + second))
  {
    hide StepOk, ConjRows;
  }

  /** Reduces stabilizer and destabilizer k. */
  method ReduceQubit(rec: Recorder, k: nat)
    requires rec.Valid() && k < rec.copy.n && Reduced(rec.copy.rows, rec.copy.n, k)
    requires Steps(rec.copy.n, rec.start, k, rec.ops)
    modifies rec, rec.copy
    ensures rec.Valid() && Reduced(rec.copy.rows, rec.copy.n, k + 1)
    ensures Steps(rec.copy.n, rec.start, k + 1, rec.ops)
  {
    hide Emitted, NoX, Steps, Related, ReducedPair, ConjRows, ConjAll, XLetters;
    ghost var n, before, d := rec.copy.n, rec.ops, rec.copy.rows[rec.copy.n + k].ls;
    MakeDestabXMainDiag(rec, k);
    ghost var h := rec.ops;
    MakeDestabXOffDiag(rec, k);
    ghost var mid := rec.ops;
    EmittedMore(before, h, mid, k, if NoX(d) then 1 else 0, 0);
    MakeStabZOffDiag(rec, k);
    StepDone(n, rec.start, k, before, mid, rec.ops);
  }

  lemma Eliminated(n: nat, rows: seq<Pauli>, recorded: seq<Op>, ops: seq<Op>)
    requires Shaped(rows, n) && Steps(n, rows, n, recorded) && recorded <= ops && SignsOnly(ops[|recorded|..])
    ensures ByElimination(n, rows, Adjoint(ops))
  {
    hide Steps, SignsOnly, Adjoint;
    assert ops == recorded + ops[|recorded|..];
  }

  /**
   The synthesized string reproduces the tableau exactly, signs included, and it
   contains no h when all stabilizers are diagonal.  The elimination goes qubit by qubit: at each
   one an h for a destabilizer without x, and two for a stabilizer with one.
   */
  method Synthesize(n: nat, rows: seq<Pauli>) returns (ops: seq<Op>)
    requires Symplectic(rows, n)
    ensures AllFit(ops, n)
    ensures TableauOf(n, ops) == rows
    ensures DiagonalStabilizers(rows, n) ==> NoH(ops)
    ensures ByElimination(n, rows, ops)
  {
    hide Steps, Related;
    var rec := new Recorder(n, rows);
    assert Steps(n, rows, 0, []) by { NoSteps(n, rows); }
    for k := 0 to n
      invariant rec.Valid() && rec.copy.n == n && rec.start == rows
      invariant fresh(rec) && fresh(rec.copy)
      invariant Reduced(rec.copy.rows, n, k) && Steps(n, rows, k, rec.ops)
    {
      ReduceQubit(rec, k);
    }
    ghost var recorded := rec.ops;
    FixSigns(rec);
    ops := Adjoint(rec.ops);
    Eliminated(n, rows, recorded, rec.ops);
    AdjointFits(rec.ops, n);
    ConjRowsAdjoint(rec.ops, rows, n);
  }

  lemma NoSteps(n: nat, rows: seq<Pauli>)
    requires Shaped(rows, n)
    ensures Steps(n, rows, 0, [])
  {
  }
}
