/**
 GraySynth: compiles diagonal rotations to CX and phase gates by splitting the set of
 rotations on one qubit at a time, in star and in staircase mode.
 */
module GraySynth {
  import opened Sequences
  import opened PauliAlgebra
  import opened CliffordOps
  import opened CliffordTableaux
  import opened StabilizerTableaux
  import opened ProgramSemantics
  import opened PauliRotations
  import opened RotationDiagonalization
  import opened DiagonalCircuits
  import opened StabilizerRank

  datatype Mode = Star | Staircase
  datatype Target = None | At(q: nat)

  /** A set of rotations still to be split on the listed qubits; targ is the qubit all of them contain. */
  datatype Entry = Entry(rots: seq<nat>, qubits: seq<nat>, targ: Target)

  // ---------- the invariant of an entry ----------

  /** The z-bits of a rotation after a CX. */
  function AddZ(v: seq<Letter>, c: nat, t: nat): (r: seq<Letter>)
    requires c < |v| && t < |v|
    ensures |r| == |v|
  {
    v[c := Letter(v[c].z != v[t].z, false)]
  }

  /** The rotations of an entry; an entry without a target also counts the blank product. */
  ghost predicate InEntry(copy: seq<Rotation>, n: nat, e: Entry, v: seq<Letter>) {
    || (exists x :: x in e.rots && x < |copy| && v == copy[x].p.ls)
    || (e.targ.None? && v == Blank(n))
  }

  /** v and w agree on every remaining qubit that is ordered after i. */
  predicate AgreeAbove(v: seq<Letter>, w: seq<Letter>, qs: seq<nat>, order: seq<nat>, i: nat)
    requires |v| == |w| == |order| && i < |v|
  {
    forall q :: q in qs && q < |v| && order[q] > order[i] ==> v[q].z == w[q].z
  }

  /** Off the remaining qubits, z-bits are determined by those of higher-ordered remaining qubits. */
  predicate PairDepends(v: seq<Letter>, w: seq<Letter>, qs: seq<nat>, order: seq<nat>)
    requires |v| == |w| == |order|
  {
    forall i :: 0 <= i < |v| && i !in qs && AgreeAbove(v, w, qs, order, i) ==> v[i].z == w[i].z
  }

  ghost predicate Depends(copy: seq<Rotation>, n: nat, order: seq<nat>, e: Entry)
    requires |order| == n
  {
    forall v, w :: InEntry(copy, n, e, v) && InEntry(copy, n, e, w) ==>
                     |v| == |w| == n && PairDepends(v, w, e.qubits, order)
  }

  /** Rotations of entries with target t contain qubit t, those of entries without a target do not. */
  ghost predicate TargetOk(copy: seq<Rotation>, n: nat, T: Target, e: Entry) {
    && (e.targ == T || e.targ.None?)
    && (T.At? ==>
          && T.q < n && T.q !in e.qubits
          && forall v: seq<Letter> :: InEntry(copy, n, e, v) ==> |v| == n && (v[T.q].z <==> e.targ == T))
  }

  ghost predicate EntryOk(copy: seq<Rotation>, n: nat, order: seq<nat>, T: Target, e: Entry)
    requires |order| == n
  {
    && (forall q :: q in e.qubits ==> q < n)
    && (forall x :: x in e.rots ==> x < |copy|)
    && Depends(copy, n, order, e)
    && TargetOk(copy, n, T, e)
  }

  ghost predicate EntriesOk(copy: seq<Rotation>, n: nat, order: seq<nat>, T: Target, es: seq<Entry>)
    requires |order| == n
  {
    forall k :: 0 <= k < |es| ==> EntryOk(copy, n, order, T, es[k])
  }

  /**
   A CX keeps the dependency when its control is ordered before its target, or when
   the rotations agree on the target.
   */
  lemma PairDependsCX(v: seq<Letter>, w: seq<Letter>, qs: seq<nat>, order: seq<nat>, c: nat, t: nat)
    requires |v| == |w| == |order| && c < |v| && t < |v| && c != t
    requires PairDepends(v, w, qs, order)
    requires order[c] < order[t] || v[t].z == w[t].z
    ensures PairDepends(AddZ(v, c, t), AddZ(w, c, t), qs, order)
  {
    var v', w' := AddZ(v, c, t), AddZ(w, c, t);
    forall i | 0 <= i < |v| && i !in qs && AgreeAbove(v', w', qs, order, i) ensures v'[i].z == w'[i].z {
      if order[c] < order[t] && order[c] >= order[i] {
        // the target lies above i, so the rotations agree on it
        if t in qs {
          assert v'[t].z == w'[t].z;
        } else {
          assert AgreeAbove(v, w, qs, order, t);
        }
        assert v[t].z == w[t].z;
      }
      assert AgreeAbove(v, w, qs, order, i);
    }
  }

  /** How one CX changes the rotations of an entry. */
  ghost predicate Moved(copy: seq<Rotation>, copy': seq<Rotation>, n: nat, c: nat, t: nat, e: Entry)
    requires c < n && t < n
  {
    && |copy'| == |copy|
    && forall x :: x in e.rots && x < |copy| ==> |copy[x].p.ls| == n && copy'[x].p.ls == AddZ(copy[x].p.ls, c, t)
  }

  lemma EntryMoved(copy: seq<Rotation>, copy': seq<Rotation>, n: nat, c: nat, t: nat, e: Entry, v': seq<Letter>) returns (v: seq<Letter>)
    requires c < n && t < n && Moved(copy, copy', n, c, t, e) && InEntry(copy', n, e, v')
    ensures InEntry(copy, n, e, v) && |v| == n && v' == AddZ(v, c, t)
  {
    if x :| x in e.rots && x < |copy'| && v' == copy'[x].p.ls {
      v := copy[x].p.ls;
    } else {
      v := Blank(n);
      assert AddZ(v, c, t) == v;
    }
  }

  lemma EntryOkCX(copy: seq<Rotation>, copy': seq<Rotation>, n: nat, order: seq<nat>, tq: nat, e: Entry, c: nat, t: nat)
    requires |order| == n && c < n && t < n && c != t && c != tq
    requires EntryOk(copy, n, order, At(tq), e) && Moved(copy, copy', n, c, t, e)
    requires order[c] < order[t] || t == tq
    ensures EntryOk(copy', n, order, At(tq), e)
  {
    forall v', w' | InEntry(copy', n, e, v') && InEntry(copy', n, e, w')
      ensures |v'| == |w'| == n && PairDepends(v', w', e.qubits, order)
    {
      var v := EntryMoved(copy, copy', n, c, t, e, v');
      var w := EntryMoved(copy, copy', n, c, t, e, w');
      PairDependsCX(v, w, e.qubits, order, c, t);
    }
    forall v': seq<Letter> | InEntry(copy', n, e, v') ensures |v'| == n && (v'[tq].z <==> e.targ == At(tq)) {
      var v := EntryMoved(copy, copy', n, c, t, e, v');
    }
  }

  // ---------- the rotations of the stack ----------

  function Flatten(stack: seq<Entry>): seq<nat> {
    if |stack| == 0 then [] else Flatten(stack[..|stack| - 1]) + stack[|stack| - 1].rots
  }

  lemma FlattenPush(stack: seq<Entry>, e: Entry)
    ensures Flatten(stack + [e]) == Flatten(stack) + e.rots
  {
    assert (stack + [e])[..|stack|] == stack;
  }

  lemma {:induction false} InFlatten(stack: seq<Entry>, k: nat, x: nat)
    requires k < |stack| && x in stack[k].rots
    ensures x in Flatten(stack)
  {
    if k < |stack| - 1 {
      InFlatten(stack[..|stack| - 1], k, x);
    }
  }

  /** Every rotation is either emitted or in exactly one entry, once. */
  ghost predicate Partition(pending: seq<nat>, emitted: seq<nat>, m: nat) {
    multiset(pending) + multiset(emitted) == multiset(Upto(m))
  }

  lemma {:induction false} UptoOnce(m: nat, x: nat)
    ensures multiset(Upto(m))[x] == if x < m then 1 else 0
  {
    if m > 0 {
      UptoOnce(m - 1, x);
      assert Upto(m) == Upto(m - 1) + [m - 1];
    }
  }

  lemma Pending(pending: seq<nat>, emitted: seq<nat>, m: nat, x: nat)
    requires Partition(pending, emitted, m) && x in pending
    ensures x < m && x !in emitted
  {
    UptoOnce(m, x);
    assert multiset(pending)[x] >= 1;
    assert multiset(Upto(m))[x] == multiset(pending)[x] + multiset(emitted)[x];
  }

  // ---------- termination ----------

  function Weight(k: nat): nat { if k == 0 then 1 else 2 * Weight(k - 1) + 1 }

  function Work(stack: seq<Entry>): nat {
    if |stack| == 0 then 0 else Work(stack[..|stack| - 1]) + Weight(|stack[|stack| - 1].qubits|)
  }

  lemma WorkPush(stack: seq<Entry>, e: Entry)
    ensures Work(stack + [e]) == Work(stack) + Weight(|e.qubits|)
  {
    assert (stack + [e])[..|stack|] == stack;
  }

  lemma {:induction false} WeightMonotone(a: nat, b: nat)
    requires a <= b
    ensures 1 <= Weight(a) <= Weight(b)
  {
    if a < b {
      WeightMonotone(a, b - 1);
    } else if a > 0 {
      WeightMonotone(a - 1, b - 1);
    }
  }

  // ---------- selecting rows ----------

  /** Indices of rotations on n qubits. */
  predicate Filter(copy: seq<Rotation>, rots: seq<nat>, n: nat) {
    forall k :: 0 <= k < |rots| ==> rots[k] < |copy| && |copy[rots[k]].p.ls| == n
  }

  predicate AllOnes(copy: seq<Rotation>, rots: seq<nat>, n: nat, i: nat)
    requires Filter(copy, rots, n)
  {
    i < n && forall k :: 0 <= k < |rots| ==> copy[rots[k]].p.ls[i].z
  }

  predicate Increasing(rows: seq<nat>) { forall a, b :: 0 <= a < b < |rows| ==> rows[a] < rows[b] }

  /** The qubits other than the pivot on which every rotation of the filter has a z. */
  method GetControlRows(copy: seq<Rotation>, rots: seq<nat>, pivot: nat, n: nat) returns (rows: seq<nat>)
    requires Filter(copy, rots, n)
    ensures forall i: nat :: i in rows <==> i < n && i != pivot && AllOnes(copy, rots, n, i)
    ensures Increasing(rows)
  {
    rows := [];
    for i := 0 to n
      invariant forall j: nat :: j in rows <==> j < i && j != pivot && AllOnes(copy, rots, n, j)
      invariant Increasing(rows) && forall a :: 0 <= a < |rows| ==> rows[a] < i
    {
      if i != pivot && AllOnes(copy, rots, n, i) {
        rows := rows + [i];
      }
    }
  }

  function CountOnes(copy: seq<Rotation>, rots: seq<nat>, n: nat, q: nat): nat
    requires Filter(copy, rots, n) && q < n
  {
    if |rots| == 0 then 0
    else CountOnes(copy, rots[..|rots| - 1], n, q) + if copy[rots[|rots| - 1]].p.ls[q].z then 1 else 0
  }

  /** The i-th qubit is the last one with the most ones. */
  predicate MostAt(copy: seq<Rotation>, rots: seq<nat>, qubits: seq<nat>, n: nat, i: nat)
    requires InRange(qubits, n) && Filter(copy, rots, n)
  {
    && i < |qubits|
    && (forall k :: 0 <= k < |qubits| ==> CountOnes(copy, rots, n, qubits[k]) <= CountOnes(copy, rots, n, qubits[i]))
    && forall k :: i < k < |qubits| ==> CountOnes(copy, rots, n, qubits[k]) < CountOnes(copy, rots, n, qubits[i])
  }

  /** The i-th qubit is the first one with the fewest ones. */
  predicate LeastAt(copy: seq<Rotation>, rots: seq<nat>, qubits: seq<nat>, n: nat, i: nat)
    requires InRange(qubits, n) && Filter(copy, rots, n)
  {
    && i < |qubits|
    && (forall k :: 0 <= k < |qubits| ==> CountOnes(copy, rots, n, qubits[i]) <= CountOnes(copy, rots, n, qubits[k]))
    && forall k :: 0 <= k < i ==> CountOnes(copy, rots, n, qubits[i]) < CountOnes(copy, rots, n, qubits[k])
  }

  /** The remaining qubit with the most ones, or the one with the most zeros when that is larger. */
  ghost predicate CofactorRow(copy: seq<Rotation>, rots: seq<nat>, qubits: seq<nat>, n: nat, row: nat) {
    && InRange(qubits, n) && Filter(copy, rots, n)
    && exists i: nat, j: nat :: MostAt(copy, rots, qubits, n, i) && LeastAt(copy, rots, qubits, n, j)
         && row == if CountOnes(copy, rots, n, qubits[i]) + CountOnes(copy, rots, n, qubits[j]) >= |rots| then qubits[i] else qubits[j]
  }

  method GetCofactorRow(copy: seq<Rotation>, rots: seq<nat>, qubits: seq<nat>, n: nat) returns (row: nat)
    requires |qubits| > 0 && InRange(qubits, n) && Filter(copy, rots, n)
    ensures row in qubits && row < n && CofactorRow(copy, rots, qubits, n, row)
  {
    var most, least := 0, 0;
    for k := 1 to |qubits|
      invariant most < k && least < k
      invariant forall j :: 0 <= j < k ==> CountOnes(copy, rots, n, qubits[j]) <= CountOnes(copy, rots, n, qubits[most])
      invariant forall j :: most < j < k ==> CountOnes(copy, rots, n, qubits[j]) < CountOnes(copy, rots, n, qubits[most])
      invariant forall j :: 0 <= j < k ==> CountOnes(copy, rots, n, qubits[least]) <= CountOnes(copy, rots, n, qubits[j])
      invariant forall j :: 0 <= j < least ==> CountOnes(copy, rots, n, qubits[least]) < CountOnes(copy, rots, n, qubits[j])
    {
      if CountOnes(copy, rots, n, qubits[k]) >= CountOnes(copy, rots, n, qubits[most]) {
        most := k;
      }
      if CountOnes(copy, rots, n, qubits[k]) < CountOnes(copy, rots, n, qubits[least]) {
        least := k;
      }
    }
    assert MostAt(copy, rots, qubits, n, most) && LeastAt(copy, rots, qubits, n, least);
    if CountOnes(copy, rots, n, qubits[most]) as int >= |rots| - CountOnes(copy, rots, n, qubits[least]) {
      row := qubits[most];
    } else {
      row := qubits[least];
    }
  }

  /** The other qubits, in their order. */
  function Minus(qs: seq<nat>, r: nat): seq<nat> {
    if |qs| == 0 then [] else Minus(qs[..|qs| - 1], r) + if qs[|qs| - 1] != r then [qs[|qs| - 1]] else []
  }

  /** The rotations of the filter with the given bit on qubit r, in their order. */
  function WithBit(copy: seq<Rotation>, rots: seq<nat>, r: nat, bit: bool): seq<nat> {
    if |rots| == 0 then []
    else
      var k := |rots| - 1;
      WithBit(copy, rots[..k], r, bit)
      + if rots[k] < |copy| && r < |copy[rots[k]].p.ls| && copy[rots[k]].p.ls[r].z == bit then [rots[k]] else []
  }

  method Without(qs: seq<nat>, r: nat) returns (rest: seq<nat>)
    requires r in qs
    ensures |rest| < |qs|
    ensures forall q :: q in rest <==> q in qs && q != r
    ensures rest == Minus(qs, r)
  {
    rest := [];
    for k := 0 to |qs|
      invariant |rest| <= k
      invariant r in qs[..k] ==> |rest| < k
      invariant forall q :: q in rest <==> q in qs[..k] && q != r
      invariant rest == Minus(qs[..k], r)
    {
      assert qs[..k + 1] == qs[..k] + [qs[k]];
      assert qs[..k + 1][..k] == qs[..k];
      if qs[k] != r {
        rest := rest + [qs[k]];
      }
    }
    assert qs[..|qs|] == qs;
  }

  lemma WithBitNext(copy: seq<Rotation>, rots: seq<nat>, r: nat, bit: bool, k: nat)
    requires k < |rots| && rots[k] < |copy| && r < |copy[rots[k]].p.ls|
    ensures WithBit(copy, rots[..k + 1], r, bit) == WithBit(copy, rots[..k], r, bit) + if copy[rots[k]].p.ls[r].z == bit then [rots[k]] else []
  {
    assert rots[..k + 1][..k] == rots[..k];
  }

  /** Rotation x is in the filter, and has the given z-bit on qubit r. */
  predicate Picked(copy: seq<Rotation>, rots: seq<nat>, n: nat, r: nat, x: nat, bit: bool)
    requires r < n
  {
    x in rots && x < |copy| && |copy[x].p.ls| == n && copy[x].p.ls[r].z == bit
  }

  /** The rotations of the filter without and with a z on qubit r. */
  method Split(copy: seq<Rotation>, rots: seq<nat>, r: nat, n: nat) returns (zeros: seq<nat>, ones: seq<nat>)
    requires r < n && Filter(copy, rots, n)
    ensures multiset(zeros) + multiset(ones) == multiset(rots)
    ensures forall x :: x in zeros ==> Picked(copy, rots, n, r, x, false)
    ensures forall x :: x in ones ==> Picked(copy, rots, n, r, x, true)
    ensures zeros == WithBit(copy, rots, r, false) && ones == WithBit(copy, rots, r, true)
  {
    zeros, ones := [], [];
    for k := 0 to |rots|
      invariant zeros == WithBit(copy, rots[..k], r, false) && ones == WithBit(copy, rots[..k], r, true)
    {
      hide WithBit;
      WithBitNext(copy, rots, r, false, k);
      WithBitNext(copy, rots, r, true, k);
      if copy[rots[k]].p.ls[r].z {
        ones := ones + [rots[k]];
      } else {
        zeros := zeros + [rots[k]];
      }
    }
    assert rots[..|rots|] == rots;
    BitsPartition(copy, rots, r, n);
    BitsPicked(copy, rots, r, n, false);
    BitsPicked(copy, rots, r, n, true);
  }

  lemma OneMore(zeros: seq<nat>, ones: seq<nat>, rots: seq<nat>, x: nat, zeros': seq<nat>, ones': seq<nat>)
    requires multiset(zeros) + multiset(ones) == multiset(rots)
    requires (zeros' == zeros + [x] && ones' == ones) || (zeros' == zeros && ones' == ones + [x])
    ensures multiset(zeros') + multiset(ones') == multiset(rots + [x])
  {
  }

  /** Every rotation of the filter has one of the two bits. */
  lemma {:induction false} BitsPartition(copy: seq<Rotation>, rots: seq<nat>, r: nat, n: nat)
    requires r < n && Filter(copy, rots, n)
    ensures multiset(WithBit(copy, rots, r, false)) + multiset(WithBit(copy, rots, r, true)) == multiset(rots)
  {
    if |rots| > 0 {
      var k := |rots| - 1;
      BitsPartition(copy, rots[..k], r, n);
      assert rots == rots[..k] + [rots[k]];
      OneMore(WithBit(copy, rots[..k], r, false), WithBit(copy, rots[..k], r, true), rots[..k], rots[k],
              WithBit(copy, rots, r, false), WithBit(copy, rots, r, true));
    }
  }

  lemma {:induction false} BitsPicked(copy: seq<Rotation>, rots: seq<nat>, r: nat, n: nat, bit: bool)
    requires r < n && Filter(copy, rots, n)
    ensures forall x :: x in WithBit(copy, rots, r, bit) ==> Picked(copy, rots, n, r, x, bit)
  {
    if |rots| > 0 {
      BitsPicked(copy, rots[..|rots| - 1], r, n, bit);
    }
  }

  predicate OrderedBy(qs: seq<nat>, order: seq<nat>) {
    && InRange(qs, |order|)
    && forall a, b :: 0 <= a < b < |qs| ==> order[qs[a]] < order[qs[b]]
  }

  method InsertByOrder(qs: seq<nat>, q: nat, order: seq<nat>) returns (r: seq<nat>)
    requires OrderedBy(qs, order) && q < |order|
    requires forall a :: 0 <= a < |qs| ==> order[qs[a]] != order[q]
    ensures |r| == |qs| + 1 && OrderedBy(r, order)
    ensures forall x :: x in r <==> x in qs || x == q
  {
    var j := 0;
    while j < |qs| && order[qs[j]] < order[q]
      invariant 0 <= j <= |qs|
      invariant forall a :: 0 <= a < j ==> order[qs[a]] < order[q]
    {
      j := j + 1;
    }
    InsertKeepsOrder(qs, q, order, j);
    r := qs[..j] + [q] + qs[j..];
    assert qs == qs[..j] + qs[j..];
  }

  lemma InsertKeepsOrder(qs: seq<nat>, q: nat, order: seq<nat>, j: nat)
    requires OrderedBy(qs, order) && q < |order| && j <= |qs|
    requires forall a :: 0 <= a < j ==> order[qs[a]] < order[q]
    requires j < |qs| ==> order[q] < order[qs[j]]
    ensures OrderedBy(qs[..j] + [q] + qs[j..], order)
  {
    var r := qs[..j] + [q] + qs[j..];
    assert forall a :: 0 <= a < |r| ==> r[a] == if a < j then qs[a] else if a == j then q else qs[a - 1];
    forall a, b | 0 <= a < b < |r| ensures order[r[a]] < order[r[b]] {
      if a < j && b > j { assert order[qs[a]] < order[qs[b - 1]]; }
    }
  }

  /** Sorts distinct qubits by their place in the fixed order. */
  method SortByOrder(qs: seq<nat>, order: seq<nat>) returns (r: seq<nat>)
    requires InRange(qs, |order|)
    requires Distinct(qs) && Distinct(order)
    ensures |r| == |qs| && OrderedBy(r, order)
    ensures forall q :: q in r <==> q in qs
  {
    r := [];
    for k := 0 to |qs|
      invariant |r| == k && OrderedBy(r, order)
      invariant forall q :: q in r <==> q in qs[..k]
    {
      assert qs[k] !in qs[..k];
      assert qs[..k + 1] == qs[..k] + [qs[k]];
      forall a | 0 <= a < |r| ensures order[r[a]] != order[qs[k]] {
        assert r[a] in r;
      }
      r := InsertByOrder(r, qs[k], order);
    }
    assert qs[..|qs|] == qs;
  }

  // ---------- the synthesizer ----------

  ghost predicate AllTracked(copy: seq<Rotation>, rotations: seq<Rotation>, n: nat, cxs: seq<Op>, frozen: set<nat>)
    requires |copy| == |rotations|
  {
    forall j :: 0 <= j < |copy| && j !in frozen ==> Tracks(n, cxs, rotations[j], copy[j])
  }

  /** A CX moved every rotation that is not frozen. */
  ghost predicate MovedLive(copy: seq<Rotation>, copy': seq<Rotation>, n: nat, c: nat, t: nat, frozen: set<nat>)
    requires c < n && t < n
  {
    && |copy'| == |copy|
    && forall j :: 0 <= j < |copy| && j !in frozen ==>
                     |copy[j].p.ls| == n && copy'[j].p.ls == AddZ(copy[j].p.ls, c, t)
  }

  ghost predicate Live(e: Entry, frozen: set<nat>, m: nat) {
    forall x :: x in e.rots ==> x < m && x !in frozen
  }

  ghost predicate AllLive(es: seq<Entry>, frozen: set<nat>, m: nat) {
    forall k :: 0 <= k < |es| ==> Live(es[k], frozen, m)
  }

  lemma EntriesOkCX(copy: seq<Rotation>, copy': seq<Rotation>, n: nat, order: seq<nat>, tq: nat, es: seq<Entry>, frozen: set<nat>,
                    c: nat, t: nat)
    requires |order| == n && c < n && t < n && c != t && c != tq
    requires EntriesOk(copy, n, order, At(tq), es) && AllLive(es, frozen, |copy|)
    requires MovedLive(copy, copy', n, c, t, frozen)
    requires order[c] < order[t] || t == tq
    ensures EntriesOk(copy', n, order, At(tq), es)
  {
    forall k | 0 <= k < |es| ensures EntryOk(copy', n, order, At(tq), es[k]) {
      assert EntryOk(copy, n, order, At(tq), es[k]) && Live(es[k], frozen, |copy|);
      EntryOkCX(copy, copy', n, order, tq, es[k], c, t);
    }
  }

  /** The rows listed in done are cleared on the rotations of the filter, the others are as before. */
  ghost predicate Cleared(before: seq<Rotation>, now: seq<Rotation>, rots: seq<nat>, n: nat, done: seq<nat>)
  {
    && |now| == |before|
    && forall x :: x in rots ==>
         && x < |before| && |before[x].p.ls| == |now[x].p.ls| == n
         && forall i :: 0 <= i < n ==> now[x].p.ls[i].z == (i !in done && before[x].p.ls[i].z)
  }

  ghost predicate OnesOn(copy: seq<Rotation>, rots: seq<nat>, n: nat, i: nat)
    requires i < n
  {
    forall x :: x in rots && x < |copy| && |copy[x].p.ls| == n ==> copy[x].p.ls[i].z
  }

  lemma ClearedStep(before: seq<Rotation>, now: seq<Rotation>, next: seq<Rotation>, rots: seq<nat>, n: nat, done: seq<nat>, c: nat, t: nat,
                    frozen: set<nat>)
    requires c < n && t < n && c != t
    requires Cleared(before, now, rots, n, done) && MovedLive(now, next, n, c, t, frozen)
    requires forall x :: x in rots ==> x !in frozen
    requires c !in done && t !in done
    requires OnesOn(before, rots, n, c) && OnesOn(before, rots, n, t)
    ensures Cleared(before, next, rots, n, done + [c])
  {
    forall x | x in rots
      ensures x < |before| && |before[x].p.ls| == |next[x].p.ls| == n
      ensures forall i :: 0 <= i < n ==> next[x].p.ls[i].z == (i !in done + [c] && before[x].p.ls[i].z)
    {
      assert next[x].p.ls == AddZ(now[x].p.ls, c, t);
      assert now[x].p.ls[c].z && now[x].p.ls[t].z;
    }
  }

  ghost predicate AllOnesOn(copy: seq<Rotation>, rots: seq<nat>, n: nat, rows: seq<nat>)
    requires InRange(rows, n)
  {
    forall k :: 0 <= k < |rows| ==> OnesOn(copy, rots, n, rows[k])
  }

  lemma TakeNext(s: seq<nat>, m: nat)
    requires m < |s|
    ensures s[..m + 1] == s[..m] + [s[m]]
  {
  }

  lemma TakeEnds(s: seq<nat>)
    ensures s[..0] == [] && s[..|s|] == s
  {
  }

  lemma NotBefore(s: seq<nat>, m: nat, t: nat)
    requires Distinct(s) && m < |s| && t !in s
    ensures s[m] !in s[..m] && s[m] != t && t !in s[..m]
  {
    assert s[m] in s;
  }

  lemma AllMoved(copy: seq<Rotation>, copy': seq<Rotation>, rotations: seq<Rotation>, n: nat, cxs: seq<Op>, c: nat, t: nat, frozen: set<nat>)
    requires |copy| == |copy'| == |rotations| && c < n && t < n && c != t && AllTracked(copy, rotations, n, cxs, frozen)
    requires forall j :: 0 <= j < |copy| && j !in frozen ==> copy'[j] == ConjRotation(CX(c, t), copy[j])
    ensures AllTracked(copy', rotations, n, cxs + [CX(c, t)], frozen) && MovedLive(copy, copy', n, c, t, frozen)
  {
    forall j | 0 <= j < |copy| && j !in frozen
      ensures Tracks(n, cxs + [CX(c, t)], rotations[j], copy'[j])
      ensures |copy[j].p.ls| == n && copy'[j].p.ls == AddZ(copy[j].p.ls, c, t)
    {
      hide ConjRotation, Tracks;
      assert Tracks(n, cxs, rotations[j], copy[j]);
      TracksCX(n, cxs, rotations[j], copy[j], c, t);
      MovedZ(n, cxs, rotations[j], copy[j], c, t);
    }
  }

  lemma MovedZ(n: nat, cxs: seq<Op>, orig: Rotation, cur: Rotation, c: nat, t: nat)
    requires Tracks(n, cxs, orig, cur) && c < n && t < n && c != t
    ensures |cur.p.ls| == n && ConjRotation(CX(c, t), cur).p.ls == AddZ(cur.p.ls, c, t)
  {
    DiagonalCX(cur.p, c, t);
  }

  // ---------- what a run does ----------

  /** The state between two entries: the stack, the rotations as they are now, and the gates so far. */
  datatype State = State(stack: seq<Entry>, copy: seq<Rotation>, gates: seq<Item>)

  /** What the CX of the gates so far have made of the rotations that wait. */
  ghost predicate Current(rotations: seq<Rotation>, st: State) {
    forall x :: x in Flatten(st.stack) ==>
      && x < |rotations| && x < |st.copy|
      && st.copy[x].p == ConjAll(OpsIn(st.gates), rotations[x].p) && st.copy[x].phase == rotations[x].phase
  }

  /** The CX for control rows and a target: all to the target, or up the ladder. */
  function BlockCXs(mode: Mode, ctrls: seq<nat>, t: nat): (r: seq<Op>)
    ensures |r| == |ctrls|
  {
    seq(|ctrls|, m requires 0 <= m < |ctrls| => CX(ctrls[m], if mode == Star || m + 1 == |ctrls| then t else ctrls[m + 1]))
  }

  /** Exactly the rows on which all rotations of the filter have a one, by number or by the fixed order. */
  ghost predicate ControlRows(mode: Mode, order: seq<nat>, copy: seq<Rotation>, n: nat, rots: seq<nat>, t: nat, ctrls: seq<nat>) {
    && Filter(copy, rots, n)
    && (forall i: nat :: i in ctrls <==> i < n && i != t && AllOnes(copy, rots, n, i))
    && if mode == Star then Increasing(ctrls) else OrderedBy(ctrls, order)
  }

  /** The CX at an entry: none without a target. */
  ghost predicate Clears(mode: Mode, order: seq<nat>, copy: seq<Rotation>, n: nat, e: Entry, block: seq<Op>) {
    if e.targ.None? then block == []
    else exists ctrls: seq<nat> :: ControlRows(mode, order, copy, n, e.rots, e.targ.q, ctrls) && block == BlockCXs(mode, ctrls, e.targ.q)
  }

  function PhasesOn(n: nat, copy: seq<Rotation>, rots: seq<nat>, t: nat): (r: seq<Item>)
    requires InRange(rots, |copy|)
    ensures |r| == |rots|
  {
    seq(|rots|, k requires 0 <= k < |rots| => PhaseGate(n, copy[rots[k]].phase, t))
  }

  /** The entries for the rotations without and with a one on the row, which is the target if there was none. */
  function Children(copy: seq<Rotation>, e: Entry, row: nat): seq<Entry> {
    var left := Minus(e.qubits, row);
    [Entry(WithBit(copy, e.rots, row, false), left, e.targ),
     Entry(WithBit(copy, e.rots, row, true), left, if e.targ.None? then At(row) else e.targ)]
  }

  /** One entry: an empty one is dropped, a leaf emits its rotations on the target, any other one is split on its cofactor row. */
  ghost predicate Visit(mode: Mode, order: seq<nat>, n: nat, st: State, st': State, block: seq<Op>) {
    |st.stack| > 0 &&
    var k := |st.stack| - 1;
    var e, rest := st.stack[k], st.stack[..k];
    if |e.rots| == 0 then st' == st.(stack := rest) && block == []
    else
      && Clears(mode, order, st.copy, n, e, block)
      && if |e.qubits| == 0 then
           && e.targ.At? && st'.stack == rest && InRange(e.rots, |st'.copy|)
           && st'.gates == st.gates + Gates(block) + PhasesOn(n, st'.copy, e.rots, e.targ.q)
         else
           && st'.gates == st.gates + Gates(block)
           && exists row :: CofactorRow(st'.copy, e.rots, e.qubits, n, row) && st'.stack == rest + Children(st'.copy, e, row)
  }

  ghost predicate Visited(mode: Mode, order: seq<nat>, n: nat, st: State, st': State) {
    exists block :: Visit(mode, order, n, st, st', block)
  }

  /** A run: all rotations on all qubits first, entry by entry. */
  ghost predicate RunOf(mode: Mode, order: seq<nat>, n: nat, rotations: seq<Rotation>, states: seq<State>) {
    && |states| > 0 && states[0] == State([Entry(Upto(|rotations|), Upto(n), None)], rotations, [])
    && (forall k :: 0 <= k < |states| ==> Current(rotations, states[k]))
    && forall k :: 0 <= k < |states| - 1 ==> Visited(mode, order, n, states[k], states[k + 1])
  }

  /** The circuit starts with the gates of a run that has come to its end. */
  ghost predicate BySplitting(mode: Mode, order: seq<nat>, n: nat, rotations: seq<Rotation>, gates: seq<Item>) {
    exists states: seq<State> :: RunOf(mode, order, n, rotations, states) && states[|states| - 1].stack == [] && states[|states| - 1].gates <= gates
  }

  lemma RunGoesOn(mode: Mode, order: seq<nat>, n: nat, rotations: seq<Rotation>, states: seq<State>, st: State)
    requires RunOf(mode, order, n, rotations, states) && Current(rotations, st)
    requires Visited(mode, order, n, states[|states| - 1], st)
    ensures RunOf(mode, order, n, rotations, states + [st])
  {
    hide Visited, Current;
  }

  lemma ClearsInMode(mode: Mode, order: seq<nat>, copy: seq<Rotation>, n: nat, e: Entry, t: nat, rows: seq<nat>, ctrls: seq<nat>)
    requires Filter(copy, e.rots, n) && e.targ == At(t) && forall q :: q in ctrls <==> q in rows
    requires forall i: nat :: i in rows <==> i < n && i != t && AllOnes(copy, e.rots, n, i)
    requires if mode == Star then Increasing(ctrls) else OrderedBy(ctrls, order)
    ensures Clears(mode, order, copy, n, e, BlockCXs(mode, ctrls, t))
  {
    assert ControlRows(mode, order, copy, n, e.rots, t, ctrls);
  }

  lemma NoClears(mode: Mode, order: seq<nat>, copy: seq<Rotation>, n: nat, e: Entry)
    ensures e.targ.None? ==> Clears(mode, order, copy, n, e, [])
    ensures Gates([]) == []
  {
  }

  lemma EmptyVisited(mode: Mode, order: seq<nat>, n: nat, st: State, st': State)
    requires |st.stack| > 0 && |st.stack[|st.stack| - 1].rots| == 0 && st' == st.(stack := st.stack[..|st.stack| - 1])
    ensures Visited(mode, order, n, st, st')
  {
    assert Visit(mode, order, n, st, st', []);
  }

  lemma LeafVisited(mode: Mode, order: seq<nat>, n: nat, st: State, st': State, block: seq<Op>)
    requires |st.stack| > 0
    requires var e := st.stack[|st.stack| - 1];
      && |e.rots| > 0 && |e.qubits| == 0 && Clears(mode, order, st.copy, n, e, block)
      && e.targ.At? && st'.stack == st.stack[..|st.stack| - 1] && InRange(e.rots, |st'.copy|)
      && st'.gates == st.gates + Gates(block) + PhasesOn(n, st'.copy, e.rots, e.targ.q)
    ensures Visited(mode, order, n, st, st')
  {
    assert Visit(mode, order, n, st, st', block);
  }

  lemma BranchVisited(mode: Mode, order: seq<nat>, n: nat, st: State, st': State, block: seq<Op>, row: nat)
    requires |st.stack| > 0
    requires var e := st.stack[|st.stack| - 1];
      && |e.rots| > 0 && |e.qubits| > 0 && Clears(mode, order, st.copy, n, e, block)
      && st'.gates == st.gates + Gates(block)
      && CofactorRow(st'.copy, e.rots, e.qubits, n, row) && st'.stack == st.stack[..|st.stack| - 1] + Children(st'.copy, e, row)
    ensures Visited(mode, order, n, st, st')
  {
    hide Clears, CofactorRow, Children;
    assert Visit(mode, order, n, st, st', block);
  }

  lemma RunStarts(mode: Mode, order: seq<nat>, n: nat, rotations: seq<Rotation>, st: State)
    requires st == State([Entry(Upto(|rotations|), Upto(n), None)], rotations, []) && Current(rotations, st)
    ensures RunOf(mode, order, n, rotations, [st])
  {
    hide Current;
  }

  lemma PhasesNext(n: nat, copy: seq<Rotation>, rots: seq<nat>, t: nat, k: nat)
    requires InRange(rots, |copy|) && k < |rots|
    ensures PhasesOn(n, copy, rots, t)[..k + 1] == PhasesOn(n, copy, rots, t)[..k] + [PhaseGate(n, copy[rots[k]].phase, t)]
  {
  }

  lemma NextCX(gates: seq<Item>, mode: Mode, ctrls: seq<nat>, t: nat, m: nat)
    requires m < |ctrls|
    ensures
      var next := if mode == Star || m + 1 == |ctrls| then t else ctrls[m + 1];
      gates + Gates(BlockCXs(mode, ctrls, t)[..m]) + [Gate(CX(ctrls[m], next))] == gates + Gates(BlockCXs(mode, ctrls, t)[..m + 1])
  {
  }

  class Synthesizer {
    const n: nat
    const rotations: seq<Rotation>
    const final: StabilizerTableau
    var copy: seq<Rotation>
    var frozen: set<nat>
    var qcir: seq<Item>
    ghost var cxs: seq<Op>
    ghost var emitted: seq<nat>

    ghost predicate Valid()
      reads this, final
    {
      && AllNormal(rotations, n) && AllDiagonal(rotations)
      && (forall j :: 0 <= j < |rotations| ==> rotations[j].p.ls != Blank(n))
      && |copy| == |rotations| && InRange(emitted, |rotations|)
      && (forall j :: j in frozen <==> j in emitted)
      && Means(n, qcir, Select(rotations, emitted), cxs)
      && final.n == n && final.rows == TableauOf(n, Reversed(cxs))
      && AllTracked(copy, rotations, n, cxs, frozen)
    }

    constructor (n: nat, rotations: seq<Rotation>)
      requires AllNormal(rotations, n) && AllDiagonal(rotations)
      requires forall j :: 0 <= j < |rotations| ==> rotations[j].p.ls != Blank(n)
      ensures Valid() && fresh(final)
      ensures this.n == n && this.rotations == rotations && copy == rotations && frozen == {} && emitted == [] && qcir == []
    {
      this.n := n;
      this.rotations := rotations;
      final := new StabilizerTableau(n);
      copy := rotations;
      frozen := {};
      qcir := [];
      cxs := [];
      emitted := [];
      new;
      MeansStart(n);
      assert Select(rotations, []) == [];
      assert Reversed<Op>([]) == [];
      ConjRowsNone(Identity(n));
      forall j | 0 <= j < |copy| ensures Tracks(n, [], rotations[j], copy[j]) {
        TracksStart(n, rotations[j]);
      }
    }

    method ApplyCX(c: nat, t: nat)
      requires Valid() && c < n && t < n && c != t
      modifies this, final
      ensures Valid() && frozen == old(frozen) && emitted == old(emitted)
      ensures MovedLive(old(copy), copy, n, c, t, frozen) && qcir == old(qcir) + [Gate(CX(c, t))]
    {
      hide Means, Tracks, ConjRotation, TableauOf, Reversed, AllNormal, AllDiagonal, Blank, AllTracked, MovedLive;
      for col := 0 to |copy|
        invariant |copy| == |old(copy)| && frozen == old(frozen) && emitted == old(emitted)
        invariant qcir == old(qcir) && cxs == old(cxs) && final.rows == old(final.rows)
        invariant forall j :: 0 <= j < col && j !in frozen ==> copy[j] == ConjRotation(CX(c, t), old(copy)[j])
        invariant forall j :: col <= j < |copy| ==> copy[j] == old(copy)[j]
      {
        if col !in frozen {
          copy := copy[col := ConjRotation(CX(c, t), copy[col])];
        }
      }
      qcir := qcir + [Gate(CX(c, t))];
      MeansCX(n, old(qcir), Select(rotations, emitted), cxs, c, t);
      MeansShape(n, old(qcir), Select(rotations, emitted), cxs);
      PrependReversed(n, cxs, c, t);
      TableauShaped(n, Reversed(cxs));
      final.PrependCXGate(c, t);
      cxs := cxs + [CX(c, t)];
      AllMoved(old(copy), copy, rotations, n, old(cxs), c, t, frozen);
    }

    /** One CX of the block: clears row c on the current entry and keeps every entry in order. */
    method Step(c: nat, next: nat, t: nat, order: seq<nat>, ghost es: seq<Entry>, ghost start: seq<Rotation>, ghost done: seq<nat>)
      requires Valid() && c < n && next < n && t < n && c != next && c != t && |order| == n
      requires order[c] < order[next] || next == t
      requires |es| > 0 && EntriesOk(copy, n, order, At(t), es) && AllLive(es, frozen, |copy|)
      requires Cleared(start, copy, es[|es| - 1].rots, n, done) && c !in done && next !in done
      requires OnesOn(start, es[|es| - 1].rots, n, c) && OnesOn(start, es[|es| - 1].rots, n, next)
      modifies this, final
      ensures Valid() && frozen == old(frozen) && emitted == old(emitted) && |copy| == |old(copy)|
      ensures EntriesOk(copy, n, order, At(t), es)
      ensures Cleared(start, copy, es[|es| - 1].rots, n, done + [c])
      ensures qcir == old(qcir) + [Gate(CX(c, next))]
    {
      assert Live(es[|es| - 1], frozen, |copy|);
      ApplyCX(c, next);
      EntriesOkCX(old(copy), copy, n, order, t, es, frozen, c, next);
      ClearedStep(start, old(copy), copy, es[|es| - 1].rots, n, done, c, next, frozen);
    }

    /** All CX go from a control row to the target. */
    method ApplyStar(ctrls: seq<nat>, t: nat, order: seq<nat>, ghost es: seq<Entry>)
      requires Valid() && t < n && |order| == n && InRange(ctrls, n) && t !in ctrls && Distinct(ctrls)
      requires |es| > 0 && EntriesOk(copy, n, order, At(t), es) && AllLive(es, frozen, |copy|)
      requires Cleared(copy, copy, es[|es| - 1].rots, n, [])
      requires OnesOn(copy, es[|es| - 1].rots, n, t)
      requires AllOnesOn(copy, es[|es| - 1].rots, n, ctrls)
      modifies this, final
      ensures Valid() && frozen == old(frozen) && emitted == old(emitted) && |copy| == |old(copy)|
      ensures EntriesOk(copy, n, order, At(t), es)
      ensures Cleared(old(copy), copy, es[|es| - 1].rots, n, ctrls)
      ensures qcir == old(qcir) + Gates(BlockCXs(Star, ctrls, t))
    {
      hide BlockCXs, Cleared, EntriesOk, AllLive, Valid;
      TakeEnds(ctrls);
      for m := 0 to |ctrls|
        invariant Valid() && frozen == old(frozen) && emitted == old(emitted) && |copy| == |old(copy)|
        invariant EntriesOk(copy, n, order, At(t), es)
        invariant Cleared(old(copy), copy, es[|es| - 1].rots, n, ctrls[..m])
        invariant qcir == old(qcir) + Gates(BlockCXs(Star, ctrls, t)[..m])
      {
        NotBefore(ctrls, m, t);
        Step(ctrls[m], t, t, order, es, old(copy), ctrls[..m]);
        TakeNext(ctrls, m);
        NextCX(old(qcir), Star, ctrls, t, m);
      }
      assert BlockCXs(Star, ctrls, t)[..|ctrls|] == BlockCXs(Star, ctrls, t);
    }

    /** The CX climb the ladder of ordered control rows, the last one going to the target. */
    method ApplyStaircase(ctrls: seq<nat>, t: nat, order: seq<nat>, ghost es: seq<Entry>)
      requires Valid() && t < n && |order| == n && OrderedBy(ctrls, order) && t !in ctrls
      requires |es| > 0 && EntriesOk(copy, n, order, At(t), es) && AllLive(es, frozen, |copy|)
      requires Cleared(copy, copy, es[|es| - 1].rots, n, [])
      requires OnesOn(copy, es[|es| - 1].rots, n, t)
      requires AllOnesOn(copy, es[|es| - 1].rots, n, ctrls)
      modifies this, final
      ensures Valid() && frozen == old(frozen) && emitted == old(emitted) && |copy| == |old(copy)|
      ensures EntriesOk(copy, n, order, At(t), es)
      ensures Cleared(old(copy), copy, es[|es| - 1].rots, n, ctrls)
      ensures qcir == old(qcir) + Gates(BlockCXs(Staircase, ctrls, t))
    {
      hide BlockCXs, Cleared, EntriesOk, AllLive, Valid;
      TakeEnds(ctrls);
      for m := 0 to |ctrls|
        invariant Valid() && frozen == old(frozen) && emitted == old(emitted) && |copy| == |old(copy)|
        invariant EntriesOk(copy, n, order, At(t), es)
        invariant Cleared(old(copy), copy, es[|es| - 1].rots, n, ctrls[..m])
        invariant qcir == old(qcir) + Gates(BlockCXs(Staircase, ctrls, t)[..m])
      {
        var next := if m + 1 < |ctrls| then ctrls[m + 1] else t;
        NextInLadder(ctrls, order, m, t);
        Step(ctrls[m], next, t, order, es, old(copy), ctrls[..m]);
        TakeNext(ctrls, m);
        NextCX(old(qcir), Staircase, ctrls, t, m);
      }
      assert BlockCXs(Staircase, ctrls, t)[..|ctrls|] == BlockCXs(Staircase, ctrls, t);
    }

    /** Applies the CX block of an entry with target t; afterwards its control rows are clear. */
    method ApplyControls(e: Entry, t: nat, mode: Mode, order: seq<nat>, ghost rest: seq<Entry>) returns (ghost ctrls: seq<nat>, ghost block: seq<Op>)
      requires Valid() && |order| == n && Distinct(order) && e.targ == At(t)
      requires EntriesOk(copy, n, order, At(t), rest + [e]) && AllLive(rest + [e], frozen, |copy|)
      modifies this, final
      ensures Valid() && frozen == old(frozen) && emitted == old(emitted) && |copy| == |old(copy)|
      ensures EntriesOk(copy, n, order, At(t), rest + [e])
      ensures Filter(old(copy), e.rots, n) && t < n
      ensures Cleared(old(copy), copy, e.rots, n, ctrls)
      ensures forall i: nat :: i in ctrls <==> i < n && i != t && AllOnes(old(copy), e.rots, n, i)
      ensures Clears(mode, order, old(copy), n, e, block) && qcir == old(qcir) + Gates(block)
    {
      ghost var es := rest + [e];
      assert es[|es| - 1] == e;
      EntryFilter(copy, rotations, n, order, At(t), e, cxs, frozen) by {
        assert EntryOk(copy, n, order, At(t), es[|es| - 1]);
        assert Live(es[|es| - 1], frozen, |copy|);
      }
      var rows := GetControlRows(copy, e.rots, t, n);
      ctrls := rows;
      ControlsReady(copy, n, order, t, e, rows);
      if mode == Star {
        ClearsInMode(mode, order, copy, n, e, t, rows, rows);
        block := BlockCXs(mode, rows, t);
        ApplyStar(rows, t, order, es);
      } else {
        var sorted := SortByOrder(rows, order);
        SameControls(copy, e.rots, n, rows, sorted);
        ClearsInMode(mode, order, copy, n, e, t, rows, sorted);
        block := BlockCXs(mode, sorted, t);
        ghost var before := copy;
        ApplyStaircase(sorted, t, order, es);
        ClearedSame(before, copy, e.rots, n, sorted, rows);
      }
    }

    /** Emits the rotations of a leaf, each one once. */
    method Emit(rots: seq<nat>, t: nat, ghost rest: seq<nat>)
      requires Valid() && t < n
      requires forall x :: x in rots ==> x < |copy| && copy[x].p.ls == ZLetters(n, t)
      requires Partition(rest + rots, emitted, |copy|)
      modifies this
      ensures Valid() && copy == old(copy)
      ensures Partition(rest, emitted, |copy|)
      ensures InRange(rots, |copy|) && qcir == old(qcir) + PhasesOn(n, copy, rots, t)
    {
      hide Valid, PhasesOn, Partition, ZLetters, PhaseGate;
      assert rots[0..] == rots;
      assert InRange(rots, |copy|) by { assert forall k :: 0 <= k < |rots| ==> rots[k] in rots; }
      for k := 0 to |rots|
        invariant Valid() && copy == old(copy)
        invariant Partition(rest + rots[k..], emitted, |copy|)
        invariant qcir == old(qcir) + PhasesOn(n, copy, rots, t)[..k]
      {
        PhasesNext(n, copy, rots, t, k);
        NextPending(rest, rots, k, emitted, |copy|);
        EmitOne(rots[k], t);
      }
      assert rest + rots[|rots|..] == rest;
      assert PhasesOn(n, copy, rots, t)[..|rots|] == PhasesOn(n, copy, rots, t);
    }

    /** Emits one rotation, unless it is frozen, and freezes it. */
    method EmitOne(col: nat, t: nat)
      requires Valid() && t < n && col < |copy| && copy[col].p.ls == ZLetters(n, t) && col !in emitted
      modifies `frozen, `qcir, `emitted
      ensures Valid() && emitted == old(emitted) + [col]
      ensures qcir == old(qcir) + [PhaseGate(n, copy[col].phase, t)]
    {
      hide Means, Tracks, TableauOf, Reversed, AllNormal, AllDiagonal;
      if col !in frozen {
        frozen := frozen + {col};
        assert Tracks(n, cxs, rotations[col], copy[col]);
        MeansPhase(n, qcir, Select(rotations, emitted), cxs, rotations[col], copy[col], t);
        qcir := qcir + [PhaseGate(n, copy[col].phase, t)];
        assert Select(rotations, emitted + [col]) == Select(rotations, emitted) + [rotations[col]];
        emitted := emitted + [col];
      }
    }

    /** Handles a leaf: clears its control rows and emits its rotations. */
    method Leaf(e: Entry, mode: Mode, order: seq<nat>, ghost T: Target, ghost rest: seq<Entry>) returns (ghost block: seq<Op>)
      requires Valid() && |order| == n && Distinct(order) && e.qubits == [] && |e.rots| > 0
      requires EntriesOk(copy, n, order, T, rest + [e]) && AllLive(rest + [e], frozen, |copy|)
      requires Partition(Flatten(rest + [e]), emitted, |copy|)
      modifies this, final
      ensures Valid() && |copy| == |old(copy)|
      ensures EntriesOk(copy, n, order, T, rest)
      ensures Partition(Flatten(rest), emitted, |copy|)
      ensures Clears(mode, order, old(copy), n, e, block) && e.targ.At? && InRange(e.rots, |copy|)
      ensures qcir == old(qcir) + Gates(block) + PhasesOn(n, copy, e.rots, e.targ.q)
    {
      hide Clears, PhasesOn;
      ghost var es := rest + [e];
      assert es[|rest|] == e;
      assert EntryOk(copy, n, order, T, es[|rest|]) && Live(es[|rest|], frozen, |copy|);
      if e.targ.At? {
        var t := e.targ.q;
        ghost var before := copy;
        ghost var ctrls;
        ctrls, block := ApplyControls(e, t, mode, order, rest);
        assert EntryOk(copy, n, order, T, es[|rest|]);
        EntryFilter(copy, rotations, n, order, T, e, cxs, frozen);
        forall x | x in e.rots ensures x < |copy| && copy[x].p.ls == ZLetters(n, t) {
          LeafIsTarget(before, copy, n, order, t, e, ctrls, x);
        }
        FlattenPush(rest, e);
        Emit(e.rots, t, Flatten(rest));
      } else {
        EntryFilter(copy, rotations, n, order, T, e, cxs, frozen);
        ghost var x := e.rots[0];
        assert Tracks(n, cxs, rotations[x], copy[x]);
        TracksNonblank(n, cxs, rotations[x], copy[x]);
        NoTargetLeafBlank(copy, n, order, T, e, x);
        assert false;
      }
      forall k | 0 <= k < |rest| ensures EntryOk(copy, n, order, T, rest[k]) {
        assert EntryOk(copy, n, order, T, es[k]);
      }
    }

    /** Applies the controls of an inner entry and splits it on its cofactor row. */
    method Branch(e: Entry, mode: Mode, order: seq<nat>, ghost T: Target, ghost rest: seq<Entry>)
      returns (zero: Entry, one: Entry, ghost T': Target, ghost block: seq<Op>, ghost row: nat)
      requires Valid() && |order| == n && Distinct(order) && |e.qubits| > 0
      requires EntriesOk(copy, n, order, T, rest + [e]) && AllLive(rest + [e], frozen, |copy|)
      requires TargetsAbove(rest + [e], T)
      modifies this, final
      ensures Valid() && |copy| == |old(copy)| && frozen == old(frozen) && emitted == old(emitted)
      ensures EntriesOk(copy, n, order, T', rest + [zero] + [one]) && TargetsAbove(rest + [zero] + [one], T')
      ensures |zero.qubits| == |one.qubits| < |e.qubits|
      ensures multiset(zero.rots) + multiset(one.rots) == multiset(e.rots)
      ensures Clears(mode, order, old(copy), n, e, block) && qcir == old(qcir) + Gates(block)
      ensures CofactorRow(copy, e.rots, e.qubits, n, row) && [zero, one] == Children(copy, e, row)
    {
      hide Clears, CofactorRow, WithBit, Minus;
      block := [];
      NoClears(mode, order, copy, n, e);
      ghost var es := rest + [e];
      assert es[|rest|] == e;
      if e.targ.At? {
        assert EntryOk(copy, n, order, T, es[|rest|]);
        ghost var ctrls;
        ctrls, block := ApplyControls(e, e.targ.q, mode, order, rest);
      }
      assert EntryOk(copy, n, order, T, es[|rest|]) && Live(es[|rest|], frozen, |copy|);
      EntryFilter(copy, rotations, n, order, T, e, cxs, frozen);
      QubitsInRange(copy, n, order, T, e);
      var rowId := GetCofactorRow(copy, e.rots, e.qubits, n);
      row := rowId;
      var zeros, ones := Split(copy, e.rots, rowId, n);
      var left := Without(e.qubits, rowId);
      zero := Entry(zeros, left, e.targ);
      one := Entry(ones, left, if e.targ.None? then At(rowId) else e.targ);
      T' := if e.targ.None? then At(rowId) else T;
      SplitOk(copy, n, order, T, rest, e, zero, one, rowId);
    }

    /** Handles the top entry of the stack. */
    method Pop(stack: seq<Entry>, mode: Mode, order: seq<nat>, ghost T: Target) returns (stack': seq<Entry>, ghost T': Target)
      requires Valid() && |order| == n && Distinct(order) && |stack| > 0
      requires EntriesOk(copy, n, order, T, stack) && TargetsAbove(stack, T)
      requires Partition(Flatten(stack), emitted, |copy|)
      modifies this, final
      ensures Valid() && |copy| == |old(copy)|
      ensures EntriesOk(copy, n, order, T', stack') && TargetsAbove(stack', T')
      ensures Partition(Flatten(stack'), emitted, |copy|)
      ensures Work(stack') < Work(stack)
      ensures Visited(mode, order, n, State(stack, old(copy), old(qcir)), State(stack', copy, qcir))
    {
      hide Clears, CofactorRow, WithBit, Minus, Children, PhasesOn, Visit, EntriesOk, TargetsAbove, Partition, AllLive, Work, Weight;
      hide Means, Tracks, TableauOf, Reversed, AllTracked, EntryOk, Flatten, AllNormal, AllDiagonal;
      var k := |stack| - 1;
      var e, rest := stack[k], stack[..k];
      assert stack == rest + [e];
      LiveFromPartition(stack, emitted, frozen, |copy|);
      PopOk(copy, n, order, T, rest, e, emitted);
      T' := T;
      ghost var st := State(stack, copy, qcir);
      ghost var block: seq<Op> := [];
      if |e.rots| == 0 {
        stack' := rest;
        assert Flatten(rest) + e.rots == Flatten(rest);
        EmptyVisited(mode, order, n, st, State(rest, copy, qcir));
      } else if |e.qubits| == 0 {
        block := Leaf(e, mode, order, T, rest);
        stack' := rest;
        LeafVisited(mode, order, n, st, State(rest, copy, qcir), block);
      } else {
        var zero, one;
        ghost var row;
        zero, one, T', block, row := Branch(e, mode, order, T, rest);
        PushTwo(rest, e, zero, one, emitted, |copy|);
        stack' := rest + [zero] + [one];
        assert stack' == rest + [zero, one];
        BranchVisited(mode, order, n, st, State(stack', copy, qcir), block, row);
      }
    }

    /** What waits is as the CX so far have made it. */
    lemma IsCurrent(stack: seq<Entry>)
      requires Valid() && Partition(Flatten(stack), emitted, |copy|)
      ensures Current(rotations, State(stack, copy, qcir))
    {
      forall x | x in Flatten(stack)
        ensures x < |rotations| && x < |copy|
        ensures copy[x].p == ConjAll(OpsIn(qcir), rotations[x].p) && copy[x].phase == rotations[x].phase
      {
        Pending(Flatten(stack), emitted, |copy|, x);
        assert Tracks(n, cxs, rotations[x], copy[x]);
      }
    }

    /** Works off the stack until every rotation is emitted. */
    method Run(mode: Mode, order: seq<nat>) returns (ghost states: seq<State>)
      requires Valid() && |order| == n && Distinct(order)
      requires copy == rotations && frozen == {} && emitted == [] && qcir == []
      modifies this, final
      ensures Valid() && multiset(emitted) == multiset(Upto(|rotations|))
      ensures RunOf(mode, order, n, rotations, states) && states[|states| - 1].stack == [] && states[|states| - 1].gates == qcir
    {
      hide RunOf, Current, Visited, Distinct, AllTracked, Means;
      var stack := [Entry(Upto(|copy|), Upto(n), None)];
      ghost var T := None;
      StartOk(copy, n, order);
      IsCurrent(stack);
      states := [State(stack, copy, qcir)];
      RunStarts(mode, order, n, rotations, states[0]);
      while |stack| > 0
        invariant Valid() && |copy| == |rotations|
        invariant EntriesOk(copy, n, order, T, stack) && TargetsAbove(stack, T)
        invariant Partition(Flatten(stack), emitted, |copy|)
        invariant RunOf(mode, order, n, rotations, states) && |states| > 0 && states[|states| - 1] == State(stack, copy, qcir)
        decreases Work(stack)
      {
        stack, T := Pop(stack, mode, order, T);
        IsCurrent(stack);
        RunGoesOn(mode, order, n, rotations, states, State(stack, copy, qcir));
        states := states + [State(stack, copy, qcir)];
      }
      assert Flatten([]) == [];
    }
  }

  lemma QubitsInRange(copy: seq<Rotation>, n: nat, order: seq<nat>, T: Target, e: Entry)
    requires |order| == n && EntryOk(copy, n, order, T, e)
    ensures InRange(e.qubits, n)
  {
    forall k | 0 <= k < |e.qubits| ensures e.qubits[k] < n {
      assert e.qubits[k] in e.qubits;
    }
  }

  lemma StartOk(copy: seq<Rotation>, n: nat, order: seq<nat>)
    requires |order| == n && AllNormal(copy, n)
    ensures var stack := [Entry(Upto(|copy|), Upto(n), None)];
            EntriesOk(copy, n, order, None, stack) && TargetsAbove(stack, None) && Partition(Flatten(stack), [], |copy|)
  {
    hide EntryOk, Upto, Flatten;
    var e := Entry(Upto(|copy|), Upto(n), None);
    FlattenPush([], e);
    FlattenNone();
    assert [] + [e] == [e] && [] + e.rots == e.rots;
    FirstEntryOk(copy, n, order);
  }

  lemma FlattenNone()
    ensures Flatten([]) == []
  {
  }

  /** On all qubits nothing is left to depend on the others. */
  lemma FirstEntryOk(copy: seq<Rotation>, n: nat, order: seq<nat>)
    requires |order| == n && AllNormal(copy, n)
    ensures EntryOk(copy, n, order, None, Entry(Upto(|copy|), Upto(n), None))
  {
    hide Upto, PairDepends;
    var e := Entry(Upto(|copy|), Upto(n), None);
    forall v: seq<Letter>, w: seq<Letter> | InEntry(copy, n, e, v) && InEntry(copy, n, e, w)
      ensures |v| == |w| == n && PairDepends(v, w, e.qubits, order)
    {
      NoneDepends(v, w, n, order);
    }
  }

  lemma NoneDepends(v: seq<Letter>, w: seq<Letter>, n: nat, order: seq<nat>)
    requires |v| == |w| == |order| == n
    ensures PairDepends(v, w, Upto(n), order)
  {
    forall i | 0 <= i < n ensures i in Upto(n) {
      assert Upto(n)[i] == i;
    }
  }

  lemma PopOk(copy: seq<Rotation>, n: nat, order: seq<nat>, T: Target, rest: seq<Entry>, e: Entry, emitted: seq<nat>)
    requires |order| == n && EntriesOk(copy, n, order, T, rest + [e]) && TargetsAbove(rest + [e], T)
    ensures EntriesOk(copy, n, order, T, rest) && TargetsAbove(rest, T)
    ensures Flatten(rest + [e]) == Flatten(rest) + e.rots
    ensures Work(rest + [e]) == Work(rest) + Weight(|e.qubits|) > Work(rest)
  {
    FlattenPush(rest, e);
    WorkPush(rest, e);
    WeightMonotone(0, |e.qubits|);
    forall k | 0 <= k < |rest| ensures EntryOk(copy, n, order, T, rest[k]) && (k >= 1 ==> rest[k].targ == T && T.At?) {
      assert (rest + [e])[k] == rest[k];
    }
  }

  lemma PushTwo(rest: seq<Entry>, e: Entry, zero: Entry, one: Entry, emitted: seq<nat>, m: nat)
    requires |zero.qubits| == |one.qubits| < |e.qubits|
    requires multiset(zero.rots) + multiset(one.rots) == multiset(e.rots)
    requires Partition(Flatten(rest) + e.rots, emitted, m)
    ensures Partition(Flatten(rest + [zero] + [one]), emitted, m)
    ensures Work(rest + [zero] + [one]) < Work(rest) + Weight(|e.qubits|)
  {
    FlattenPush(rest, zero);
    FlattenPush(rest + [zero], one);
    WorkPush(rest, zero);
    WorkPush(rest + [zero], one);
    WeightMonotone(|zero.qubits|, |e.qubits| - 1);
  }

  /**
   Compiles a list of diagonal rotations, none about the identity, to CX and phase gates
   with the same meaning; any other list is rejected.
   */
  method Synthesize(n: nat, rotations: seq<Rotation>, mode: Mode, order: seq<nat>) returns (r: Outcome)
    requires AllNormal(rotations, n) && |rotations| > 0
    requires forall j :: 0 <= j < |rotations| ==> rotations[j].p.ls != Blank(n)
    requires |order| == n && Distinct(order)
    ensures r.Rejected? <==> !AllDiagonal(rotations)
    ensures r.Circuit? ==> Equivalent(n, Rots(rotations), r.gates)
    ensures r.Circuit? ==> BySplitting(mode, order, n, rotations, r.gates)
    ensures r.Circuit? ==> RotationsIn(r.gates) == |rotations| && HCount(OpsIn(r.gates)) == 0
  {
    if !AllDiagonal(rotations) {
      return Rejected;
    }
    var s := new Synthesizer(n, rotations);
    ghost var states := s.Run(mode, order);
    hide RunOf, Equivalent, BySplitting, AllNormal, AllDiagonal;
    var gates := Finish(n, s.qcir, s.final, Select(rotations, s.emitted), s.cxs);
    OrderIrrelevant(n, rotations, Upto(|rotations|), s.emitted);
    SelectAll(rotations);
    SameLength(s.emitted, Upto(|rotations|));
    EquivalentSymmetric(n, gates, Rots(Select(rotations, s.emitted)));
    EquivalentTransitive(n, Rots(rotations), Rots(Select(rotations, s.emitted)), gates);
    RunSplits(mode, order, n, rotations, states, gates);
    r := Circuit(gates);
  }

  lemma RunSplits(mode: Mode, order: seq<nat>, n: nat, rotations: seq<Rotation>, states: seq<State>, gates: seq<Item>)
    requires |states| > 0 && RunOf(mode, order, n, rotations, states)
    requires states[|states| - 1].stack == [] && states[|states| - 1].gates <= gates
    ensures BySplitting(mode, order, n, rotations, gates)
  {
    hide RunOf;
  }

  lemma NextPending(rest: seq<nat>, rots: seq<nat>, k: nat, emitted: seq<nat>, m: nat)
    requires k < |rots| && Partition(rest + rots[k..], emitted, m)
    ensures rots[k] < m && rots[k] !in emitted
    ensures Partition(rest + rots[k + 1..], emitted + [rots[k]], m)
  {
    assert rots[k..] == [rots[k]] + rots[k + 1..];
    Pending(rest + rots[k..], emitted, m, rots[k]);
    assert multiset(rest + rots[k..]) == multiset(rest + rots[k + 1..]) + multiset{rots[k]};
    assert multiset(emitted + [rots[k]]) == multiset(emitted) + multiset{rots[k]};
  }

  /** Live rotations of an entry have n letters and no x. */
  lemma EntryFilter(copy: seq<Rotation>, rotations: seq<Rotation>, n: nat, order: seq<nat>, T: Target, e: Entry, cxs: seq<Op>, frozen: set<nat>)
    requires |order| == n && |copy| == |rotations|
    requires EntryOk(copy, n, order, T, e) && Live(e, frozen, |copy|)
    requires AllTracked(copy, rotations, n, cxs, frozen)
    ensures Filter(copy, e.rots, n)
    ensures forall x :: x in e.rots ==> x < |copy| && |copy[x].p.ls| == n && Diagonal(copy[x].p)
    ensures Cleared(copy, copy, e.rots, n, [])
  {
    forall x | x in e.rots ensures x < |copy| && |copy[x].p.ls| == n && Diagonal(copy[x].p) {
      assert Tracks(n, cxs, rotations[x], copy[x]);
    }
    forall k | 0 <= k < |e.rots| ensures e.rots[k] < |copy| && |copy[e.rots[k]].p.ls| == n {
      assert e.rots[k] in e.rots;
    }
  }

  lemma ControlsReady(copy: seq<Rotation>, n: nat, order: seq<nat>, t: nat, e: Entry, rows: seq<nat>)
    requires |order| == n && EntryOk(copy, n, order, At(t), e) && e.targ == At(t)
    requires Filter(copy, e.rots, n)
    requires forall i: nat :: i in rows <==> i < n && i != t && AllOnes(copy, e.rots, n, i)
    ensures t < n && t !in rows && InRange(rows, n)
    ensures OnesOn(copy, e.rots, n, t) && AllOnesOn(copy, e.rots, n, rows)
  {
    forall x | x in e.rots && x < |copy| && |copy[x].p.ls| == n ensures copy[x].p.ls[t].z {
      assert InEntry(copy, n, e, copy[x].p.ls);
    }
    forall k | 0 <= k < |rows| ensures rows[k] < n && OnesOn(copy, e.rots, n, rows[k]) {
      assert rows[k] in rows;
    }
  }

  lemma SameControls(copy: seq<Rotation>, rots: seq<nat>, n: nat, rows: seq<nat>, sorted: seq<nat>)
    requires InRange(rows, n) && AllOnesOn(copy, rots, n, rows)
    requires forall q :: q in sorted <==> q in rows
    ensures InRange(sorted, n) && AllOnesOn(copy, rots, n, sorted)
  {
    forall k | 0 <= k < |sorted| ensures sorted[k] < n && OnesOn(copy, rots, n, sorted[k]) {
      assert sorted[k] in rows;
    }
  }

  lemma ClearedSame(before: seq<Rotation>, now: seq<Rotation>, rots: seq<nat>, n: nat, a: seq<nat>, b: seq<nat>)
    requires Cleared(before, now, rots, n, a)
    requires forall q :: q in a <==> q in b
    ensures Cleared(before, now, rots, n, b)
  {
  }

  /** At a leaf every rotation of the entry is Z on the target. */
  lemma LeafIsTarget(before: seq<Rotation>, copy: seq<Rotation>, n: nat, order: seq<nat>, t: nat, e: Entry, ctrls: seq<nat>, x: nat)
    requires |order| == n && e.targ == At(t) && e.qubits == [] && x in e.rots && x < |copy|
    requires EntryOk(copy, n, order, At(t), e)
    requires Filter(before, e.rots, n) && Cleared(before, copy, e.rots, n, ctrls)
    requires forall i: nat :: i in ctrls <==> i < n && i != t && AllOnes(before, e.rots, n, i)
    requires Diagonal(copy[x].p)
    ensures copy[x].p.ls == ZLetters(n, t)
  {
    var v := copy[x].p.ls;
    assert InEntry(copy, n, e, v);
    forall i | 0 <= i < n ensures v[i] == if i == t then LZ else LI {
      if i != t && i !in ctrls {
        assert !AllOnes(before, e.rots, n, i);
        var k :| 0 <= k < |e.rots| && !before[e.rots[k]].p.ls[i].z;
        assert e.rots[k] in e.rots;
        var w := copy[e.rots[k]].p.ls;
        assert InEntry(copy, n, e, w);
        assert AgreeAbove(v, w, e.qubits, order, i);
      }
    }
  }

  /** The rotations of an entry without a target and without remaining qubits are about the identity. */
  lemma NoTargetLeafBlank(copy: seq<Rotation>, n: nat, order: seq<nat>, T: Target, e: Entry, x: nat)
    requires |order| == n && EntryOk(copy, n, order, T, e)
    requires e.targ.None? && e.qubits == []
    requires x in e.rots && x < |copy| && Diagonal(copy[x].p)
    ensures copy[x].p.ls == Blank(n)
  {
    var v, w := copy[x].p.ls, Blank(n);
    assert InEntry(copy, n, e, v) && InEntry(copy, n, e, w);
    forall i | 0 <= i < n ensures v[i] == w[i] {
      assert AgreeAbove(v, w, e.qubits, order, i);
    }
  }

  // ---------- splitting an entry ----------

  lemma ChildOk(copy: seq<Rotation>, n: nat, order: seq<nat>, T: Target, T': Target, e: Entry, child: Entry, r: nat, bit: bool)
    requires |order| == n && EntryOk(copy, n, order, T, e) && r in e.qubits && r < n
    requires forall x :: x in child.rots ==> x in e.rots && x < |copy| && |copy[x].p.ls| == n && copy[x].p.ls[r].z == bit
    requires forall q :: q in child.qubits <==> q in e.qubits && q != r
    requires if e.targ.None? then child.targ == (if bit then At(r) else None) && T' == At(r)
             else child.targ == e.targ && T' == T
    ensures EntryOk(copy, n, order, T', child)
  {
    forall v: seq<Letter> | InEntry(copy, n, child, v) ensures InEntry(copy, n, e, v) && |v| == n && v[r].z == bit {
    }
    forall v: seq<Letter>, w: seq<Letter> | InEntry(copy, n, child, v) && InEntry(copy, n, child, w)
      ensures |v| == |w| == n && PairDepends(v, w, child.qubits, order)
    {
      assert InEntry(copy, n, e, v) && InEntry(copy, n, e, w);
      forall i | 0 <= i < n && i !in child.qubits && AgreeAbove(v, w, child.qubits, order, i) ensures v[i].z == w[i].z {
        if i != r {
          assert AgreeAbove(v, w, e.qubits, order, i);
        }
      }
    }
  }

  /** Only the bottom entry may lack a target. */
  predicate TargetsAbove(stack: seq<Entry>, T: Target) {
    forall k :: 1 <= k < |stack| ==> stack[k].targ == T && T.At?
  }

  lemma SplitOk(copy: seq<Rotation>, n: nat, order: seq<nat>, T: Target, rest: seq<Entry>, e: Entry, zero: Entry, one: Entry, r: nat)
    requires |order| == n && EntriesOk(copy, n, order, T, rest + [e]) && TargetsAbove(rest + [e], T)
    requires r in e.qubits && r < n
    requires forall x :: x in zero.rots ==> x in e.rots && x < |copy| && |copy[x].p.ls| == n && !copy[x].p.ls[r].z
    requires forall x :: x in one.rots ==> x in e.rots && x < |copy| && |copy[x].p.ls| == n && copy[x].p.ls[r].z
    requires zero.qubits == one.qubits && forall q :: q in zero.qubits <==> q in e.qubits && q != r
    requires zero.targ == e.targ && one.targ == if e.targ.None? then At(r) else e.targ
    ensures var T' := if e.targ.None? then At(r) else T;
            EntriesOk(copy, n, order, T', rest + [zero] + [one]) && TargetsAbove(rest + [zero] + [one], T')
  {
    var T' := if e.targ.None? then At(r) else T;
    var es, es' := rest + [e], rest + [zero] + [one];
    assert es[|rest|] == e;
    assert EntryOk(copy, n, order, T, es[|rest|]);
    ChildOk(copy, n, order, T, T', e, zero, r, false);
    ChildOk(copy, n, order, T, T', e, one, r, true);
    if e.targ.None? { assert |rest| == 0; }
    forall k | 0 <= k < |es'| ensures EntryOk(copy, n, order, T', es'[k]) && (k >= 1 ==> es'[k].targ == T' && T'.At?) {
      if k < |rest| {
        assert es'[k] == es[k];
        assert EntryOk(copy, n, order, T, es[k]);
      }
    }
  }

  lemma LiveFromPartition(stack: seq<Entry>, emitted: seq<nat>, frozen: set<nat>, m: nat)
    requires Partition(Flatten(stack), emitted, m)
    requires forall j :: j in frozen <==> j in emitted
    ensures AllLive(stack, frozen, m)
  {
    forall k | 0 <= k < |stack| ensures Live(stack[k], frozen, m) {
      forall x | x in stack[k].rots ensures x < m && x !in frozen {
        InFlatten(stack, k, x);
        Pending(Flatten(stack), emitted, m, x);
      }
    }
  }
  lemma NextInLadder(ctrls: seq<nat>, order: seq<nat>, m: nat, t: nat)
    requires OrderedBy(ctrls, order) && m < |ctrls| && t !in ctrls
    ensures ctrls[m] !in ctrls[..m] && ctrls[m] != t
    ensures t !in ctrls[..m]
    ensures m + 1 < |ctrls| ==> ctrls[m + 1] !in ctrls[..m] && ctrls[m + 1] != ctrls[m]
  {
    assert ctrls[m] in ctrls;
  }
}
