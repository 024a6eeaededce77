/**
 What the CX along a tree do to diagonal rotations: every vertex takes up the parity of its
 predecessor, and the number of ones changes by exactly the weight of the tree.
 */
module ParityTrees {
  import opened Sequences
  import opened PauliAlgebra
  import opened CliffordOps
  import opened ProgramSemantics
  import opened PauliRotations
  import opened DiagonalCircuits

  function Support(p: Pauli): set<nat> {
    set i | 0 <= i < |p.ls| && p.ls[i].z
  }

  function HammingWeight(p: Pauli): nat { |Support(p)| }

  /** The ones of all rotations. */
  function Ones(rs: seq<Rotation>): nat {
    if |rs| == 0 then 0 else Ones(rs[..|rs| - 1]) + HammingWeight(rs[|rs| - 1].p)
  }

  predicate HasOne(p: Pauli, i: nat) { i < |p.ls| && p.ls[i].z }

  /** The ones on qubit i. */
  function ColumnWeight(rs: seq<Rotation>, i: nat): nat {
    if |rs| == 0 then 0 else ColumnWeight(rs[..|rs| - 1], i) + if HasOne(rs[|rs| - 1].p, i) then 1 else 0
  }

  /** The rotations in which qubits i and j differ. */
  function Distance(rs: seq<Rotation>, i: nat, j: nat): nat {
    if |rs| == 0 then 0
    else Distance(rs[..|rs| - 1], i, j) + if HasOne(rs[|rs| - 1].p, i) != HasOne(rs[|rs| - 1].p, j) then 1 else 0
  }

  /** The weight of the edge from i to j, that is of a CX from j to i. */
  function EdgeWeight(rs: seq<Rotation>, i: nat, j: nat): int { Distance(rs, i, j) - ColumnWeight(rs, j) - 1 }

  /** The weight of the edges into the listed vertices from the m-th on. */
  function TreeWeight(rs: seq<Rotation>, pred: map<nat, nat>, order: seq<nat>, m: nat): int
    decreases |order| - m
  {
    if m >= |order| then 0
    else TreeWeight(rs, pred, order, m + 1) + if order[m] in pred then EdgeWeight(rs, pred[order[m]], order[m]) else 0
  }

  /** A CX from every vertex from the m-th on to its predecessor, the last vertex first. */
  function TreeCXs(pred: map<nat, nat>, order: seq<nat>, m: nat): seq<Item>
    decreases |order| - m
  {
    if m >= |order| then []
    else TreeCXs(pred, order, m + 1) + if order[m] in pred then [Gate(CX(order[m], pred[order[m]]))] else []
  }

  /** Every vertex from the m-th on has taken up the parity of its predecessor as it was at the beginning. */
  predicate Moved(pred: map<nat, nat>, order: seq<nat>, m: nat, r: Rotation, r': Rotation)
    requires m <= |order|
  {
    && |r'.p.ls| == |r.p.ls| && !r'.p.neg && r'.phase == r.phase
    && forall i :: 0 <= i < |r.p.ls| ==>
         r'.p.ls[i] == Letter(HasOne(r.p, i) != (i in order[m..] && i in pred && HasOne(r.p, pred[i])), false)
  }

  predicate AllMoved(pred: map<nat, nat>, order: seq<nat>, m: nat, rs: seq<Rotation>, rs': seq<Rotation>)
    requires m <= |order|
  {
    |rs'| == |rs| && forall k :: 0 <= k < |rs| ==> Moved(pred, order, m, rs[k], rs'[k])
  }

  predicate DiagonalOn(rs: seq<Rotation>, n: nat) { forall k :: 0 <= k < |rs| ==> |rs[k].p.ls| == n && Diagonal(rs[k].p) }

  /** Every rotation has been conjugated by the CX. */
  predicate AfterCX(rs: seq<Rotation>, c: nat, t: nat, rs': seq<Rotation>) {
    |rs'| == |rs| && forall k :: 0 <= k < |rs| ==> rs'[k] == ConjRotation(CX(c, t), rs[k])
  }

  lemma NothingMoved(pred: map<nat, nat>, order: seq<nat>, rs: seq<Rotation>, n: nat)
    requires DiagonalOn(rs, n)
    ensures AllMoved(pred, order, |order|, rs, rs)
  {
    forall k | 0 <= k < |rs| ensures Moved(pred, order, |order|, rs[k], rs[k]) {
      var p := rs[k].p;
      assert forall i :: 0 <= i < |p.ls| ==> p.ls[i] == Letter(p.ls[i].z, false);
    }
  }

  lemma SupportUpdate(p: Pauli, c: nat, z: bool)
    requires c < |p.ls|
    ensures var p' := Pauli(p.ls[c := Letter(z, false)], false);
      HammingWeight(p') == HammingWeight(p) + (if z then 1 else 0) - if p.ls[c].z then 1 else 0
  {
    var p' := Pauli(p.ls[c := Letter(z, false)], false);
    WithOrWithout(Support(p), c);
    if z {
      assert Support(p') == Support(p) + {c};
    } else {
      assert Support(p') == Support(p) - {c};
    }
  }

  lemma WithOrWithout(s: set<nat>, c: nat)
    ensures |s + {c}| == |s| + (if c in s then 0 else 1) && |s - {c}| == |s| - if c in s then 1 else 0
  {
    if c in s {
      assert s + {c} == s;
    } else {
      assert s - {c} == s;
    }
  }

  /** A CX changes the ones by the distance of its qubits less the ones of its control. */
  lemma {:induction false} OnesAfterCX(rs: seq<Rotation>, c: nat, t: nat, rs': seq<Rotation>, n: nat)
    requires DiagonalOn(rs, n) && c < n && t < n && c != t && AfterCX(rs, c, t, rs')
    ensures Ones(rs') == Ones(rs) + Distance(rs, t, c) - ColumnWeight(rs, c)
  {
    if |rs| > 0 {
      var k := |rs| - 1;
      OnesAfterCX(rs[..k], c, t, rs'[..k], n);
      var p := rs[k].p;
      DiagonalCX(p, c, t);
      assert rs'[k].p == ConjCX(p, c, t);
      SupportUpdate(p, c, p.ls[c].z != p.ls[t].z);
    }
  }

  predicate SameColumn(rs: seq<Rotation>, rs': seq<Rotation>, i: nat) {
    |rs'| == |rs| && forall k :: 0 <= k < |rs| ==> HasOne(rs'[k].p, i) == HasOne(rs[k].p, i)
  }

  lemma {:induction false} SameColumns(rs: seq<Rotation>, rs': seq<Rotation>, i: nat, j: nat)
    requires SameColumn(rs, rs', i) && SameColumn(rs, rs', j)
    ensures ColumnWeight(rs', j) == ColumnWeight(rs, j) && Distance(rs', i, j) == Distance(rs, i, j)
  {
    if |rs| > 0 {
      SameColumns(rs[..|rs| - 1], rs'[..|rs| - 1], i, j);
    }
  }

  lemma UntouchedColumn(pred: map<nat, nat>, order: seq<nat>, m: nat, rs: seq<Rotation>, rs': seq<Rotation>, i: nat)
    requires m <= |order| && AllMoved(pred, order, m, rs, rs') && i !in order[m..]
    ensures SameColumn(rs, rs', i)
  {
    forall k | 0 <= k < |rs| ensures HasOne(rs'[k].p, i) == HasOne(rs[k].p, i) {
      assert Moved(pred, order, m, rs[k], rs'[k]);
    }
  }

  lemma MovedStep(pred: map<nat, nat>, order: seq<nat>, m: nat, r: Rotation, r': Rotation)
    requires m < |order| && Distinct(order) && Moved(pred, order, m + 1, r, r')
    requires order[m] in pred && pred[order[m]] in order[..m] && order[m] < |r.p.ls| && pred[order[m]] < |r.p.ls|
    ensures Diagonal(r'.p) && order[m] != pred[order[m]]
    ensures Moved(pred, order, m, r, ConjRotation(CX(order[m], pred[order[m]]), r'))
  {
    var v := order[m];
    var u := pred[v];
    assert order[m..] == [v] + order[m + 1..];
    assert u !in order[m..] && v !in order[m + 1..];
    DiagonalCX(r'.p, v, u);
  }

  /** One CX along the tree: the columns it uses are still those of the beginning. */
  lemma TreeStep(pred: map<nat, nat>, order: seq<nat>, m: nat, rs: seq<Rotation>, rs': seq<Rotation>, rs'': seq<Rotation>, n: nat)
    requires m < |order| && Distinct(order) && DiagonalOn(rs, n) && AllMoved(pred, order, m + 1, rs, rs')
    requires order[m] in pred && pred[order[m]] in order[..m] && order[m] < n && pred[order[m]] < n
    requires AfterCX(rs', order[m], pred[order[m]], rs'')
    ensures AllMoved(pred, order, m, rs, rs'')
    ensures Ones(rs'') == Ones(rs') + EdgeWeight(rs, pred[order[m]], order[m]) + 1
  {
    hide Moved, Diagonal, EdgeWeight, ConjRotation, Distinct;
    var v := order[m];
    var u := pred[v];
    forall k | 0 <= k < |rs| ensures Moved(pred, order, m, rs[k], rs''[k]) && |rs'[k].p.ls| == n && Diagonal(rs'[k].p) {
      MovedStep(pred, order, m, rs[k], rs'[k]);
      MovedLength(pred, order, m + 1, rs[k], rs'[k]);
    }
    NotLater(order, m, u);
    UntouchedColumn(pred, order, m + 1, rs, rs', u);
    UntouchedColumn(pred, order, m + 1, rs, rs', v);
    SameColumns(rs, rs', u, v);
    OnesAfterCX(rs', v, u, rs'', n);
    WeightOf(rs, u, v);
  }

  lemma WeightOf(rs: seq<Rotation>, i: nat, j: nat)
    ensures EdgeWeight(rs, i, j) == Distance(rs, i, j) - ColumnWeight(rs, j) - 1
  {
  }

  lemma MovedLength(pred: map<nat, nat>, order: seq<nat>, m: nat, r: Rotation, r': Rotation)
    requires m <= |order| && Moved(pred, order, m, r, r')
    ensures |r'.p.ls| == |r.p.ls|
  {
  }

  lemma NotLater(order: seq<nat>, m: nat, u: nat)
    requires m < |order| && Distinct(order) && u in order[..m]
    ensures u != order[m] && u !in order[m + 1..] && order[m] !in order[m + 1..]
  {
  }
}
