/**
 Synthesis of diagonal rotations along spanning arborescences of their supports.
 */
module MstSynthesis {
  import opened Sequences
  import opened PauliAlgebra
  import opened CliffordOps
  import opened CliffordTableaux
  import opened StabilizerTableaux
  import opened ProgramSemantics
  import opened PauliRotations
  import opened RotationDiagonalization
  import opened DiagonalCircuits
  import opened ParityTrees
  import opened StabilizerRank

  /** A rooted directed graph given by the predecessor and the successors of every vertex. */
  datatype Arborescence = Arborescence(root: nat, pred: map<nat, nat>, succs: map<nat, seq<nat>>)

  /** Depths that grow by one along every edge rule out cycles. */
  ghost predicate Depths(g: Arborescence, vs: set<nat>, depth: map<nat, nat>) {
    depth.Keys == vs && forall v :: v in g.pred && v in vs && g.pred[v] in vs ==> depth[v] == depth[g.pred[v]] + 1
  }

  /** Every vertex but the root has one predecessor and is once among its successors, without cycles. */
  ghost predicate Spans(g: Arborescence, vs: set<nat>) {
    && g.root in vs && g.succs.Keys == vs && g.pred.Keys == vs - {g.root}
    && (forall v :: v in g.pred ==> g.pred[v] in vs && v in g.succs[g.pred[v]])
    && (forall v, k :: v in vs && 0 <= k < |g.succs[v]| ==> g.succs[v][k] in g.pred && g.pred[g.succs[v][k]] == v)
    && (forall v, j, k :: v in vs && 0 <= j < k < |g.succs[v]| ==> g.succs[v][j] != g.succs[v][k])
    && exists depth :: Depths(g, vs, depth)
  }

  /** Every listed vertex but the root comes after its predecessor. */
  ghost predicate ParentsFirst(g: Arborescence, order: seq<nat>) {
    forall k :: 0 <= k < |order| && order[k] != g.root ==> order[k] in g.pred && g.pred[order[k]] in order[..k]
  }

  /** The listed and the waiting vertices: no vertex twice, successors of listed vertices present, predecessors of waiting ones listed. */
  ghost predicate Traversed(g: Arborescence, vs: set<nat>, order: seq<nat>, stack: seq<nat>) {
    && Distinct(order + stack)
    && (forall x :: x in order + stack ==> x in vs)
    && g.root in order + stack
    && ParentsFirst(g, order)
    && (forall x :: x in stack && x != g.root ==> x in g.pred && g.pred[x] in order)
    && (forall x :: x in g.pred && g.pred[x] in order ==> x in order + stack)
  }

  lemma {:induction false} AllReached(g: Arborescence, vs: set<nat>, depth: map<nat, nat>, order: seq<nat>, v: nat)
    requires Spans(g, vs) && Depths(g, vs, depth) && Traversed(g, vs, order, []) && v in vs
    ensures v in order
    decreases depth[v]
  {
    assert order + [] == order;
    if v != g.root {
      AllReached(g, vs, depth, order, g.pred[v]);
    }
  }

  lemma PredecessorListed(g: Arborescence, vs: set<nat>, order: seq<nat>, stack: seq<nat>, x: nat)
    requires Spans(g, vs) && Traversed(g, vs, order, stack) && x in order + stack && x in g.pred
    ensures g.pred[x] in order
  {
    if x in order {
      var i :| 0 <= i < |order| && order[i] == x;
      assert g.pred[x] in order[..i];
    }
  }

  /** A vertex that is taken from the stack was not listed, and neither it nor its successors are there twice. */
  lemma VisitFresh(g: Arborescence, vs: set<nat>, order: seq<nat>, stack: seq<nat>, v: nat)
    requires Spans(g, vs) && Traversed(g, vs, order, stack + [v])
    ensures v in vs && v !in order
    ensures forall k :: 0 <= k < |g.succs[v]| ==> g.succs[v][k] !in order + (stack + [v])
  {
    var all := order + (stack + [v]);
    assert all[|all| - 1] == v && v in stack + [v];
    assert forall i :: 0 <= i < |order| ==> all[i] == order[i];
    forall k | 0 <= k < |g.succs[v]| ensures g.succs[v][k] !in all {
      if g.succs[v][k] in all {
        PredecessorListed(g, vs, order, stack + [v], g.succs[v][k]);
        assert false;
      }
    }
  }

  lemma VisitStep(g: Arborescence, vs: set<nat>, order: seq<nat>, stack: seq<nat>, v: nat)
    requires Spans(g, vs) && Traversed(g, vs, order, stack + [v])
    ensures v in vs && v !in order
    ensures Traversed(g, vs, order + [v], stack + g.succs[v])
  {
    VisitFresh(g, vs, order, stack, v);
    var next := g.succs[v];
    var all, all' := order + (stack + [v]), (order + [v]) + (stack + next);
    assert v in stack + [v];
    assert Distinct(next) by {
      assert forall j, k :: 0 <= j < k < |next| ==> g.succs[v][j] != g.succs[v][k];
    }
    forall i, j | 0 <= i < j < |all'| ensures all'[i] != all'[j] {
      Rearranged(order, stack, v, next, i, j);
    }
    VisitMembers(g, vs, order, stack, v);
    assert ParentsFirst(g, order + [v]) by {
      forall k | 0 <= k < |order + [v]| && (order + [v])[k] != g.root
        ensures (order + [v])[k] in g.pred && g.pred[(order + [v])[k]] in (order + [v])[..k]
      {
        assert (order + [v])[..k] == order[..k];
      }
    }
  }

  /** Membership after the visit: the successors of v are waiting, and nothing is lost. */
  lemma VisitMembers(g: Arborescence, vs: set<nat>, order: seq<nat>, stack: seq<nat>, v: nat)
    requires Spans(g, vs) && Traversed(g, vs, order, stack + [v]) && v in vs
    ensures
      var next := g.succs[v];
      var all' := (order + [v]) + (stack + next);
      && (forall x :: x in all' ==> x in vs) && g.root in all'
      && (forall x :: x in stack + next && x != g.root ==> x in g.pred && g.pred[x] in order + [v])
      && (forall x :: x in g.pred && g.pred[x] in order + [v] ==> x in all')
  {
    var next := g.succs[v];
    var all, all' := order + (stack + [v]), (order + [v]) + (stack + next);
    assert forall x :: x in all' <==> x in all || x in next;
    assert forall x :: x in next ==> x in g.pred && g.pred[x] == v;
    assert forall x :: x in stack ==> x in stack + [v];
  }

  lemma Rearranged(order: seq<nat>, stack: seq<nat>, v: nat, next: seq<nat>, i: nat, j: nat)
    requires Distinct(order + (stack + [v])) && Distinct(next)
    requires forall k :: 0 <= k < |next| ==> next[k] !in order + (stack + [v])
    requires i < j < |order| + 1 + |stack| + |next|
    ensures ((order + [v]) + (stack + next))[i] != ((order + [v]) + (stack + next))[j]
  {
    var all := order + (stack + [v]);
    var all' := (order + [v]) + (stack + next);
    var o, s := |order|, |stack|;
    assert forall k :: 0 <= k < o ==> all'[k] == all[k];
    assert all'[o] == all[o + s];
    assert forall k :: o < k <= o + s ==> all'[k] == all[k - 1];
    assert forall k :: o + s < k < |all'| ==> all'[k] == next[k - o - s - 1];
  }

  /** The vertices with every predecessor before its successors (the reverse of a post-order). */
  method PreOrder(g: Arborescence, ghost vs: set<nat>) returns (order: seq<nat>)
    requires Spans(g, vs)
    ensures Distinct(order) && |order| > 0 && order[0] == g.root
    ensures forall x :: x in order <==> x in vs
    ensures ParentsFirst(g, order)
  {
    order := [];
    var stack := [g.root];
    while |stack| > 0
      invariant Traversed(g, vs, order, stack)
      invariant |order| == 0 ==> stack == [g.root]
      invariant |order| > 0 ==> order[0] == g.root
      decreases |vs| - |order|
    {
      hide Traversed, ParentsFirst, Depths;
      var v := stack[|stack| - 1];
      ghost var init := stack[..|stack| - 1];
      assert stack == init + [v];
      VisitStep(g, vs, order, init, v);
      VisitedBound(g, vs, order + [v], init + g.succs[v]);
      stack := stack[..|stack| - 1] + g.succs[v];
      order := order + [v];
    }
    Everything(g, vs, order);
  }

  lemma VisitedBound(g: Arborescence, vs: set<nat>, order: seq<nat>, stack: seq<nat>)
    requires Traversed(g, vs, order, stack)
    ensures |order| <= |vs|
  {
    DistinctPrefix(order, stack);
    assert forall x :: x in order ==> x in order + stack;
    DistinctBound(order, vs);
  }

  lemma Everything(g: Arborescence, vs: set<nat>, order: seq<nat>)
    requires Spans(g, vs) && Traversed(g, vs, order, [])
    ensures Distinct(order) && ParentsFirst(g, order) && forall x :: x in order <==> x in vs
  {
    assert order + [] == order;
    var depth :| Depths(g, vs, depth);
    forall x | x in vs ensures x in order {
      AllReached(g, vs, depth, order, x);
    }
  }

  lemma DistinctPrefix(a: seq<nat>, b: seq<nat>)
    requires Distinct(a + b)
    ensures Distinct(a)
  {
    assert forall i :: 0 <= i < |a| ==> a[i] == (a + b)[i];
  }

  // ---------- clearing one rotation along its tree ----------

  /** The rotation is supported on the first m listed vertices. */
  predicate SupportedOn(p: Pauli, order: seq<nat>, m: nat)
    requires m <= |order|
  {
    Diagonal(p) && forall i :: 0 <= i < |p.ls| ==> (p.ls[i].z <==> i in order[..m])
  }

  /** A CX from the last listed vertex to an earlier one removes it from the support. */
  lemma ClearLast(p: Pauli, order: seq<nat>, m: nat, parent: nat)
    requires m < |order| && SupportedOn(p, order, m + 1) && Distinct(order)
    requires order[m] < |p.ls| && parent < |p.ls| && parent in order[..m]
    ensures parent != order[m]
    ensures SupportedOn(ConjCX(p, order[m], parent), order, m)
  {
    assert order[..m + 1] == order[..m] + [order[m]];
    assert order[m] !in order[..m];
    DiagonalCX(p, order[m], parent);
  }

  lemma OnlyRoot(p: Pauli, order: seq<nat>)
    requires |order| > 0 && SupportedOn(p, order, 1) && order[0] < |p.ls|
    ensures p.ls == ZLetters(|p.ls|, order[0])
  {
    assert order[..1] == [order[0]];
    assert forall i :: 0 <= i < |p.ls| ==> p.ls[i] == if i == order[0] then LZ else LI;
  }

  /** The first rotation with the fewest ones. */
  predicate FirstLeast(rs: seq<Rotation>, best: nat) {
    && best < |rs|
    && (forall k :: 0 <= k < |rs| ==> HammingWeight(rs[best].p) <= HammingWeight(rs[k].p))
    && forall k :: 0 <= k < best ==> HammingWeight(rs[best].p) < HammingWeight(rs[k].p)
  }

  /** The index of the first rotation with the fewest ones. */
  method BestRotation(rs: seq<Rotation>) returns (best: nat)
    requires |rs| > 0
    ensures FirstLeast(rs, best)
  {
    best := 0;
    for k := 1 to |rs|
      invariant best < k
      invariant forall j :: 0 <= j < k ==> HammingWeight(rs[best].p) <= HammingWeight(rs[j].p)
      invariant forall j :: 0 <= j < best ==> HammingWeight(rs[best].p) < HammingWeight(rs[j].p)
    {
      if HammingWeight(rs[k].p) < HammingWeight(rs[best].p) {
        best := k;
      }
    }
  }

  // ---------- what the rounds do ----------

  /** The list without the rotation at the given index, the last one taking its place. */
  function Dropped(rs: seq<Rotation>, best: nat): seq<Rotation>
    requires best < |rs|
  {
    rs[best := rs[|rs| - 1]][..|rs| - 1]
  }

  /** All vertices of the support, each once, the root first and every other one after its predecessor. */
  ghost predicate Lists(g: Arborescence, vs: set<nat>, order: seq<nat>) {
    && Distinct(order) && |order| > 0 && order[0] == g.root && (forall x :: x in order <==> x in vs)
    && ParentsFirst(g, order)
  }

  /** The CX of the tree, children before their parents, and the phase gate on the root. */
  function TreeGates(n: nat, g: Arborescence, order: seq<nat>, phase: real): seq<Item> {
    TreeCXs(g.pred, order, 1) + [PhaseGate(n, phase, g.root)]
  }

  /**
   The other rotations after a tree: every vertex has taken up the parity of its predecessor.  Counting
   the rotation of the tree, which is left with one, the ones change by exactly the weight of the tree.
   */
  predicate AfterTree(g: Arborescence, order: seq<nat>, r: Rotation, rest: seq<Rotation>, after: seq<Rotation>)
    requires |order| > 0
  {
    && AllMoved(g.pred, order, 1, rest, after)
    && Ones(after) + 1 == Ones(rest) + HammingWeight(r.p) + TreeWeight(rest, g.pred, order, 1)
  }

  datatype Round = Round(before: seq<Rotation>, best: nat, order: seq<nat>, after: seq<Rotation>)

  /** One round: the first rotation of least weight is synthesized along the tree chosen for it. */
  ghost predicate RoundOk(choose: (seq<Rotation>, Rotation) -> Arborescence, d: Round) {
    && FirstLeast(d.before, d.best)
    && var r, rest := d.before[d.best], Dropped(d.before, d.best);
      Lists(choose(rest, r), Support(r.p), d.order) && AfterTree(choose(rest, r), d.order, r, rest, d.after)
  }

  function RoundGates(n: nat, choose: (seq<Rotation>, Rotation) -> Arborescence, d: Round): seq<Item>
    requires d.best < |d.before|
  {
    var r := d.before[d.best];
    TreeGates(n, choose(Dropped(d.before, d.best), r), d.order, r.phase)
  }

  /** Rounds one after the other lead from the rotations to the rest and have emitted the gates. */
  ghost predicate Rounds(n: nat, choose: (seq<Rotation>, Rotation) -> Arborescence, rotations: seq<Rotation>, rounds: seq<Round>, rest: seq<Rotation>, gates: seq<Item>) {
    if |rounds| == 0 then rest == rotations && gates == []
    else
      var d := rounds[|rounds| - 1];
      && RoundOk(choose, d) && rest == d.after
      && exists before: seq<Item> ::
           gates == before + RoundGates(n, choose, d) && Rounds(n, choose, rotations, rounds[..|rounds| - 1], d.before, before)
  }

  /** The circuit starts with rounds that use up all rotations. */
  ghost predicate GreedyTrees(n: nat, choose: (seq<Rotation>, Rotation) -> Arborescence, rotations: seq<Rotation>, gates: seq<Item>) {
    exists rounds, emitted :: Rounds(n, choose, rotations, rounds, [], emitted) && emitted <= gates
  }

  lemma RoundsGrow(n: nat, choose: (seq<Rotation>, Rotation) -> Arborescence, rotations: seq<Rotation>, rounds: seq<Round>, rest: seq<Rotation>, gates: seq<Item>, d: Round)
    requires Rounds(n, choose, rotations, rounds, rest, gates) && d.before == rest && RoundOk(choose, d)
    ensures Rounds(n, choose, rotations, rounds + [d], d.after, gates + RoundGates(n, choose, d))
  {
    hide RoundOk, RoundGates;
    assert (rounds + [d])[..|rounds|] == rounds;
  }

  ghost predicate AllTracked(copy: seq<Rotation>, ids: seq<nat>, rotations: seq<Rotation>, n: nat, cxs: seq<Op>) {
    && |ids| == |copy| && InRange(ids, |rotations|)
    && forall k :: 0 <= k < |copy| ==> Tracks(n, cxs, rotations[ids[k]], copy[k])
  }

  lemma TakeTracked(copy: seq<Rotation>, ids: seq<nat>, rotations: seq<Rotation>, n: nat, cxs: seq<Op>, best: nat)
    requires AllTracked(copy, ids, rotations, n, cxs) && best < |copy|
    ensures |ids| == |copy| && ids[best] < |rotations| && Tracks(n, cxs, rotations[ids[best]], copy[best])
    ensures var k := |copy| - 1; AllTracked(Dropped(copy, best), ids[best := ids[k]][..k], rotations, n, cxs)
  {
    hide Tracks;
    var k := |copy| - 1;
    assert Tracks(n, cxs, rotations[ids[best]], copy[best]) && Tracks(n, cxs, rotations[ids[k]], copy[k]);
    var copy', ids' := copy[best := copy[k]][..k], ids[best := ids[k]][..k];
    forall j | 0 <= j < k ensures Tracks(n, cxs, rotations[ids'[j]], copy'[j]) {
      assert Tracks(n, cxs, rotations[ids[j]], copy[j]);
    }
  }

  class Synthesizer {
    const n: nat
    const rotations: seq<Rotation>
    const final: StabilizerTableau
    var copy: seq<Rotation>
    var qcir: seq<Item>
    ghost var ids: seq<nat>
    ghost var cxs: seq<Op>
    ghost var emitted: seq<nat>

    /** Between two rotations nothing is left out of the list and of the emitted rotations. */
    ghost predicate Valid()
      reads this, final
    {
      Holding(multiset{})
    }

    /** The state while the rotations in `out` are taken out of the list but not emitted. */
    ghost predicate Holding(out: multiset<nat>)
      reads this, final
    {
      && AllNormal(rotations, n) && AllDiagonal(rotations)
      && (forall j :: 0 <= j < |rotations| ==> rotations[j].p.ls != Blank(n))
      && InRange(emitted, |rotations|)
      && Means(n, qcir, Select(rotations, emitted), cxs)
      && final.n == n && final.rows == TableauOf(n, Reversed(cxs))
      && AllTracked(copy, ids, rotations, n, cxs)
      && multiset(ids) + out + multiset(emitted) == multiset(Upto(|rotations|))
    }

    constructor (n: nat, rotations: seq<Rotation>)
      requires AllNormal(rotations, n) && AllDiagonal(rotations)
      requires forall j :: 0 <= j < |rotations| ==> rotations[j].p.ls != Blank(n)
      ensures Valid() && fresh(final)
      ensures this.n == n && this.rotations == rotations && copy == rotations && qcir == []
    {
      this.n := n;
      this.rotations := rotations;
      final := new StabilizerTableau(n);
      copy := rotations;
      qcir := [];
      ids := Upto(|rotations|);
      cxs := [];
      emitted := [];
      new;
      MeansStart(n);
      assert Select(rotations, []) == [] && Reversed<Op>([]) == [];
      ConjRowsNone(Identity(n));
      forall k | 0 <= k < |copy| ensures Tracks(n, [], rotations[ids[k]], copy[k]) {
        TracksStart(n, rotations[k]);
      }
    }

    /** Re-expresses the remaining rotations and, as a ghost, the one being synthesized. */
    method AddCX(c: nat, t: nat, ghost id: nat, ghost cur: Rotation) returns (ghost cur': Rotation)
      requires Holding(multiset{id}) && c < n && t < n && c != t
      requires id < |rotations| && Tracks(n, cxs, rotations[id], cur)
      modifies this, final
      ensures Holding(multiset{id}) && |copy| == |old(copy)|
      ensures cur' == ConjRotation(CX(c, t), cur) && cur'.p == ConjCX(cur.p, c, t) && cur'.phase == cur.phase
      ensures Tracks(n, cxs, rotations[id], cur')
      ensures qcir == old(qcir) + [Gate(CX(c, t))] && AfterCX(old(copy), c, t, copy)
    {
      hide Means, Tracks, ConjCX, TableauOf, Reversed, AllNormal, AllDiagonal, Blank;
      for k := 0 to |copy|
        invariant |copy| == |old(copy)| && ids == old(ids) && emitted == old(emitted)
        invariant qcir == old(qcir) && cxs == old(cxs) && final.rows == old(final.rows)
        invariant forall j :: 0 <= j < k ==> copy[j] == ConjRotation(CX(c, t), old(copy)[j])
        invariant forall j :: k <= j < |copy| ==> copy[j] == old(copy)[j]
      {
        copy := copy[k := ConjRotation(CX(c, t), copy[k])];
      }
      qcir := qcir + [Gate(CX(c, t))];
      MeansCX(n, old(qcir), Select(rotations, emitted), cxs, c, t);
      MeansShape(n, old(qcir), Select(rotations, emitted), cxs);
      PrependReversed(n, cxs, c, t);
      TableauShaped(n, Reversed(cxs));
      final.PrependCXGate(c, t);
      cxs := cxs + [CX(c, t)];
      forall k | 0 <= k < |copy| ensures Tracks(n, cxs, rotations[ids[k]], copy[k]) {
        assert Tracks(n, old(cxs), rotations[ids[k]], old(copy)[k]);
        TracksCX(n, old(cxs), rotations[ids[k]], old(copy)[k], c, t);
      }
      TracksCX(n, old(cxs), rotations[id], cur, c, t);
      TracksShape(n, old(cxs), rotations[id], cur);
      DiagonalCX(cur.p, c, t);
      cur' := ConjRotation(CX(c, t), cur);
    }

    /** Takes the rotation at the given index out of the list, the last one taking its place. */
    method Take(best: nat) returns (r: Rotation, ghost id: nat)
      requires Valid() && best < |copy|
      modifies this
      ensures Holding(multiset{id}) && copy == Dropped(old(copy), best) && qcir == old(qcir)
      ensures id < |rotations| && r == old(copy)[best] && Tracks(n, cxs, rotations[id], r)
    {
      hide Means, Tracks, TableauOf, Reversed, AllNormal, AllDiagonal, Blank, AllTracked;
      var k := |copy| - 1;
      TakeTracked(copy, ids, rotations, n, cxs, best);
      r, id := copy[best], ids[best];
      SwapOut(ids, best);
      copy := copy[best := copy[k]][..k];
      ids := ids[best := ids[k]][..k];
    }

    /**
     Synthesizes one rotation: the post-order CX leave its whole parity on the root, with
     one CX less than its support has qubits, and a phase gate there emits it.
     */
    method SynthesizeOne(r: Rotation, ghost id: nat, g: Arborescence) returns (ghost order: seq<nat>)
      requires Holding(multiset{id}) && id < |rotations| && Tracks(n, cxs, rotations[id], r)
      requires Spans(g, Support(r.p))
      modifies this, final
      ensures Valid() && Lists(g, Support(r.p), order)
      ensures qcir == old(qcir) + TreeGates(n, g, order, r.phase) && AfterTree(g, order, r, old(copy), copy)
    {
      hide SupportedOn, Spans, ParentsFirst, Support, Tracks, Holding, Valid, Diagonal, Distinct, ConjCX, ConjRotation;
      hide Moved, AllMoved, AfterCX, Ones, EdgeWeight, DiagonalOn;
      ghost var start := copy;
      AllDiagonalOn(id);
      var list := PreOrder(g, Support(r.p));
      order := list;
      OrderLength(order, Support(r.p));
      TracksShape(n, cxs, rotations[id], r);
      StartSupport(r.p, order);
      NothingMoved(g.pred, order, copy, n);
      ghost var cur := r;
      var m := |list| - 1;
      while m > 0
        invariant 0 <= m < |order|
        invariant Holding(multiset{id})
        invariant Tracks(n, cxs, rotations[id], cur) && SupportedOn(cur.p, order, m + 1) && cur.phase == r.phase
        invariant qcir == old(qcir) + TreeCXs(g.pred, order, m + 1) && AllMoved(g.pred, order, m + 1, start, copy)
        invariant Ones(copy) == Ones(start) + TreeWeight(start, g.pred, order, m + 1) + |order| - 1 - m
      {
        var v := list[m];
        NextParent(g, r.p, order, m);
        var pred := g.pred[v];
        TracksShape(n, cxs, rotations[id], cur);
        ClearLast(cur.p, order, m, pred);
        ghost var before := copy;
        cur := AddCX(v, pred, id, cur);
        TreeStep(g.pred, order, m, start, before, copy, n);
        m := m - 1;
      }
      RootListed(g, r.p, order);
      TracksShape(n, cxs, rotations[id], cur);
      OnlyRoot(cur.p, order);
      Emit(r.phase, id, cur, g.root);
    }

    lemma AllDiagonalOn(id: nat)
      requires Holding(multiset{id})
      ensures DiagonalOn(copy, n)
    {
      forall k | 0 <= k < |copy| ensures |copy[k].p.ls| == n && Diagonal(copy[k].p) {
        assert Tracks(n, cxs, rotations[ids[k]], copy[k]);
      }
    }

    /** Synthesizes all rotations. */
    method Run(choose: (seq<Rotation>, Rotation) -> Arborescence) returns (ghost rounds: seq<Round>)
      requires Valid() && Spanning(choose, n) && copy == rotations && qcir == []
      modifies this, final
      ensures Valid() && copy == [] && Rounds(n, choose, rotations, rounds, [], qcir)
    {
      hide Spanning, Holding;
      rounds := [];
      while |copy| > 0
        invariant Valid() && Rounds(n, choose, rotations, rounds, copy, qcir)
        decreases |copy|
      {
        hide Rounds;
        rounds := SynthesizeBest(choose, rounds);
      }
    }

    /** Synthesizes the first rotation with the fewest ones along the tree chosen for it. */
    method SynthesizeBest(choose: (seq<Rotation>, Rotation) -> Arborescence, ghost rounds: seq<Round>) returns (ghost rounds': seq<Round>)
      requires Valid() && |copy| > 0 && Spanning(choose, n) && Rounds(n, choose, rotations, rounds, copy, qcir)
      modifies this, final
      ensures Valid() && |copy| == |old(copy)| - 1 && Rounds(n, choose, rotations, rounds', copy, qcir)
    {
      hide Rounds, RoundOk, RoundGates, FirstLeast, Lists, AfterTree, TreeGates, Spans, Tracks, Dropped, Means, AllTracked, AllNormal, AllDiagonal;
      ghost var before, emitted := copy, qcir;
      var best := BestRotation(copy);
      FirstIsIn(copy, best);
      var cur, id := Take(best);
      TakenShape(id, cur);
      ghost var order := SynthesizeOne(cur, id, choose(copy, cur));
      ghost var d := Round(before, best, order, copy);
      ListsSome(choose(Dropped(before, best), cur), Support(cur.p), order);
      RoundIsOk(n, choose, d);
      RoundsGrow(n, choose, rotations, rounds, before, emitted, d);
      rounds' := rounds + [d];
    }

    lemma TakenShape(id: nat, cur: Rotation)
      requires Holding(multiset{id}) && id < |rotations| && Tracks(n, cxs, rotations[id], cur)
      ensures |cur.p.ls| == n && Diagonal(cur.p) && cur.p.ls != Blank(n)
    {
      TracksNonblank(n, cxs, rotations[id], cur);
      TracksShape(n, cxs, rotations[id], cur);
    }

    /** A phase gate on the root emits the rotation, which is there alone. */
    method Emit(phase: real, ghost id: nat, ghost cur: Rotation, root: nat)
      requires Holding(multiset{id}) && id < |rotations| && Tracks(n, cxs, rotations[id], cur)
      requires root < n && cur.p.ls == ZLetters(n, root) && cur.phase == phase
      modifies this
      ensures Valid() && copy == old(copy) && qcir == old(qcir) + [PhaseGate(n, phase, root)]
    {
      hide Means, Tracks, TableauOf, Reversed, AllNormal, AllDiagonal, AllTracked, Blank;
      MeansPhase(n, qcir, Select(rotations, emitted), cxs, rotations[id], cur, root);
      qcir := qcir + [PhaseGate(n, phase, root)];
      assert Select(rotations, emitted + [id]) == Select(rotations, emitted) + [rotations[id]];
      assert multiset(emitted + [id]) == multiset(emitted) + multiset{id};
      emitted := emitted + [id];
    }
  }

  lemma NextParent(g: Arborescence, p: Pauli, order: seq<nat>, m: nat)
    requires Spans(g, Support(p)) && ParentsFirst(g, order) && Distinct(order)
    requires 0 < m < |order| && order[0] == g.root
    requires forall x :: x in order <==> x in Support(p)
    ensures order[m] in g.pred && g.pred[order[m]] in order[..m]
    ensures order[m] < |p.ls| && g.pred[order[m]] < |p.ls|
  {
    assert order[m] in order && order[m] != g.root;
    assert g.pred[order[m]] in Support(p);
  }

  lemma RootListed(g: Arborescence, p: Pauli, order: seq<nat>)
    requires |order| > 0 && order[0] == g.root && forall x :: x in order <==> x in Support(p)
    ensures g.root < |p.ls|
  {
    assert g.root in order;
  }

  lemma StartSupport(p: Pauli, order: seq<nat>)
    requires Diagonal(p) && forall x :: x in order <==> x in Support(p)
    ensures SupportedOn(p, order, |order|)
  {
    assert order[..|order|] == order;
  }

  lemma OrderLength(order: seq<nat>, vs: set<nat>)
    requires Distinct(order) && forall x :: x in order <==> x in vs
    ensures |order| == |vs|
    decreases |order|
  {
    if |order| == 0 {
      assert vs == {} by { assert forall x :: x in vs ==> x in order; }
    } else {
      var k := |order| - 1;
      assert order[k] !in order[..k];
      assert order == order[..k] + [order[k]];
      OrderLength(order[..k], vs - {order[k]});
    }
  }

  lemma SwapOut(ids: seq<nat>, best: nat)
    requires best < |ids|
    ensures var k := |ids| - 1; multiset(ids[best := ids[k]][..k]) + multiset{ids[best]} == multiset(ids)
  {
    var k := |ids| - 1;
    var swapped := ids[best := ids[k]][k := ids[best]];
    assert multiset(swapped) == multiset(ids);
    assert swapped == ids[best := ids[k]][..k] + [ids[best]];
  }

  /** The way arborescences are chosen: for every diagonal rotation one that spans its support. */
  ghost predicate Spanning(choose: (seq<Rotation>, Rotation) -> Arborescence, n: nat) {
    forall rs, r: Rotation :: Diagonal(r.p) && |r.p.ls| == n && r.p.ls != Blank(n) ==> Spans(choose(rs, r), Support(r.p))
  }

  lemma FirstIsIn(rs: seq<Rotation>, best: nat)
    requires FirstLeast(rs, best)
    ensures best < |rs| && |Dropped(rs, best)| == |rs| - 1
  {
  }

  lemma RoundsAreTrees(n: nat, choose: (seq<Rotation>, Rotation) -> Arborescence, rotations: seq<Rotation>, rounds: seq<Round>, emitted: seq<Item>, gates: seq<Item>)
    requires Rounds(n, choose, rotations, rounds, [], emitted) && emitted <= gates
    ensures GreedyTrees(n, choose, rotations, gates)
  {
    hide Rounds;
  }

  lemma ListsSome(g: Arborescence, vs: set<nat>, order: seq<nat>)
    requires Lists(g, vs, order)
    ensures |order| > 0
  {
  }

  lemma RoundIsOk(n: nat, choose: (seq<Rotation>, Rotation) -> Arborescence, d: Round)
    requires d.best < |d.before| && FirstLeast(d.before, d.best) && |d.order| > 0
    requires var r, rest := d.before[d.best], Dropped(d.before, d.best);
      Lists(choose(rest, r), Support(r.p), d.order) && AfterTree(choose(rest, r), d.order, r, rest, d.after)
    ensures RoundOk(choose, d) && |d.after| == |d.before| - 1
    ensures var r, rest := d.before[d.best], Dropped(d.before, d.best);
      RoundGates(n, choose, d) == TreeGates(n, choose(rest, r), d.order, r.phase)
  {
    hide Lists, FirstLeast;
  }

  /**
   Compiles diagonal rotations, none about the identity, along any choice of spanning
   arborescences to CX and phase gates with the same meaning; any other list is rejected.  Every
   time the first of the rotations with the fewest ones is next.
   */
  method Synthesize(n: nat, rotations: seq<Rotation>, choose: (seq<Rotation>, Rotation) -> Arborescence) returns (r: Outcome)
    requires AllNormal(rotations, n) && |rotations| > 0
    requires forall j :: 0 <= j < |rotations| ==> rotations[j].p.ls != Blank(n)
    requires Spanning(choose, n)
    ensures r.Rejected? <==> !AllDiagonal(rotations)
    ensures r.Circuit? ==> Equivalent(n, Rots(rotations), r.gates)
    ensures r.Circuit? ==> GreedyTrees(n, choose, rotations, r.gates)
    ensures r.Circuit? ==> RotationsIn(r.gates) == |rotations| && HCount(OpsIn(r.gates)) == 0
  {
    if !AllDiagonal(rotations) {
      return Rejected;
    }
    var s := new Synthesizer(n, rotations);
    ghost var rounds := s.Run(choose);
    assert s.ids == [];
    hide Rounds, Spanning, Equivalent, GreedyTrees, AllNormal, AllDiagonal;
    var gates := Finish(n, s.qcir, s.final, Select(rotations, s.emitted), s.cxs);
    OrderIrrelevant(n, rotations, Upto(|rotations|), s.emitted);
    SelectAll(rotations);
    SameLength(s.emitted, Upto(|rotations|));
    EquivalentSymmetric(n, gates, Rots(Select(rotations, s.emitted)));
    EquivalentTransitive(n, Rots(rotations), Rots(Select(rotations, s.emitted)), gates);
    RoundsAreTrees(n, choose, rotations, rounds, s.qcir, gates);
    r := Circuit(gates);
  }
}
