/**
 The order of the routing search: which vertex it takes next, from where it reaches a
 vertex, and when it stops.  Up to the numbering of the qubits this leaves it no choice.
 */
module SearchOrder {
  import opened Devices
  import opened RoutingSearch

  /** The order of the queue: cheaper vertices first, the smaller number among equals. */
  predicate Precedes(cost: nat, id: nat, cost': nat, id': nat) { cost < cost' || (cost == cost' && id < id') }

  /** No vertex still waits that should have been taken before one of the taken vertices. */
  predicate CheapestFirst(qs: seq<PhysicalQubit>, t0: nat, t1: nat) {
    forall v, w :: 0 <= v < |qs| && 0 <= w < |qs| && qs[v].taken && v != t0 && v != t1 && qs[w].marked && !qs[w].taken ==>
      qs[w].pred < |qs| && Precedes(qs[v].cost, v, SwapEnd(qs, w), w)
  }

  /** The order in which vertices are taken: the two sources, then by cost. */
  predicate TakenBefore(qs: seq<PhysicalQubit>, t0: nat, t1: nat, a: nat, b: nat)
    requires a < |qs| && b < |qs|
  {
    a == t0 || (b != t0 && (a == t1 || (b != t1 && Precedes(qs[a].cost, a, qs[b].cost, b))))
  }

  /** Every vertex is reached from the neighbour that was taken first. */
  predicate FirstMarked(adj: seq<seq<nat>>, qs: seq<PhysicalQubit>, t0: nat, t1: nat)
    requires |qs| == |adj|
  {
    forall v, w :: 0 <= v < |qs| && 0 <= w < |qs| && qs[v].taken && w in adj[v] && qs[w].marked && w != t0 && w != t1 ==>
      qs[w].pred < |qs| && (qs[w].pred == v || TakenBefore(qs, t0, t1, qs[w].pred, v))
  }

  predicate OnlySources(qs: seq<PhysicalQubit>, t0: nat, t1: nat) {
    forall v :: 0 <= v < |qs| && qs[v].taken ==> v == t0 || v == t1
  }

  /** The vertex u was taken last. */
  predicate LastTaken(qs: seq<PhysicalQubit>, t0: nat, t1: nat, u: nat) {
    && u < |qs| && qs[u].taken && u != t0 && u != t1
    && forall v :: 0 <= v < |qs| && qs[v].taken && v != u ==> TakenBefore(qs, t0, t1, v, u)
  }

  /** All taken vertices but u have looked around and touched nothing of the other side. */
  predicate SettledBut(adj: seq<seq<nat>>, qs: seq<PhysicalQubit>, u: nat)
    requires |qs| == |adj|
  {
    forall v, w :: 0 <= v < |qs| && 0 <= w < |qs| && qs[v].taken && v != u && w in adj[v] ==>
      qs[w].marked && (qs[w].taken && w != u ==> qs[w].source == qs[v].source)
  }

  /** The first neighbour of u that is taken by the other side is w. */
  predicate FirstTouch(adj: seq<seq<nat>>, qs: seq<PhysicalQubit>, u: nat, w: nat)
    requires |qs| == |adj| && u < |qs| && Couplings(adj)
  {
    exists k :: 0 <= k < |adj[u]| && adj[u][k] == w &&
      forall j :: 0 <= j < k ==> qs[adj[u][j]].taken ==> qs[adj[u][j]].source == qs[u].source
  }

  /** The search stopped at the first contact: when u, taken last, touched w. */
  predicate Stopped(adj: seq<seq<nat>>, qs: seq<PhysicalQubit>, t0: nat, t1: nat, u: nat, w: nat)
    requires |qs| == |adj| && Couplings(adj)
  {
    LastTaken(qs, t0, t1, u) && SettledBut(adj, qs, u) && FirstTouch(adj, qs, u, w)
  }

  /**
   The result of the search: coupled sources meet at once; else the cheapest vertex has been
   taken every time, every vertex reached from its first taken neighbour, up to the first contact.
   */
  predicate Searched(adj: seq<seq<nat>>, qs: seq<PhysicalQubit>, t0: nat, t1: nat, q0: nat, q1: nat)
    requires |qs| == |adj| && Couplings(adj)
  {
    || (OnlySources(qs, t0, t1) && q0 == t0 && q1 == t1)
    || (CheapestFirst(qs, t0, t1) && FirstMarked(adj, qs, t0, t1)
        && (Stopped(adj, qs, t0, t1, q0, q1) || Stopped(adj, qs, t0, t1, q1, q0)))
  }

  /** The order kept while the search goes on. */
  predicate InOrder(adj: seq<seq<nat>>, qs: seq<PhysicalQubit>, t0: nat, t1: nat)
    requires |qs| == |adj|
  {
    CheapestFirst(qs, t0, t1) && FirstMarked(adj, qs, t0, t1)
  }

  lemma WaitingIsQueued(adj: seq<seq<nat>>, qs: seq<PhysicalQubit>, pq: seq<Node>, w: nat) returns (j: nat)
    requires |qs| == |adj| && QueueOk(adj, qs, pq) && w < |qs| && qs[w].marked && !qs[w].taken
    ensures j < |pq| && pq[j].id == w && QueuedOk(adj, qs, pq[j])
  {
    assert InQueue(pq, w);
    j :| 0 <= j < |pq| && pq[j].id == w;
    assert QueuedOk(adj, qs, pq[j]);
  }

  /** Whatever has been reached was reached from a taken vertex. */
  lemma ReachedFromTaken(adj: seq<seq<nat>>, qs: seq<PhysicalQubit>, pq: seq<Node>, t0: nat, t1: nat, w: nat)
    requires ChainsOk(adj, qs, t0, t1) && QueueOk(adj, qs, pq) && w < |qs| && qs[w].marked && w != t0 && w != t1
    ensures Linked(adj, qs, w)
  {
    if qs[w].taken {
      assert TakenOk(adj, qs, t0, t1, w);
    } else {
      var j := WaitingIsQueued(adj, qs, pq, w);
    }
  }

  predicate IsCheapest(pq: seq<Node>, k: nat)
    requires k < |pq|
  {
    forall j :: 0 <= j < |pq| ==> pq[k].cost < pq[j].cost || (pq[k].cost == pq[j].cost && pq[k].id <= pq[j].id)
  }

  /** Taking the first of the queue keeps the order. */
  lemma TakeKeepsCheapest(adj: seq<seq<nat>>, qs: seq<PhysicalQubit>, pq: seq<Node>, t0: nat, t1: nat, k: nat)
    requires ChainsOk(adj, qs, t0, t1) && QueueOk(adj, qs, pq) && CheapestFirst(qs, t0, t1) && k < |pq| && IsCheapest(pq, k)
    ensures pq[k].id < |qs| && pq[k].cost >= SWAP_DELAY && CheapestFirst(Taken(qs, pq[k]), t0, t1)
  {
    var e := pq[k];
    assert QueuedOk(adj, qs, e);
    var qs' := Taken(qs, e);
    forall v, w | 0 <= v < |qs'| && 0 <= w < |qs'| && qs'[v].taken && v != t0 && v != t1 && qs'[w].marked && !qs'[w].taken
      ensures qs'[w].pred < |qs'| && Precedes(qs'[v].cost, v, SwapEnd(qs', w), w)
    {
      var j := WaitingIsQueued(adj, qs, pq, w);
      assert SwapEnd(qs', w) == SwapEnd(qs, w);
    }
  }

  /** The taken vertex comes after all others. */
  lemma TakenLast(adj: seq<seq<nat>>, qs: seq<PhysicalQubit>, t0: nat, t1: nat, e: Node)
    requires ChainsOk(adj, qs, t0, t1) && CheapestFirst(qs, t0, t1) && QueuedOk(adj, qs, e) && e.cost >= SWAP_DELAY
    ensures LastTaken(Taken(qs, e), t0, t1, e.id)
  {
  }

  lemma TakeKeepsMarked(adj: seq<seq<nat>>, qs: seq<PhysicalQubit>, pq: seq<Node>, t0: nat, t1: nat, e: Node)
    requires ChainsOk(adj, qs, t0, t1) && QueueOk(adj, qs, pq) && InOrder(adj, qs, t0, t1) && QueuedOk(adj, qs, e) && e.cost >= SWAP_DELAY
    ensures FirstMarked(adj, Taken(qs, e), t0, t1)
  {
    hide QueueOk, ChainsOk, CheapestFirst;
    var qs' := Taken(qs, e);
    ChainsShape(adj, qs, t0, t1);
    TakenLast(adj, qs, t0, t1, e);
    forall v, w | 0 <= v < |qs'| && 0 <= w < |qs'| && qs'[v].taken && w in adj[v] && qs'[w].marked && w != t0 && w != t1
      ensures qs'[w].pred < |qs'| && (qs'[w].pred == v || TakenBefore(qs', t0, t1, qs'[w].pred, v))
    {
      ReachedFromTaken(adj, qs, pq, t0, t1, w);
      if v != e.id {
        assert qs[w].pred == v || TakenBefore(qs, t0, t1, qs[w].pred, v);
      }
    }
  }

  /** What u has marked it has reached. */
  predicate MarkedFrom(before: seq<PhysicalQubit>, qs: seq<PhysicalQubit>, u: nat) {
    |before| == |qs| && forall w :: 0 <= w < |qs| && qs[w].marked && !before[w].marked ==> qs[w].pred == u
  }

  /** A vertex marked after u has been taken waits behind u. */
  lemma NewlyMarked(adj: seq<seq<nat>>, mid: seq<PhysicalQubit>, u: nat, qs: seq<PhysicalQubit>, pq: seq<Node>, w: nat)
    requires Grown(mid, qs) && MarkedFrom(mid, qs, u) && |qs| == |adj| && QueueOk(adj, qs, pq) && u < |qs|
    requires w < |qs| && qs[w].marked && !qs[w].taken && !mid[w].marked
    ensures qs[w].pred == u && SwapEnd(qs, w) > mid[u].cost
  {
    var j := WaitingIsQueued(adj, qs, pq, w);
  }

  lemma GrowKeepsCheapest(adj: seq<seq<nat>>, mid: seq<PhysicalQubit>, u: nat, qs: seq<PhysicalQubit>, pq: seq<Node>, t0: nat, t1: nat)
    requires |qs| == |adj| && CheapestFirst(mid, t0, t1) && LastTaken(mid, t0, t1, u)
    requires Grown(mid, qs) && MarkedFrom(mid, qs, u) && QueueOk(adj, qs, pq)
    ensures CheapestFirst(qs, t0, t1)
  {
    forall v, w | 0 <= v < |qs| && 0 <= w < |qs| && qs[v].taken && v != t0 && v != t1 && qs[w].marked && !qs[w].taken
      ensures qs[w].pred < |qs| && Precedes(qs[v].cost, v, SwapEnd(qs, w), w)
    {
      if mid[w].marked {
        assert qs[w] == mid[w];
        assert mid[w].pred < |mid| && Precedes(mid[v].cost, v, SwapEnd(mid, w), w);
        assert qs[qs[w].pred].cost == mid[mid[w].pred].cost;
      } else {
        NewlyMarked(adj, mid, u, qs, pq, w);
        assert v != u ==> TakenBefore(mid, t0, t1, v, u);
      }
    }
  }

  lemma SettledMarks(adj: seq<seq<nat>>, qs: seq<PhysicalQubit>, u: nat, w: nat)
    requires Couplings(adj) && |qs| == |adj| && u < |qs| && Settled(adj, qs, u) && w in adj[u]
    ensures w < |qs| && qs[w].marked && (qs[w].taken ==> qs[w].source == qs[u].source)
  {
    var k :| 0 <= k < |adj[u]| && adj[u][k] == w;
    assert qs[adj[u][k]].marked;
  }

  /** Where all other taken vertices were settled, only u can mark. */
  lemma GrowKeepsMarked(adj: seq<seq<nat>>, before: seq<PhysicalQubit>, e: Node, qs: seq<PhysicalQubit>, t0: nat, t1: nat)
    requires Couplings(adj) && |before| == |qs| == |adj| && AllSettled(adj, before) && e.id < |qs| && e.cost >= SWAP_DELAY
    requires Grown(Taken(before, e), qs) && MarkedFrom(Taken(before, e), qs, e.id) && FirstMarked(adj, Taken(before, e), t0, t1)
    ensures FirstMarked(adj, qs, t0, t1)
  {
    hide Settled;
    var mid := Taken(before, e);
    forall v, w | 0 <= v < |qs| && 0 <= w < |qs| && qs[v].taken && w in adj[v] && qs[w].marked && w != t0 && w != t1
      ensures qs[w].pred < |qs| && (qs[w].pred == v || TakenBefore(qs, t0, t1, qs[w].pred, v))
    {
      if v != e.id { SettledMarks(adj, before, v, w); }
      if mid[w].marked {
        assert mid[w].pred == v || TakenBefore(mid, t0, t1, mid[w].pred, v);
      }
    }
  }

  /** One step of the search keeps the order. */
  lemma StepKeepsOrder(adj: seq<seq<nat>>, before: seq<PhysicalQubit>, pq: seq<Node>, t0: nat, t1: nat, k: nat, qs: seq<PhysicalQubit>, pq': seq<Node>)
    requires Couplings(adj) && ChainsOk(adj, before, t0, t1) && QueueOk(adj, before, pq) && AllSettled(adj, before) && InOrder(adj, before, t0, t1)
    requires k < |pq| && IsCheapest(pq, k) && pq[k].id < |before| && pq[k].cost >= SWAP_DELAY
    requires Grown(Taken(before, pq[k]), qs) && MarkedFrom(Taken(before, pq[k]), qs, pq[k].id) && QueueOk(adj, qs, pq')
    ensures InOrder(adj, qs, t0, t1) && LastTaken(qs, t0, t1, pq[k].id) && SettledBut(adj, qs, pq[k].id)
  {
    var e := pq[k];
    assert QueuedOk(adj, before, e);
    TakeKeepsCheapest(adj, before, pq, t0, t1, k);
    TakenLast(adj, before, t0, t1, e);
    TakeKeepsMarked(adj, before, pq, t0, t1, e);
    GrowKeepsCheapest(adj, Taken(before, e), e.id, qs, pq', t0, t1);
    GrowKeepsMarked(adj, before, e, qs, t0, t1);
    GrowKeepsLast(Taken(before, e), qs, t0, t1, e.id);
    AllButTheLast(adj, before, e, qs, t0, t1);
  }

  lemma GrowKeepsLast(mid: seq<PhysicalQubit>, qs: seq<PhysicalQubit>, t0: nat, t1: nat, u: nat)
    requires Grown(mid, qs) && LastTaken(mid, t0, t1, u)
    ensures LastTaken(qs, t0, t1, u)
  {
    forall v | 0 <= v < |qs| && qs[v].taken && v != u ensures TakenBefore(qs, t0, t1, v, u) {
      assert TakenBefore(mid, t0, t1, v, u);
    }
  }

  lemma AllButTheLast(adj: seq<seq<nat>>, before: seq<PhysicalQubit>, e: Node, qs: seq<PhysicalQubit>, t0: nat, t1: nat)
    requires Couplings(adj) && ChainsOk(adj, before, t0, t1) && AllSettled(adj, before) && e.id < |before| && e.cost >= SWAP_DELAY
    requires Grown(Taken(before, e), qs)
    ensures |qs| == |adj| && SettledBut(adj, qs, e.id)
  {
    forall v, w | 0 <= v < |qs| && 0 <= w < |qs| && qs[v].taken && v != e.id && w in adj[v]
      ensures qs[w].marked && (qs[w].taken && w != e.id ==> qs[w].source == qs[v].source)
    {
      assert TakenOk(adj, before, t0, t1, v);
      SettledMarks(adj, before, v, w);
    }
  }

  /** After the sources have looked around, what both can reach is marked from the first. */
  lemma OrderStarts(adj: seq<seq<nat>>, seeded: seq<PhysicalQubit>, first: seq<PhysicalQubit>, second: seq<PhysicalQubit>, pq: seq<Node>, t0: nat, t1: nat)
    requires Couplings(adj) && ChainsOk(adj, second, t0, t1) && QueueOk(adj, second, pq) && OnlySources(seeded, t0, t1)
    requires Grown(seeded, first) && Grown(first, second) && MarkedFrom(seeded, first, t0)
    requires forall w :: 0 <= w < |seeded| && seeded[w].marked ==> w == t0 || w == t1
    requires Settled(adj, first, t0)
    ensures InOrder(adj, second, t0, t1)
  {
    hide QueueOk, ChainsOk, Settled;
    assert t0 < |second| == |adj| by { ChainsShape(adj, second, t0, t1); }
    forall v, w | 0 <= v < |second| && 0 <= w < |second| && second[v].taken && w in adj[v] && second[w].marked && w != t0 && w != t1
      ensures second[w].pred < |second| && (second[w].pred == v || TakenBefore(second, t0, t1, second[w].pred, v))
    {
      ReachedFromTaken(adj, second, pq, t0, t1, w);
      if v == t0 {
        SettledMarks(adj, first, t0, w);
      }
    }
  }

  lemma ChainsShape(adj: seq<seq<nat>>, qs: seq<PhysicalQubit>, t0: nat, t1: nat)
    requires ChainsOk(adj, qs, t0, t1)
    ensures |qs| == |adj| && t0 < |qs| && t1 < |qs|
  {
  }
}
