/**
 The bidirectional search of the Duostra router: two fronts grow from the two qubits of a
 gate, cheapest vertex first, until one touches a vertex taken by the other.
 */
module RoutingSearch {
  import opened Devices

  datatype Node = Node(cost: nat, id: nat, source: bool)

  function Max(a: nat, b: nat): nat { if a > b then a else b }

  /** The vertex was reached over a coupling from a taken vertex of its own side. */
  predicate Linked(adj: seq<seq<nat>>, qs: seq<PhysicalQubit>, v: nat)
    requires |qs| == |adj| && v < |qs|
  {
    var p := qs[v].pred;
    p < |qs| && qs[p].taken && qs[p].source == qs[v].source && v in adj[p]
  }

  /** The cost of a reached vertex: a swap after both its predecessor and itself are free. */
  function SwapEnd(qs: seq<PhysicalQubit>, v: nat): nat
    requires v < |qs| && qs[v].pred < |qs|
  {
    Max(qs[qs[v].pred].cost, qs[v].occupied) + SWAP_DELAY
  }

  predicate IsSource(qs: seq<PhysicalQubit>, t0: nat, t1: nat, v: nat)
    requires v < |qs|
  {
    v == if qs[v].source then t1 else t0
  }

  /** What is known of a taken vertex. */
  predicate TakenOk(adj: seq<seq<nat>>, qs: seq<PhysicalQubit>, t0: nat, t1: nat, v: nat)
    requires |qs| == |adj| && v < |qs|
  {
    && qs[v].marked
    && if IsSource(qs, t0, t1, v) then qs[v].cost == qs[v].occupied
       else Linked(adj, qs, v) && qs[v].cost == SwapEnd(qs, v) && qs[v].swapTime == qs[v].cost - SWAP_DELAY
  }

  predicate ChainsOk(adj: seq<seq<nat>>, qs: seq<PhysicalQubit>, t0: nat, t1: nat) {
    && |qs| == |adj| && t0 < |qs| && t1 < |qs| && t0 != t1
    && qs[t0].taken && !qs[t0].source && qs[t1].taken && qs[t1].source
    && forall v :: 0 <= v < |qs| && qs[v].taken ==> TakenOk(adj, qs, t0, t1, v)
  }

  /** A queued vertex is marked, not taken, and waits with the cost of its swap. */
  predicate QueuedOk(adj: seq<seq<nat>>, qs: seq<PhysicalQubit>, e: Node)
    requires |qs| == |adj|
  {
    && e.id < |qs| && qs[e.id].marked && !qs[e.id].taken && qs[e.id].source == e.source
    && Linked(adj, qs, e.id) && e.cost == SwapEnd(qs, e.id)
  }

  predicate InQueue(pq: seq<Node>, v: nat) { exists k :: 0 <= k < |pq| && pq[k].id == v }

  predicate QueueOk(adj: seq<seq<nat>>, qs: seq<PhysicalQubit>, pq: seq<Node>)
    requires |qs| == |adj|
  {
    && (forall k :: 0 <= k < |pq| ==> QueuedOk(adj, qs, pq[k]))
    && (forall j, k :: 0 <= j < k < |pq| ==> pq[j].id != pq[k].id)
    && forall v :: 0 <= v < |qs| && qs[v].marked && !qs[v].taken ==> InQueue(pq, v)
  }

  /** All neighbours are marked, and none is taken by the other side. */
  predicate Settled(adj: seq<seq<nat>>, qs: seq<PhysicalQubit>, u: nat)
    requires |qs| == |adj| && u < |qs| && Couplings(adj)
  {
    forall k :: 0 <= k < |adj[u]| ==>
      qs[adj[u][k]].marked && (qs[adj[u][k]].taken ==> qs[adj[u][k]].source == qs[u].source)
  }

  predicate AllSettled(adj: seq<seq<nat>>, qs: seq<PhysicalQubit>)
    requires |qs| == |adj| && Couplings(adj)
  {
    forall u :: 0 <= u < |qs| && qs[u].taken ==> Settled(adj, qs, u)
  }

  /** Two taken, coupled vertices of different sides. */
  predicate Contact(adj: seq<seq<nat>>, qs: seq<PhysicalQubit>, u: nat, w: nat)
    requires |qs| == |adj|
  {
    u < |qs| && w < |qs| && qs[u].taken && qs[w].taken && qs[u].source != qs[w].source && w in adj[u]
  }

  /** The search marked further vertices and changed nothing else. */
  predicate Grown(qs: seq<PhysicalQubit>, qs': seq<PhysicalQubit>) {
    && |qs'| == |qs|
    && forall v :: 0 <= v < |qs| ==>
         && qs'[v].logical == qs[v].logical && qs'[v].occupied == qs[v].occupied && qs'[v].cost == qs[v].cost
         && qs'[v].swapTime == qs[v].swapTime && qs'[v].taken == qs[v].taken
         && (qs[v].marked ==> qs'[v] == qs[v])
  }

  /** Nothing the search does moves logical qubits or changes occupied times. */
  predicate SameDevice(qs: seq<PhysicalQubit>, qs': seq<PhysicalQubit>) {
    Logicals(qs') == Logicals(qs) && Occupied(qs') == Occupied(qs)
  }

  lemma GrownSameDevice(qs: seq<PhysicalQubit>, qs': seq<PhysicalQubit>)
    requires Grown(qs, qs')
    ensures SameDevice(qs, qs')
  {
  }

  lemma GrownKeepsChains(adj: seq<seq<nat>>, qs: seq<PhysicalQubit>, qs': seq<PhysicalQubit>, t0: nat, t1: nat)
    requires ChainsOk(adj, qs, t0, t1) && Grown(qs, qs')
    ensures ChainsOk(adj, qs', t0, t1)
  {
    assert TakenOk(adj, qs, t0, t1, t0) && TakenOk(adj, qs, t0, t1, t1);
    forall v | 0 <= v < |qs'| && qs'[v].taken ensures TakenOk(adj, qs', t0, t1, v) {
      assert TakenOk(adj, qs, t0, t1, v);
      if !IsSource(qs, t0, t1, v) {
        assert TakenOk(adj, qs, t0, t1, qs[v].pred);
      }
    }
  }

  /** Marking one unmarked neighbour and queueing it. */
  lemma MarkOne(adj: seq<seq<nat>>, qs: seq<PhysicalQubit>, pq: seq<Node>, t0: nat, t1: nat, u: nat, w: nat)
    requires ChainsOk(adj, qs, t0, t1) && QueueOk(adj, qs, pq)
    requires u < |qs| && w < |qs| && qs[u].taken && !qs[w].marked && w in adj[u] && !qs[w].taken
    ensures
      var qs' := qs[w := qs[w].Mark(qs[u].source, u)];
      var pq' := pq + [Node(Max(qs[u].cost, qs[w].occupied) + SWAP_DELAY, w, qs[u].source)];
      Grown(qs, qs') && ChainsOk(adj, qs', t0, t1) && QueueOk(adj, qs', pq')
  {
    var qs' := qs[w := qs[w].Mark(qs[u].source, u)];
    var e := Node(Max(qs[u].cost, qs[w].occupied) + SWAP_DELAY, w, qs[u].source);
    var pq' := pq + [e];
    GrownKeepsChains(adj, qs, qs', t0, t1);
    forall k | 0 <= k < |pq'| ensures QueuedOk(adj, qs', pq'[k]) && (k < |pq| ==> pq'[k].id != w) {
      if k < |pq| { assert QueuedOk(adj, qs, pq[k]); }
    }
    forall v | 0 <= v < |qs'| && qs'[v].marked && !qs'[v].taken ensures InQueue(pq', v) {
      if v == w {
        assert pq'[|pq|].id == w;
      } else {
        assert InQueue(pq, v);
        var k :| 0 <= k < |pq| && pq[k].id == v;
        assert pq'[k].id == v;
      }
    }
  }

  /** The cheapest vertex, the one with the smallest id among equals. */
  method PopCheapest(pq: seq<Node>) returns (e: Node, rest: seq<Node>)
    requires |pq| > 0
    ensures exists k :: 0 <= k < |pq| && e == pq[k] && rest == pq[..k] + pq[k + 1..]
    ensures forall k :: 0 <= k < |pq| ==> e.cost < pq[k].cost || (e.cost == pq[k].cost && e.id <= pq[k].id)
  {
    var best := 0;
    for k := 1 to |pq|
      invariant 0 <= best < k
      invariant forall j :: 0 <= j < k ==>
                              pq[best].cost < pq[j].cost || (pq[best].cost == pq[j].cost && pq[best].id <= pq[j].id)
    {
      if pq[k].cost < pq[best].cost || (pq[k].cost == pq[best].cost && pq[k].id < pq[best].id) {
        best := k;
      }
    }
    e := pq[best];
    rest := pq[..best] + pq[best + 1..];
  }

  function Taken(qs: seq<PhysicalQubit>, e: Node): seq<PhysicalQubit>
    requires e.id < |qs| && e.cost >= SWAP_DELAY
  {
    qs[e.id := qs[e.id].TakeRoute(e.cost, e.cost - SWAP_DELAY)]
  }

  lemma TakeKeepsChains(adj: seq<seq<nat>>, qs: seq<PhysicalQubit>, t0: nat, t1: nat, e: Node)
    requires ChainsOk(adj, qs, t0, t1) && QueuedOk(adj, qs, e)
    ensures e.cost >= SWAP_DELAY && ChainsOk(adj, Taken(qs, e), t0, t1) && SameDevice(qs, Taken(qs, e))
  {
    var qs' := Taken(qs, e);
    forall v | 0 <= v < |qs'| && qs'[v].taken ensures TakenOk(adj, qs', t0, t1, v) {
      if v != e.id { assert TakenOk(adj, qs, t0, t1, v); }
    }
    assert Logicals(qs') == Logicals(qs) && Occupied(qs') == Occupied(qs);
  }

  lemma RestOfQueue(pq: seq<Node>, k: nat, j: nat)
    requires k < |pq| && j < |pq| - 1
    ensures (pq[..k] + pq[k + 1..])[j] == pq[if j < k then j else j + 1]
  {
  }

  /** Taking a queued vertex keeps the rest of the queue in order. */
  lemma TakeKeepsQueue(adj: seq<seq<nat>>, qs: seq<PhysicalQubit>, pq: seq<Node>, k: nat)
    requires |qs| == |adj| && QueueOk(adj, qs, pq) && k < |pq|
    ensures pq[k].id < |qs| && pq[k].cost >= SWAP_DELAY
    ensures QueueOk(adj, Taken(qs, pq[k]), pq[..k] + pq[k + 1..])
  {
    var e := pq[k];
    assert QueuedOk(adj, qs, e);
    var qs' := Taken(qs, e);
    var rest := pq[..k] + pq[k + 1..];
    forall j | 0 <= j < |rest| ensures QueuedOk(adj, qs', rest[j]) {
      RestOfQueue(pq, k, j);
      assert QueuedOk(adj, qs, rest[j]);
    }
    forall i, j | 0 <= i < j < |rest| ensures rest[i].id != rest[j].id {
      RestOfQueue(pq, k, i);
      RestOfQueue(pq, k, j);
    }
    forall v | 0 <= v < |qs'| && qs'[v].marked && !qs'[v].taken ensures InQueue(rest, v) {
      assert InQueue(pq, v);
      var j :| 0 <= j < |pq| && pq[j].id == v;
      var i := if j < k then j else j - 1;
      RestOfQueue(pq, k, i);
      assert rest[i].id == v;
    }
  }

  lemma ConnectedReaches(adj: seq<seq<nat>>, s: set<nat>, u: nat, v: nat)
    requires Connected(adj) && u < |adj| && v < |adj| && u in s && Closed(adj, s)
    ensures v in s
  {
  }

  /** As long as the fronts have not met, the queue is not empty. */
  lemma QueueNotEmpty(adj: seq<seq<nat>>, qs: seq<PhysicalQubit>, pq: seq<Node>, t0: nat, t1: nat)
    requires Couplings(adj) && Connected(adj)
    requires ChainsOk(adj, qs, t0, t1) && QueueOk(adj, qs, pq) && AllSettled(adj, qs)
    ensures |pq| > 0
  {
    if |pq| == 0 {
      var s := set v | 0 <= v < |qs| && qs[v].taken && !qs[v].source;
      forall u, k | 0 <= u < |adj| && u in s && 0 <= k < |adj[u]| ensures adj[u][k] in s {
        assert Settled(adj, qs, u);
        assert qs[adj[u][k]].marked;
      }
      ConnectedReaches(adj, s, t0, t1);
    }
  }

  /** When the newly taken vertex touches nothing of the other side, all taken vertices are settled again. */
  lemma SettledAfter(adj: seq<seq<nat>>, before: seq<PhysicalQubit>, qs: seq<PhysicalQubit>, v: nat)
    requires Couplings(adj) && |before| == |qs| == |adj| && v < |qs|
    requires forall u :: 0 <= u < |qs| && qs[u].taken && u != v ==> before[u].taken && before[u].source == qs[u].source && Settled(adj, before, u)
    requires forall u :: 0 <= u < |qs| && before[u].marked ==> qs[u].marked && qs[u].source == before[u].source
    requires qs[v].taken && Settled(adj, qs, v)
    ensures AllSettled(adj, qs)
  {
    forall u | 0 <= u < |qs| && qs[u].taken ensures Settled(adj, qs, u) {
      if u != v {
        assert Settled(adj, before, u);
        forall k | 0 <= k < |adj[u]|
          ensures qs[adj[u][k]].marked && (qs[adj[u][k]].taken ==> qs[adj[u][k]].source == qs[u].source)
        {
          var w := adj[u][k];
          assert before[w].marked;
          if w == v {
            assert u in adj[v];
            var j :| 0 <= j < |adj[v]| && adj[v][j] == u;
            assert qs[adj[v][j]].taken;
          }
        }
      }
    }
  }

  function Untaken(qs: seq<PhysicalQubit>): set<nat> { set v | 0 <= v < |qs| && !qs[v].taken }
}
