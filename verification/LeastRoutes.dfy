/**
 How good the chains of the routing search are: whether every vertex it takes is reached at
 the earliest possible time.
 */
module LeastRoutes {
  import opened Devices
  import opened RoutingSearch
  import opened SearchOrder
  import opened Routers

  /** A chain of couplings from one of the sources. */
  predicate ChainFrom(adj: seq<seq<nat>>, t0: nat, t1: nat, c: seq<nat>) {
    && |c| > 0 && (c[0] == t0 || c[0] == t1)
    && (forall i :: 0 <= i < |c| ==> c[i] < |adj|)
    && forall i :: 0 <= i < |c| - 1 ==> c[i + 1] in adj[c[i]]
  }

  /** When the logical qubit of c[0] arrives at the end of the chain, every swap starting as soon as both its qubits are free. */
  function Arrival(qs: seq<PhysicalQubit>, c: seq<nat>): nat
    requires |c| > 0 && InBounds(qs, c)
  {
    var k := |c| - 1;
    if k == 0 then qs[c[0]].occupied else Max(Arrival(qs, c[..k]), qs[c[k]].occupied) + SWAP_DELAY
  }

  /** No chain from a source arrives at a taken vertex before the search does. */
  ghost predicate LeastCosts(adj: seq<seq<nat>>, qs: seq<PhysicalQubit>, t0: nat, t1: nat)
  {
    |qs| == |adj| && forall c: seq<nat> :: ChainFrom(adj, t0, t1, c) && qs[c[|c| - 1]].taken ==> qs[c[|c| - 1]].cost <= Arrival(qs, c)
  }

  /** The state in which a search has met. */
  predicate SearchEnd(adj: seq<seq<nat>>, qs: seq<PhysicalQubit>, t0: nat, t1: nat, q0: nat, q1: nat) {
    Couplings(adj) && Met(adj, qs, t0, t1, q0, q1) && Searched(adj, qs, t0, t1, q0, q1)
  }

  predicate AllBelow(qs: seq<PhysicalQubit>, time: nat) {
    forall v :: 0 <= v < |qs| && qs[v].taken ==> qs[v].cost <= time
  }

  /** The first source is free first, the second one not later than a swap after it. */
  predicate ReadyTogether(qs: seq<PhysicalQubit>, t0: nat, t1: nat)
    requires t0 < |qs| && t1 < |qs|
  {
    qs[t0].occupied <= qs[t1].occupied <= qs[t0].occupied + SWAP_DELAY
  }

  /** A vertex that is no source costs a swap more than the first source. */
  lemma {:induction false} AboveSource(adj: seq<seq<nat>>, qs: seq<PhysicalQubit>, t0: nat, t1: nat, v: nat)
    requires ChainsOk(adj, qs, t0, t1) && qs[t0].occupied <= qs[t1].occupied && v < |qs| && qs[v].taken
    ensures qs[t0].cost == qs[t0].occupied && qs[t1].cost == qs[t1].occupied
    ensures qs[v].cost >= qs[t0].occupied && (v != t0 && v != t1 ==> qs[v].cost >= qs[t0].occupied + SWAP_DELAY)
    decreases qs[v].cost
  {
    assert TakenOk(adj, qs, t0, t1, t0) && TakenOk(adj, qs, t0, t1, t1) && TakenOk(adj, qs, t0, t1, v);
    if !IsSource(qs, t0, t1, v) {
      AboveSource(adj, qs, t0, t1, qs[v].pred);
    }
  }

  /** A settled vertex reaches its neighbours no later than over itself. */
  lemma OverSettled(adj: seq<seq<nat>>, qs: seq<PhysicalQubit>, t0: nat, t1: nat, q0: nat, q1: nat, u: nat, v: nat, w: nat)
    requires SearchEnd(adj, qs, t0, t1, q0, q1) && ReadyTogether(qs, t0, t1)
    requires CheapestFirst(qs, t0, t1) && FirstMarked(adj, qs, t0, t1) && LastTaken(qs, t0, t1, u) && SettledBut(adj, qs, u)
    requires v < |qs| && qs[v].taken && v != u && w in adj[v] && w < |qs| && w != t0 && w != t1
    ensures
      var time := Max(qs[v].cost, qs[w].occupied) + SWAP_DELAY;
      if qs[w].taken then qs[w].cost <= time else AllBelow(qs, time)
  {
    hide SearchEnd, CheapestFirst, Couplings;
    EndShape(adj, qs, t0, t1, q0, q1);
    AboveSource(adj, qs, t0, t1, v);
    FromCheaper(adj, qs, t0, t1, v, w, u);
    if qs[w].taken {
      assert TakenOk(adj, qs, t0, t1, w);
    } else {
      WaitingIsAbove(adj, qs, t0, t1, u, w);
    }
  }

  lemma EndShape(adj: seq<seq<nat>>, qs: seq<PhysicalQubit>, t0: nat, t1: nat, q0: nat, q1: nat)
    requires SearchEnd(adj, qs, t0, t1, q0, q1)
    ensures ChainsOk(adj, qs, t0, t1) && |qs| == |adj| && t0 < |qs| && t1 < |qs| && qs[t0].taken && qs[t1].taken
  {
  }

  lemma FromCheaper(adj: seq<seq<nat>>, qs: seq<PhysicalQubit>, t0: nat, t1: nat, v: nat, w: nat, u: nat)
    requires ChainsOk(adj, qs, t0, t1) && ReadyTogether(qs, t0, t1) && FirstMarked(adj, qs, t0, t1) && SettledBut(adj, qs, u)
    requires v < |qs| && qs[v].taken && v != u && w in adj[v] && w < |qs| && w != t0 && w != t1
    ensures qs[w].marked && qs[w].pred < |qs| && qs[qs[w].pred].cost <= qs[v].cost
  {
    AboveSource(adj, qs, t0, t1, v);
    assert qs[w].marked;
    assert qs[w].pred == v || TakenBefore(qs, t0, t1, qs[w].pred, v);
  }

  /** What waits is more expensive than everything taken. */
  lemma WaitingIsAbove(adj: seq<seq<nat>>, qs: seq<PhysicalQubit>, t0: nat, t1: nat, u: nat, w: nat)
    requires ChainsOk(adj, qs, t0, t1) && ReadyTogether(qs, t0, t1) && CheapestFirst(qs, t0, t1) && LastTaken(qs, t0, t1, u)
    requires w < |qs| && qs[w].marked && !qs[w].taken && qs[w].pred < |qs|
    ensures AllBelow(qs, SwapEnd(qs, w))
  {
    LastIsMost(adj, qs, t0, t1, u);
    assert Precedes(qs[u].cost, u, SwapEnd(qs, w), w);
  }

  /** The vertex taken last is the most expensive one. */
  lemma LastIsMost(adj: seq<seq<nat>>, qs: seq<PhysicalQubit>, t0: nat, t1: nat, u: nat)
    requires ChainsOk(adj, qs, t0, t1) && ReadyTogether(qs, t0, t1) && LastTaken(qs, t0, t1, u)
    ensures AllBelow(qs, qs[u].cost)
  {
    AboveSource(adj, qs, t0, t1, u);
    forall x | 0 <= x < |qs| && qs[x].taken ensures qs[x].cost <= qs[u].cost {
      assert x != u ==> TakenBefore(qs, t0, t1, x, u);
    }
  }

  /** Along any chain, the search is at its end in time or had stopped before. */
  lemma {:induction false} ChainIsCovered(adj: seq<seq<nat>>, qs: seq<PhysicalQubit>, t0: nat, t1: nat, q0: nat, q1: nat, c: seq<nat>)
    requires SearchEnd(adj, qs, t0, t1, q0, q1) && ReadyTogether(qs, t0, t1) && ChainFrom(adj, t0, t1, c)
    ensures var v := c[|c| - 1]; (qs[v].taken && qs[v].cost <= Arrival(qs, c)) || AllBelow(qs, Arrival(qs, c))
  {
    hide Searched, Met, CheapestFirst, FirstMarked, LastTaken, SettledBut, FirstTouch;
    var k := |c| - 1;
    MetShape(adj, qs, t0, t1, q0, q1);
    AboveSource(adj, qs, t0, t1, t0);
    if k > 0 {
      var v, w := c[k - 1], c[k];
      assert ChainFrom(adj, t0, t1, c[..k]) && w in adj[v];
      ChainIsCovered(adj, qs, t0, t1, q0, q1, c[..k]);
      if !AllBelow(qs, Arrival(qs, c[..k])) {
        AboveSource(adj, qs, t0, t1, v);
        ChainGoesOn(adj, qs, t0, t1, q0, q1, v, w);
      }
    }
  }

  lemma MetShape(adj: seq<seq<nat>>, qs: seq<PhysicalQubit>, t0: nat, t1: nat, q0: nat, q1: nat)
    requires Met(adj, qs, t0, t1, q0, q1)
    ensures ChainsOk(adj, qs, t0, t1) && |qs| == |adj| && t0 < |qs| && t1 < |qs| && qs[t0].taken && qs[t1].taken
  {
  }

  lemma SourcesFirst(adj: seq<seq<nat>>, qs: seq<PhysicalQubit>, t0: nat, t1: nat)
    requires ChainsOk(adj, qs, t0, t1) && ReadyTogether(qs, t0, t1)
    ensures qs[t0].cost == qs[t0].occupied && qs[t1].cost == qs[t1].occupied
    ensures OnlySources(qs, t0, t1) ==> AllBelow(qs, qs[t0].occupied + SWAP_DELAY)
  {
    AboveSource(adj, qs, t0, t1, t0);
  }

  lemma ChainGoesOn(adj: seq<seq<nat>>, qs: seq<PhysicalQubit>, t0: nat, t1: nat, q0: nat, q1: nat, v: nat, w: nat)
    requires SearchEnd(adj, qs, t0, t1, q0, q1) && ReadyTogether(qs, t0, t1)
    requires v < |qs| && qs[v].taken && w in adj[v] && w < |qs|
    ensures
      var time := Max(qs[v].cost, qs[w].occupied) + SWAP_DELAY;
      (qs[w].taken && qs[w].cost <= time) || AllBelow(qs, time)
  {
    hide CheapestFirst, FirstMarked, LastTaken, SettledBut, FirstTouch, Couplings, ChainsOk;
    EndShape(adj, qs, t0, t1, q0, q1);
    AboveSource(adj, qs, t0, t1, v);
    SourcesFirst(adj, qs, t0, t1);
    if !OnlySources(qs, t0, t1) && w != t0 && w != t1 {
      var u := if Stopped(adj, qs, t0, t1, q0, q1) then q0 else q1;
      LastIsMost(adj, qs, t0, t1, u);
      if v != u { OverSettled(adj, qs, t0, t1, q0, q1, u, v, w); }
    }
  }

  /** If both operands become free within a swap of each other, every vertex is taken at its earliest time. */
  lemma SearchIsLeast(adj: seq<seq<nat>>, qs: seq<PhysicalQubit>, t0: nat, t1: nat, q0: nat, q1: nat)
    requires SearchEnd(adj, qs, t0, t1, q0, q1) && ReadyTogether(qs, t0, t1)
    ensures LeastCosts(adj, qs, t0, t1)
  {
    forall c: seq<nat> | ChainFrom(adj, t0, t1, c) && qs[c[|c| - 1]].taken ensures qs[c[|c| - 1]].cost <= Arrival(qs, c) {
      ChainIsCovered(adj, qs, t0, t1, q0, q1, c);
    }
  }

  // ---------- a busy operand ----------

  /** A line of four qubits. */
  const LINE: seq<seq<nat>> := [[1], [0, 2], [1, 3], [2]]

  predicate LineTimes(qs: seq<PhysicalQubit>, a: nat, b: nat) { Occupied(qs) == [a, 0, 0, b] }

  /** On a line with the operands at its ends, each source marks its neighbour at once, so the two neighbours meet. */
  lemma LineSearch(qs: seq<PhysicalQubit>, q0: nat, q1: nat, a: nat, b: nat)
    requires SearchEnd(LINE, qs, 0, 3, q0, q1) && LineTimes(qs, a, b)
    ensures q0 == 1 && q1 == 2 && qs[2].taken && qs[2].cost == b + SWAP_DELAY
  {
    assert |qs| == 4;
    assert Occupied(qs)[3] == b && Occupied(qs)[2] == 0;
    assert q1 in LINE[q0];
    assert !OnlySources(qs, 0, 3);
    assert 1 in LINE[0] && 2 in LINE[3];
    forall v | 0 <= v < 4 && qs[v].taken ensures TakenOk(LINE, qs, 0, 3, v) {
    }
    assert TakenOk(LINE, qs, 0, 3, 3);
    assert qs[1].taken ==> qs[1].pred == 0;
    assert qs[2].taken ==> qs[2].pred == 3;
  }

  /** The operand that is free early would be there before. */
  lemma LineIsNotLeast(qs: seq<PhysicalQubit>, q0: nat, q1: nat, a: nat, b: nat)
    requires SearchEnd(LINE, qs, 0, 3, q0, q1) && LineTimes(qs, a, b) && b > a + SWAP_DELAY
    ensures !LeastCosts(LINE, qs, 0, 3)
  {
    LineSearch(qs, q0, q1, a, b);
    var c: seq<nat> := [0, 1, 2];
    assert Occupied(qs)[0] == a && Occupied(qs)[1] == 0 && Occupied(qs)[2] == 0;
    var c1: seq<nat> := [0, 1];
    var c0: seq<nat> := [0];
    assert c[..2] == c1 && c1[..1] == c0;
    assert Arrival(qs, c0) == a;
    assert Arrival(qs, c1) == a + SWAP_DELAY;
    assert Arrival(qs, c) == a + 2 * SWAP_DELAY;
    assert ChainFrom(LINE, 0, 3, c);
  }

  function LineEnd(a: nat, b: nat): (qs: seq<PhysicalQubit>)
    requires a + SWAP_DELAY < b
    ensures LineTimes(qs, a, b) && |qs| == 4
  {
    [ PhysicalQubit(0, a, true, 0, a, 0, false, true),
      PhysicalQubit(1, 0, true, 0, a + SWAP_DELAY, a, false, true),
      PhysicalQubit(2, 0, true, 3, b + SWAP_DELAY, b, true, true),
      PhysicalQubit(3, b, true, 3, b, 0, true, true) ]
  }

  lemma LineEnds(a: nat, b: nat)
    requires a + SWAP_DELAY < b
    ensures SearchEnd(LINE, LineEnd(a, b), 0, 3, 1, 2)
  {
    var qs := LineEnd(a, b);
    assert LINE[2][0] == 1;
    assert Stopped(LINE, qs, 0, 3, 2, 1);
    assert Met(LINE, qs, 0, 3, 1, 2);
  }

  predicate FreeAt(qs: seq<PhysicalQubit>, t0: nat, t1: nat, a: nat, b: nat) {
    t0 < |qs| && t1 < |qs| && qs[t0].occupied == a && qs[t1].occupied == b
  }

  /** On every device, a search whose sources become free at a and b takes every vertex at its earliest time. */
  ghost predicate AlwaysLeast(a: nat, b: nat) {
    forall adj: seq<seq<nat>>, qs: seq<PhysicalQubit>, t0: nat, t1: nat, q0: nat, q1: nat ::
      SearchEnd(adj, qs, t0, t1, q0, q1) && FreeAt(qs, t0, t1, a, b) ==> LeastCosts(adj, qs, t0, t1)
  }

  /** It does if and only if the second source becomes free at most a swap after the first. */
  lemma LeastIffReadyTogether(a: nat, b: nat)
    requires a <= b
    ensures AlwaysLeast(a, b) <==> b <= a + SWAP_DELAY
  {
    hide SearchEnd, LeastCosts;
    if b <= a + SWAP_DELAY {
      forall adj: seq<seq<nat>>, qs: seq<PhysicalQubit>, t0: nat, t1: nat, q0: nat, q1: nat
        | SearchEnd(adj, qs, t0, t1, q0, q1) && FreeAt(qs, t0, t1, a, b)
        ensures LeastCosts(adj, qs, t0, t1)
      {
        SearchIsLeast(adj, qs, t0, t1, q0, q1);
      }
    } else {
      var qs := LineEnd(a, b);
      LineEnds(a, b);
      assert qs[0].occupied == a && qs[3].occupied == b by {
        assert Occupied(qs)[0] == a && Occupied(qs)[3] == b;
      }
      assert FreeAt(qs, 0, 3, a, b);
      LineIsNotLeast(qs, 1, 2, a, b);
    }
  }
}
