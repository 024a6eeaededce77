/**
 All-pairs shortest paths on the coupling graph: the in-place triple loop with a finite
 sentinel for "unreachable", and the paths read back from the predecessor table.
 */
module ShortestPaths {
  import opened Circuits
  import opened Devices

  const MAX_DIST := 100000

  // ---------- walks ----------

  predicate Walk(adj: seq<seq<nat>>, w: seq<nat>) {
    && |w| > 0 && (forall t :: 0 <= t < |w| ==> w[t] < |adj|)
    && forall t :: 0 <= t < |w| - 1 ==> w[t + 1] in adj[w[t]]
  }

  /** A walk from i to j. */
  predicate Between(adj: seq<seq<nat>>, w: seq<nat>, i: nat, j: nat) {
    Walk(adj, w) && w[0] == i && w[|w| - 1] == j
  }

  /** A walk from i to j whose inner vertices are below k. */
  predicate Route(adj: seq<seq<nat>>, w: seq<nat>, k: nat, i: nat, j: nat) {
    Between(adj, w, i, j) && forall t :: 0 < t < |w| - 1 ==> w[t] < k
  }

  /** The vertex before the last one. */
  function LastStep(w: seq<nat>): Option<nat> { if |w| > 1 then Some(w[|w| - 2]) else None }

  lemma RouteMore(adj: seq<seq<nat>>, w: seq<nat>, k: nat, i: nat, j: nat)
    requires Route(adj, w, k, i, j)
    ensures Route(adj, w, k + 1, i, j)
  {
  }

  /** Two routes that meet in k make one route. */
  lemma Join(adj: seq<seq<nat>>, w1: seq<nat>, w2: seq<nat>, k: nat, i: nat, j: nat)
    requires Route(adj, w1, k, i, k) && Route(adj, w2, k, k, j)
    ensures Route(adj, w1 + w2[1..], k + 1, i, j)
    ensures |w2| > 1 ==> LastStep(w1 + w2[1..]) == LastStep(w2)
  {
    var w := w1 + w2[1..];
    forall t | 0 <= t < |w| ensures w[t] == if t < |w1| then w1[t] else w2[t - |w1| + 1] { }
  }

  /** A route that passes k inside consists of a part up to the first and a part from the last visit of k. */
  lemma Split(adj: seq<seq<nat>>, w: seq<nat>, k: nat, i: nat, j: nat) returns (a: nat, b: nat)
    requires Route(adj, w, k + 1, i, j) && !Route(adj, w, k, i, j)
    ensures a <= b < |w| && Route(adj, w[..a + 1], k, i, k) && Route(adj, w[b..], k, k, j)
  {
    var some :| 0 < some < |w| - 1 && w[some] >= k;
    a := 1;
    while w[a] != k
      invariant 0 < a <= some
      invariant forall t :: 0 < t < a ==> w[t] != k
      decreases some - a
    {
      a := a + 1;
    }
    b := |w| - 2;
    while w[b] != k
      invariant a <= b < |w| - 1
      invariant forall t :: b < t < |w| - 1 ==> w[t] != k
      decreases b
    {
      b := b - 1;
    }
    PartsOfRoute(adj, w, k, i, j, a, b);
  }

  lemma PartsOfRoute(adj: seq<seq<nat>>, w: seq<nat>, k: nat, i: nat, j: nat, a: nat, b: nat)
    requires Route(adj, w, k + 1, i, j) && 0 < a <= b < |w| - 1 && w[a] == k && w[b] == k
    requires (forall t :: 0 < t < a ==> w[t] != k) && forall t :: b < t < |w| - 1 ==> w[t] != k
    ensures Route(adj, w[..a + 1], k, i, k) && Route(adj, w[b..], k, k, j)
  {
    var first, rest := w[..a + 1], w[b..];
    forall t | 0 < t < |first| - 1 ensures first[t] < k { assert first[t] == w[t] < k + 1; }
    forall t | 0 < t < |rest| - 1 ensures rest[t] < k { assert rest[t] == w[b + t] < k + 1; }
  }

  // ---------- one entry of the tables ----------

  predicate Witness(adj: seq<seq<nat>>, w: seq<nat>, k: nat, i: nat, j: nat, d: nat, p: Option<nat>) {
    Route(adj, w, k, i, j) && |w| - 1 == d && p == LastStep(w)
  }

  ghost predicate HasWitness(adj: seq<seq<nat>>, k: nat, i: nat, j: nat, d: nat, p: Option<nat>) {
    exists w :: Witness(adj, w, k, i, j, d, p)
  }

  /** d is the length of a shortest route with inner vertices below k, the sentinel if there is none that is shorter than it. */
  ghost predicate Exact(adj: seq<seq<nat>>, k: nat, i: nat, j: nat, d: nat, p: Option<nat>) {
    && d <= MAX_DIST
    && (d < MAX_DIST ==> HasWitness(adj, k, i, j, d, p))
    && (d == MAX_DIST ==> p == None)
    && forall w :: Route(adj, w, k, i, j) ==> d <= |w| - 1
  }

  /** What the innermost statement does with one entry. */
  function Relaxed(dij: nat, pij: Option<nat>, dik: nat, dkj: nat, pkj: Option<nat>): (nat, Option<nat>) {
    if dij > dik + dkj && dik != MAX_DIST then (dik + dkj, pkj) else (dij, pij)
  }

  lemma RelaxedIsExact(adj: seq<seq<nat>>, k: nat, i: nat, j: nat, dij: nat, pij: Option<nat>, dik: nat, pik: Option<nat>, dkj: nat, pkj: Option<nat>)
    requires k < |adj| && Exact(adj, k, i, j, dij, pij) && Exact(adj, k, i, k, dik, pik) && Exact(adj, k, k, j, dkj, pkj)
    ensures var r := Relaxed(dij, pij, dik, dkj, pkj); Exact(adj, k + 1, i, j, r.0, r.1)
  {
    var r := Relaxed(dij, pij, dik, dkj, pkj);
    RelaxedHasRoute(adj, k, i, j, dij, pij, dik, pik, dkj, pkj);
    forall w | Route(adj, w, k + 1, i, j) ensures r.0 <= |w| - 1 {
      if !Route(adj, w, k, i, j) {
        var a, b := Split(adj, w, k, i, j);
        assert dik <= |w[..a + 1]| - 1 && dkj <= |w[b..]| - 1;
      }
    }
  }

  lemma RelaxedHasRoute(adj: seq<seq<nat>>, k: nat, i: nat, j: nat, dij: nat, pij: Option<nat>, dik: nat, pik: Option<nat>, dkj: nat, pkj: Option<nat>)
    requires k < |adj| && Exact(adj, k, i, j, dij, pij) && Exact(adj, k, i, k, dik, pik) && Exact(adj, k, k, j, dkj, pkj)
    ensures var r := Relaxed(dij, pij, dik, dkj, pkj);
      r.0 < MAX_DIST ==> HasWitness(adj, k + 1, i, j, r.0, r.1)
  {
    var r := Relaxed(dij, pij, dik, dkj, pkj);
    if dij > dik + dkj && dik != MAX_DIST {
      var w1 :| Witness(adj, w1, k, i, k, dik, pik);
      var w2 :| Witness(adj, w2, k, k, j, dkj, pkj);
      Join(adj, w1, w2, k, i, j);
      assert |w2| > 1 by {
        assert |w2| == 1 ==> Route(adj, w1, k, i, j);
      }
      assert Witness(adj, w1 + w2[1..], k + 1, i, j, r.0, r.1);
    } else if r.0 < MAX_DIST {
      var w :| Witness(adj, w, k, i, j, dij, pij);
      RouteMore(adj, w, k, i, j);
      assert Witness(adj, w, k + 1, i, j, r.0, r.1);
    }
  }

  // ---------- simple walks ----------

  predicate Simple(w: seq<nat>) { forall s, t :: 0 <= s < t < |w| ==> w[s] != w[t] }

  /** Every walk can be cut down to one that visits no vertex twice. */
  lemma {:induction false} Shorten(adj: seq<seq<nat>>, w: seq<nat>, i: nat, j: nat) returns (r: seq<nat>)
    requires Between(adj, w, i, j)
    ensures Between(adj, r, i, j) && Simple(r)
    decreases |w|
  {
    if Simple(w) {
      r := w;
    } else {
      var s, t :| 0 <= s < t < |w| && w[s] == w[t];
      var cut := w[..s] + w[t..];
      forall u | 0 <= u < |cut| ensures cut[u] == if u < s then w[u] else w[u - s + t] { }
      r := Shorten(adj, cut, i, j);
    }
  }

  lemma {:induction false} SimpleIsShort(w: seq<nat>, n: nat, s: set<nat>)
    requires Simple(w) && (forall t :: 0 <= t < |w| ==> w[t] < n) && s == set t | 0 <= t < |w| :: w[t]
    ensures |w| == |s| && |s| <= n
    decreases |w|
  {
    if |w| > 0 {
      var init := w[..|w| - 1];
      var s' := set t | 0 <= t < |init| :: init[t];
      SimpleIsShort(init, n, s');
      assert s == s' + {w[|w| - 1]};
    }
    Bounded(s, n);
  }

  lemma {:induction false} Bounded(s: set<nat>, n: nat)
    requires forall x :: x in s ==> x < n
    ensures |s| <= n
  {
    if n > 0 {
      Bounded(s - {n - 1}, n - 1);
    } else {
      assert s == {};
    }
  }

  /** Reachable vertices are fewer than n steps away. */
  lemma ReachableIsNear(adj: seq<seq<nat>>, w: seq<nat>, i: nat, j: nat) returns (r: seq<nat>)
    requires Between(adj, w, i, j)
    ensures Between(adj, r, i, j) && |r| - 1 < |adj|
  {
    r := Shorten(adj, w, i, j);
    SimpleIsShort(r, |adj|, set t | 0 <= t < |r| :: r[t]);
  }

  /** With couplings in both directions a walk can be taken backwards. */
  lemma BackWalk(adj: seq<seq<nat>>, w: seq<nat>, i: nat, j: nat)
    requires Couplings(adj) && Between(adj, w, i, j)
    ensures exists r :: Between(adj, r, j, i) && |r| == |w|
  {
    var r := seq(|w|, t requires 0 <= t < |w| => w[|w| - 1 - t]);
    forall t | 0 <= t < |r| - 1 ensures r[t + 1] in adj[r[t]] {
      var u := |w| - 2 - t;
      assert w[u + 1] in adj[w[u]];
      var x :| 0 <= x < |adj[w[u]]| && adj[w[u]][x] == w[u + 1];
      assert w[u] in adj[adj[w[u]][x]];
    }
    assert Between(adj, r, j, i);
  }

  // ---------- what the finished tables mean ----------

  ghost predicate Reachable(adj: seq<seq<nat>>, i: nat, j: nat) { exists w :: Between(adj, w, i, j) }

  ghost predicate IsDistance(adj: seq<seq<nat>>, i: nat, j: nat, d: nat) {
    && (exists w :: Between(adj, w, i, j) && |w| - 1 == d)
    && forall w :: Between(adj, w, i, j) ==> d <= |w| - 1
  }

  lemma ExactIsDistance(adj: seq<seq<nat>>, i: nat, j: nat, d: nat, p: Option<nat>)
    requires |adj| <= MAX_DIST && Exact(adj, |adj|, i, j, d, p)
    ensures d == MAX_DIST <==> !Reachable(adj, i, j)
    ensures d < MAX_DIST ==> IsDistance(adj, i, j, d)
  {
    forall w | Between(adj, w, i, j) ensures d <= |w| - 1 && d < MAX_DIST {
      assert Route(adj, w, |adj|, i, j);
      var r := ReachableIsNear(adj, w, i, j);
      assert Route(adj, r, |adj|, i, j);
    }
    if d < MAX_DIST {
      var w :| Witness(adj, w, |adj|, i, j, d, p);
    }
  }

  /** The predecessor of j on the way from i is a neighbour of j and one step closer to i. */
  lemma PredecessorIsCloser(adj: seq<seq<nat>>, i: nat, j: nat, d: nat, p: Option<nat>, dip: nat, pip: Option<nat>)
    requires |adj| <= MAX_DIST && Exact(adj, |adj|, i, j, d, p) && p.Some?
    requires Exact(adj, |adj|, i, p.value, dip, pip)
    ensures p.value < |adj| && j in adj[p.value] && d == dip + 1
  {
    var w :| Witness(adj, w, |adj|, i, j, d, p);
    var short := w[..|w| - 1];
    assert Route(adj, short, |adj|, i, p.value);
    var u :| Witness(adj, u, |adj|, i, p.value, dip, pip);
    assert Route(adj, u + [j], |adj|, i, j);
  }

  lemma NoPredecessorIsHome(adj: seq<seq<nat>>, i: nat, j: nat, d: nat, p: Option<nat>)
    requires Exact(adj, |adj|, i, j, d, p) && d < MAX_DIST
    ensures p.None? <==> i == j
    ensures p.None? <==> d == 0
  {
    var w :| Witness(adj, w, |adj|, i, j, d, p);
    if i == j && i < |adj| {
      assert Route(adj, [i], |adj|, i, j);
    }
  }

  // ---------- the tables ----------

  function Update<T>(t: seq<seq<T>>, i: nat, j: nat, v: T): seq<seq<T>>
    requires i < |t| && j < |t[i]|
  {
    t[i := t[i][j := v]]
  }

  lemma Unchanged<T>(t: seq<seq<T>>, i: nat, j: nat)
    requires i < |t| && j < |t[i]|
    ensures Update(t, i, j, t[i][j]) == t
  {
    assert t[i][j := t[i][j]] == t[i];
  }

  predicate Table<T>(t: seq<seq<T>>, n: nat) { |t| == n && forall i :: 0 <= i < n ==> |t[i]| == n }

  ghost predicate EntryExact(adj: seq<seq<nat>>, dist: seq<seq<nat>>, pred: seq<seq<Option<nat>>>, k: nat, i: nat, j: nat)
    requires Table(dist, |adj|) && Table(pred, |adj|) && i < |adj| && j < |adj|
  {
    Exact(adj, k, i, j, dist[i][j], pred[i][j])
  }

  ghost predicate AllExact(adj: seq<seq<nat>>, dist: seq<seq<nat>>, pred: seq<seq<Option<nat>>>, k: nat) {
    && Table(dist, |adj|) && Table(pred, |adj|)
    && forall i, j :: 0 <= i < |adj| && 0 <= j < |adj| ==> EntryExact(adj, dist, pred, k, i, j)
  }

  /** Entries of row and column k do not change in round k. */
  lemma RoundKeepsCross(adj: seq<seq<nat>>, dist: seq<seq<nat>>, pred: seq<seq<Option<nat>>>, k: nat, i: nat, j: nat)
    requires k < |adj| && AllExact(adj, dist, pred, k) && i < |adj| && j < |adj|
    ensures i == k || j == k ==> Relaxed(dist[i][j], pred[i][j], dist[i][k], dist[k][j], pred[k][j]) == (dist[i][j], pred[i][j])
  {
    assert EntryExact(adj, dist, pred, k, k, k);
    assert Route(adj, [k], k, k, k);
    assert dist[k][k] == 0;
  }

  /** The entry of the pair (i, j) after round k, computed from the tables before the round. */
  function After(dist: seq<seq<nat>>, pred: seq<seq<Option<nat>>>, n: nat, k: nat, i: nat, j: nat): (nat, Option<nat>)
    requires Table(dist, n) && Table(pred, n) && k < n && i < n && j < n
  {
    Relaxed(dist[i][j], pred[i][j], dist[i][k], dist[k][j], pred[k][j])
  }

  /** In round k all pairs before (i, j) have been relaxed, the others have not. */
  predicate InRound(d0: seq<seq<nat>>, p0: seq<seq<Option<nat>>>, dist: seq<seq<nat>>, pred: seq<seq<Option<nat>>>, n: nat, k: nat, i: nat, j: nat) {
    && Table(d0, n) && Table(p0, n) && Table(dist, n) && Table(pred, n) && k < n
    && forall a, b :: 0 <= a < n && 0 <= b < n ==>
         (dist[a][b], pred[a][b]) == if a < i || (a == i && b < j) then After(d0, p0, n, k, a, b) else (d0[a][b], p0[a][b])
  }

  lemma RoundStep(adj: seq<seq<nat>>, d0: seq<seq<nat>>, p0: seq<seq<Option<nat>>>, dist: seq<seq<nat>>, pred: seq<seq<Option<nat>>>, k: nat, i: nat, j: nat)
    requires AllExact(adj, d0, p0, k) && InRound(d0, p0, dist, pred, |adj|, k, i, j) && i < |adj| && j < |adj|
    ensures var r := Relaxed(dist[i][j], pred[i][j], dist[i][k], dist[k][j], pred[k][j]);
      InRound(d0, p0, Update(dist, i, j, r.0), Update(pred, i, j, r.1), |adj|, k, i, j + 1)
  {
    RoundKeepsCross(adj, d0, p0, k, i, k);
    RoundKeepsCross(adj, d0, p0, k, k, j);
  }

  lemma RoundEnds(adj: seq<seq<nat>>, d0: seq<seq<nat>>, p0: seq<seq<Option<nat>>>, dist: seq<seq<nat>>, pred: seq<seq<Option<nat>>>, k: nat)
    requires AllExact(adj, d0, p0, k) && InRound(d0, p0, dist, pred, |adj|, k, |adj|, 0)
    ensures AllExact(adj, dist, pred, k + 1)
  {
    var next := k + 1;
    forall i, j | 0 <= i < |adj| && 0 <= j < |adj| ensures EntryExact(adj, dist, pred, next, i, j) {
      assert EntryExact(adj, d0, p0, k, i, j) && EntryExact(adj, d0, p0, k, i, k) && EntryExact(adj, d0, p0, k, k, j);
      RelaxedIsExact(adj, k, i, j, d0[i][j], p0[i][j], d0[i][k], p0[i][k], d0[k][j], p0[k][j]);
      assert (dist[i][j], pred[i][j]) == After(d0, p0, |adj|, k, i, j);
    }
  }

  function InitialDistance(adj: seq<seq<nat>>, i: nat, j: nat): nat
    requires i < |adj|
  {
    if j in adj[i] then 1 else if i == j then 0 else MAX_DIST
  }

  function InitialPredecessor(adj: seq<seq<nat>>, i: nat, j: nat): Option<nat>
    requires i < |adj|
  {
    if InitialDistance(adj, i, j) != 0 && InitialDistance(adj, i, j) != MAX_DIST then Some(i) else None
  }

  /** Before the first round the tables know exactly the routes without inner vertices. */
  lemma InitialIsExact(adj: seq<seq<nat>>, i: nat, j: nat)
    requires Couplings(adj) && i < |adj| && j < |adj|
    ensures Exact(adj, 0, i, j, InitialDistance(adj, i, j), InitialPredecessor(adj, i, j))
  {
    var d, p := InitialDistance(adj, i, j), InitialPredecessor(adj, i, j);
    if j in adj[i] {
      assert Witness(adj, [i, j], 0, i, j, d, p);
    } else if i == j {
      assert Witness(adj, [i], 0, i, j, d, p);
    }
    forall w | Route(adj, w, 0, i, j) ensures d <= |w| - 1 {
      assert |w| > 2 ==> w[1] < 0;
    }
  }

  class Topology {
    const adj: seq<seq<nat>>
    var distance: seq<seq<nat>>
    var predecessor: seq<seq<Option<nat>>>

    /** The tables hold the hop distances and the last steps of shortest walks. */
    ghost predicate Solved()
      reads this
    {
      Couplings(adj) && AllExact(adj, distance, predecessor, |adj|)
    }

    constructor (adj: seq<seq<nat>>)
      ensures this.adj == adj
    {
      this.adj := adj;
      distance, predecessor := [], [];
    }

    /** Fills the tables from the couplings. */
    method Initialize()
      requires Couplings(adj)
      modifies this
      ensures AllExact(adj, distance, predecessor, 0)
    {
      var n := |adj|;
      distance := seq(n, i requires 0 <= i < n => seq(n, j requires 0 <= j < n => InitialDistance(adj, i, j)));
      predecessor := seq(n, i requires 0 <= i < n => seq(n, j requires 0 <= j < n => InitialPredecessor(adj, i, j)));
      forall i, j | 0 <= i < n && 0 <= j < n ensures EntryExact(adj, distance, predecessor, 0, i, j) {
        InitialIsExact(adj, i, j);
      }
    }

    /** The triple loop, in place. */
    method FloydWarshall()
      requires Couplings(adj)
      modifies this
      ensures Solved()
    {
      Initialize();
      for k := 0 to |adj|
        invariant AllExact(adj, distance, predecessor, k)
      {
        Round(k);
      }
    }

    /** One round: every pair tries the way through k. */
    method Round(k: nat)
      requires k < |adj| && AllExact(adj, distance, predecessor, k)
      modifies this
      ensures AllExact(adj, distance, predecessor, k + 1)
    {
      ghost var d0, p0 := distance, predecessor;
      for i := 0 to |adj|
        invariant InRound(d0, p0, distance, predecessor, |adj|, k, i, 0)
      {
        for j := 0 to |adj|
          invariant InRound(d0, p0, distance, predecessor, |adj|, k, i, j)
        {
          RoundStep(adj, d0, p0, distance, predecessor, k, i, j);
          if distance[i][j] > distance[i][k] + distance[k][j] && distance[i][k] != MAX_DIST {
            var d, p := distance[i][k] + distance[k][j], predecessor[k][j];
            distance := Update(distance, i, j, d);
            predecessor := Update(predecessor, i, j, p);
          } else {
            Unchanged(distance, i, j);
            Unchanged(predecessor, i, j);
          }
        }
      }
      RoundEnds(adj, d0, p0, distance, predecessor, k);
    }

    /** The entries are the hop distances, the sentinel exactly for unreachable pairs. */
    lemma DistancesAreRight(i: nat, j: nat)
      requires Solved() && |adj| <= MAX_DIST && i < |adj| && j < |adj|
      ensures distance[i][j] <= MAX_DIST
      ensures distance[i][j] == MAX_DIST <==> !Reachable(adj, i, j)
      ensures distance[i][j] < MAX_DIST ==> IsDistance(adj, i, j, distance[i][j])
    {
      assert EntryExact(adj, distance, predecessor, |adj|, i, j);
      ExactIsDistance(adj, i, j, distance[i][j], predecessor[i][j]);
    }

    /** A finite predecessor entry is a neighbour one hop closer. */
    lemma PredecessorsAreCloser(i: nat, j: nat)
      requires Solved() && |adj| <= MAX_DIST && i < |adj| && j < |adj| && distance[i][j] < MAX_DIST
      ensures predecessor[i][j].None? <==> i == j
      ensures predecessor[i][j].Some? ==>
        var p := predecessor[i][j].value; p < |adj| && j in adj[p] && p in adj[j] && distance[i][j] == distance[i][p] + 1
    {
      assert EntryExact(adj, distance, predecessor, |adj|, i, j);
      NoPredecessorIsHome(adj, i, j, distance[i][j], predecessor[i][j]);
      if predecessor[i][j].Some? {
        var w :| Witness(adj, w, |adj|, i, j, distance[i][j], predecessor[i][j]);
        var p := predecessor[i][j].value;
        assert p == w[|w| - 2];
        assert EntryExact(adj, distance, predecessor, |adj|, i, p);
        PredecessorIsCloser(adj, i, j, distance[i][j], predecessor[i][j], distance[i][p], predecessor[i][p]);
        var t :| 0 <= t < |adj[p]| && adj[p][t] == j;
        assert p in adj[adj[p][t]];
      }
    }

    /** The qubits on the way from src to dest, both included; follows the predecessors on the way from dest. */
    method GetPath(src: nat, dest: nat) returns (path: seq<nat>)
      requires Solved() && |adj| <= MAX_DIST && src < |adj| && dest < |adj| && distance[dest][src] != MAX_DIST
      ensures Between(adj, path, src, dest) && |path| - 1 == distance[dest][src]
      ensures forall w :: Between(adj, w, src, dest) ==> |path| <= |w|
    {
      path := [src];
      DistancesAreRight(dest, src);
      forall w | Between(adj, w, src, dest) ensures distance[dest][src] <= |w| - 1 {
        BackWalk(adj, w, src, dest);
      }
      PredecessorsAreCloser(dest, src);
      if src == dest {
        return;
      }
      var cur: nat := predecessor[dest][src].value;
      path := path + [cur];
      while predecessor[dest][cur].Some?
        invariant cur < |adj| && Between(adj, path, src, cur)
        invariant distance[dest][cur] < MAX_DIST && |path| - 1 + distance[dest][cur] == distance[dest][src]
        decreases distance[dest][cur]
      {
        PredecessorsAreCloser(dest, cur);
        cur := predecessor[dest][cur].value;
        path := path + [cur];
      }
      PredecessorsAreCloser(dest, cur);
      HomeIsZero(dest);
    }

    lemma HomeIsZero(i: nat)
      requires Solved() && i < |adj|
      ensures distance[i][i] == 0
    {
      assert EntryExact(adj, distance, predecessor, |adj|, i, i);
      assert Route(adj, [i], |adj|, i, i);
    }
  }
}
