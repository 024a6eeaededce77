/**
 Initial placements: the identity, a shuffled order, or the order of a depth-first search of
 the device.  Every placer puts every logical qubit on a physical one of its own.
 */
module Placers {
  import opened Sequences
  import opened Devices
  import opened Routers
  import opened RoutingSearch
  import opened TimedReplay

  /** The shuffles of the random placer, one for every time it is asked. */
  datatype Placer = Static | Shuffle(draws: nat -> seq<nat>) | Dfs

  /** A shuffle permutes the qubits; the search starts at qubit 0 and reaches connected devices. */
  ghost predicate PlacerOk(p: Placer, adj: seq<seq<nat>>) {
    match p
    case Static => true
    case Shuffle(draws) => forall t :: Placement(draws(t), |adj|)
    case Dfs => |adj| > 0 && Connected(adj)
  }

  // ---------- depth-first search ----------

  /** The list holds exactly the marked qubits, each once. */
  ghost predicate Listed(assign: seq<nat>, marks: seq<bool>) {
    && Distinct(assign)
    && (forall i :: 0 <= i < |assign| ==> assign[i] < |marks| && marks[assign[i]])
    && forall v :: 0 <= v < |marks| && marks[v] ==> v in assign
  }

  predicate MoreMarks(before: seq<bool>, after: seq<bool>) {
    |after| == |before| && forall v :: 0 <= v < |before| && before[v] ==> after[v]
  }

  predicate NeighboursMarked(adj: seq<seq<nat>>, marks: seq<bool>, u: nat)
    requires u < |adj|
  {
    forall j :: 0 <= j < |adj[u]| ==> adj[u][j] < |marks| && marks[adj[u][j]]
  }

  /** All neighbours of qubits marked since are marked; only `open` may have others. */
  predicate ClosedSince(adj: seq<seq<nat>>, before: seq<bool>, after: seq<bool>, open: set<nat>) {
    && MoreMarks(before, after) && |before| == |adj|
    && forall u :: 0 <= u < |adj| && after[u] && !before[u] && u !in open ==> NeighboursMarked(adj, after, u)
  }

  lemma ClosedLater(adj: seq<seq<nat>>, start: seq<bool>, mid: seq<bool>, end: seq<bool>, open: set<nat>)
    requires ClosedSince(adj, start, mid, open) && ClosedSince(adj, mid, end, {})
    ensures ClosedSince(adj, start, end, open)
  {
    forall u | 0 <= u < |adj| && end[u] && !start[u] && u !in open ensures NeighboursMarked(adj, end, u) {
      if mid[u] { assert NeighboursMarked(adj, mid, u); } else { assert NeighboursMarked(adj, end, u); }
    }
  }

  lemma ListedRoom(assign: seq<nat>, marks: seq<bool>, v: nat)
    requires Listed(assign, marks) && v < |marks| && !marks[v]
    ensures |assign| < |marks| && Listed(assign + [v], marks[v := true])
  {
    assert forall x :: x in assign + [v] ==> x in Below(|marks|);
    DistinctBound(assign + [v], Below(|marks|));
  }

  /** The first k neighbours of a qubit are marked or wait. */
  predicate Seen(adj: seq<seq<nat>>, marks: seq<bool>, u: nat, k: nat, waiting: seq<nat>)
    requires u < |adj| && k <= |adj[u]|
  {
    forall j :: 0 <= j < k ==> adj[u][j] < |marks| && (marks[adj[u][j]] || adj[u][j] in waiting)
  }

  /** The list and the marks of a search. */
  datatype Walk = Walk(assign: seq<nat>, marks: seq<bool>)

  function Unmarked(marks: seq<bool>): nat {
    if |marks| == 0 then 0 else Unmarked(marks[..|marks| - 1]) + if marks[|marks| - 1] then 0 else 1
  }

  lemma {:induction false} FewerUnmarked(before: seq<bool>, after: seq<bool>)
    requires MoreMarks(before, after)
    ensures Unmarked(after) <= Unmarked(before)
    ensures (exists v :: 0 <= v < |before| && after[v] && !before[v]) ==> Unmarked(after) < Unmarked(before)
  {
    if |before| > 0 {
      var k := |before| - 1;
      FewerUnmarked(before[..k], after[..k]);
      if v :| 0 <= v < |before| && after[v] && !before[v] {
        if v < k { assert after[..k][v] && !before[..k][v]; }
      }
    }
  }

  /** Writes down a qubit and marks it. */
  function Enter(w: Walk, v: nat): (r: Walk)
    requires v < |w.marks| && !w.marks[v]
    ensures |r.marks| == |w.marks| && r.marks[v] && MoreMarks(w.marks, r.marks) && Unmarked(r.marks) < Unmarked(w.marks)
  {
    var r := Walk(w.assign + [v], w.marks[v := true]);
    FewerUnmarked(w.marks, r.marks);
    r
  }

  predicate Extends(w: Walk, r: Walk) { MoreMarks(w.marks, r.marks) && Unmarked(r.marks) <= Unmarked(w.marks) }

  /** The search from a qubit, which depends on nothing but the couplings and what has been marked. */
  function DfsFrom(current: nat, adj: seq<seq<nat>>, w: Walk): (r: Walk)
    requires Couplings(adj) && |w.marks| == |adj| && current < |adj| && !w.marks[current]
    ensures Extends(w, r)
    decreases Unmarked(w.marks), 0, 0
  {
    var at := Enter(w, current);
    var (after, waiting) := DfsNeighbours(current, adj, at, 0, []);
    DfsRest(adj, after, waiting)
  }

  /** The neighbours from the k-th on: searched at once if there is only one, else left waiting. */
  function DfsNeighbours(current: nat, adj: seq<seq<nat>>, w: Walk, k: nat, waiting: seq<nat>): (r: (Walk, seq<nat>))
    requires Couplings(adj) && |w.marks| == |adj| && current < |adj| && k <= |adj[current]|
    requires forall i :: 0 <= i < |waiting| ==> waiting[i] < |adj|
    ensures Extends(w, r.0) && forall i :: 0 <= i < |r.1| ==> r.1[i] < |adj|
    decreases Unmarked(w.marks), 1, |adj[current]| - k
  {
    if k == |adj[current]| then (w, waiting)
    else
      var next := adj[current][k];
      if w.marks[next] then DfsNeighbours(current, adj, w, k + 1, waiting)
      else if |adj[current]| == 1 then DfsNeighbours(current, adj, DfsFrom(next, adj, w), k + 1, waiting)
      else DfsNeighbours(current, adj, w, k + 1, waiting + [next])
  }

  /** Those that wait and have not been marked in the meantime. */
  function DfsRest(adj: seq<seq<nat>>, w: Walk, waiting: seq<nat>): (r: Walk)
    requires Couplings(adj) && |w.marks| == |adj| && forall i :: 0 <= i < |waiting| ==> waiting[i] < |adj|
    ensures Extends(w, r)
    decreases Unmarked(w.marks), 1, |waiting|
  {
    if |waiting| == 0 then w
    else if w.marks[waiting[0]] then DfsRest(adj, w, waiting[1..])
    else DfsRest(adj, DfsFrom(waiting[0], adj, w), waiting[1..])
  }

  /** One step through the neighbours. */
  lemma NeighboursStep(current: nat, adj: seq<seq<nat>>, w: Walk, k: nat, waiting: seq<nat>)
    requires Couplings(adj) && |w.marks| == |adj| && current < |adj| && k < |adj[current]|
    requires forall i :: 0 <= i < |waiting| ==> waiting[i] < |adj|
    ensures adj[current][k] < |adj|
    ensures
      var next := adj[current][k];
      DfsNeighbours(current, adj, w, k, waiting)
      == if w.marks[next] then DfsNeighbours(current, adj, w, k + 1, waiting)
         else if |adj[current]| == 1 then DfsNeighbours(current, adj, DfsFrom(next, adj, w), k + 1, waiting)
         else DfsNeighbours(current, adj, w, k + 1, waiting + [next])
  {
  }

  /** The search once all neighbours have been looked at. */
  lemma FromEnds(current: nat, adj: seq<seq<nat>>, w: Walk, after: Walk, waiting: seq<nat>)
    requires Couplings(adj) && |w.marks| == |after.marks| == |adj| && current < |adj| && !w.marks[current]
    requires forall i :: 0 <= i < |waiting| ==> waiting[i] < |adj|
    requires DfsNeighbours(current, adj, after, |adj[current]|, waiting) == DfsNeighbours(current, adj, Enter(w, current), 0, [])
    ensures DfsFrom(current, adj, w) == DfsRest(adj, after, waiting)
  {
  }

  /** Every qubit listed after the k-th position is coupled to one listed before it from there on. */
  predicate Reaching(adj: seq<seq<nat>>, assign: seq<nat>, k: nat) {
    forall i :: k < i < |assign| ==> CoupledBefore(adj, assign, k, i)
  }

  predicate CoupledBefore(adj: seq<seq<nat>>, assign: seq<nat>, k: nat, i: nat)
    requires i < |assign|
  {
    exists j :: k <= j < i && assign[j] < |adj| && assign[i] in adj[assign[j]]
  }

  /** A search appended to a list that contains a neighbour of its first qubit. */
  lemma ReachingOn(adj: seq<seq<nat>>, before: seq<nat>, after: seq<nat>, k: nat)
    requires k < |before| < |after| && before <= after && before[k] < |adj| && after[|before|] in adj[before[k]]
    requires Reaching(adj, before, k) && Reaching(adj, after, |before|)
    ensures Reaching(adj, after, k)
  {
    forall i | k < i < |after| ensures CoupledBefore(adj, after, k, i) {
      if i < |before| {
        assert CoupledBefore(adj, before, k, i);
        var j :| k <= j < i && before[j] < |adj| && before[i] in adj[before[j]];
        assert after[j] == before[j];
      } else if i > |before| {
        assert CoupledBefore(adj, after, |before|, i);
      } else {
        assert after[k] == before[k];
      }
    }
  }

  /** The list of a search starts with its qubit and goes on over couplings only. */
  lemma {:induction false} FromReaches(current: nat, adj: seq<seq<nat>>, w: Walk)
    requires Couplings(adj) && |w.marks| == |adj| && current < |adj| && !w.marks[current]
    ensures var r := DfsFrom(current, adj, w).assign;
      w.assign <= r && |r| > |w.assign| && r[|w.assign|] == current && Reaching(adj, r, |w.assign|)
    decreases Unmarked(w.marks), 0, 0
  {
    var at := Enter(w, current);
    NeighboursReach(current, adj, at, 0, [], |w.assign|);
    var (after, waiting) := DfsNeighbours(current, adj, at, 0, []);
    RestReaches(current, adj, after, waiting, |w.assign|);
  }

  lemma {:induction false} NeighboursReach(current: nat, adj: seq<seq<nat>>, w: Walk, k: nat, waiting: seq<nat>, start: nat)
    requires Couplings(adj) && |w.marks| == |adj| && current < |adj| && k <= |adj[current]|
    requires forall i :: 0 <= i < |waiting| ==> waiting[i] < |adj| && waiting[i] in adj[current]
    requires start < |w.assign| && w.assign[start] == current && Reaching(adj, w.assign, start)
    ensures var r := DfsNeighbours(current, adj, w, k, waiting);
      && w.assign <= r.0.assign && Reaching(adj, r.0.assign, start)
      && forall i :: 0 <= i < |r.1| ==> r.1[i] < |adj| && r.1[i] in adj[current]
    decreases Unmarked(w.marks), 1, |adj[current]| - k
  {
    if k < |adj[current]| {
      var next := adj[current][k];
      if w.marks[next] {
        NeighboursReach(current, adj, w, k + 1, waiting, start);
      } else if |adj[current]| == 1 {
        FromReaches(next, adj, w);
        var w' := DfsFrom(next, adj, w);
        ReachingOn(adj, w.assign, w'.assign, start);
        NeighboursReach(current, adj, w', k + 1, waiting, start);
      } else {
        NeighboursReach(current, adj, w, k + 1, waiting + [next], start);
      }
    }
  }

  lemma {:induction false} RestReaches(current: nat, adj: seq<seq<nat>>, w: Walk, waiting: seq<nat>, start: nat)
    requires Couplings(adj) && |w.marks| == |adj| && current < |adj|
    requires forall i :: 0 <= i < |waiting| ==> waiting[i] < |adj| && waiting[i] in adj[current]
    requires start < |w.assign| && w.assign[start] == current && Reaching(adj, w.assign, start)
    ensures var r := DfsRest(adj, w, waiting).assign; w.assign <= r && Reaching(adj, r, start)
    decreases Unmarked(w.marks), 1, |waiting|
  {
    if |waiting| > 0 {
      if w.marks[waiting[0]] {
        RestReaches(current, adj, w, waiting[1..], start);
      } else {
        FromReaches(waiting[0], adj, w);
        var w' := DfsFrom(waiting[0], adj, w);
        ReachingOn(adj, w.assign, w'.assign, start);
        RestReaches(current, adj, w', waiting[1..], start);
      }
    }
  }

  /** What one call of the search achieves. */
  ghost predicate Searched(adj: seq<seq<nat>>, assign: seq<nat>, marks: seq<bool>, assign': seq<nat>, marks': seq<bool>) {
    Listed(assign', marks') && |assign| <= |assign'| && ClosedSince(adj, marks, marks', {})
  }

  /** Marks the qubit and everything that is reached from it. */
  method DfsDevice(current: nat, adj: seq<seq<nat>>, assign: seq<nat>, marks: array<bool>) returns (assign': seq<nat>)
    requires Couplings(adj) && marks.Length == |adj| && current < |adj| && !marks[current] && Listed(assign, marks[..])
    modifies marks
    ensures marks[current] && Searched(adj, assign, old(marks[..]), assign', marks[..])
    ensures Walk(assign', marks[..]) == DfsFrom(current, adj, Walk(assign, old(marks[..])))
    decreases |adj| - |assign|, 0
  {
    hide Listed, ClosedSince, DfsFrom, DfsNeighbours, DfsRest;
    ghost var start := marks[..];
    ListedRoom(assign, start, current);
    marks[current] := true;
    assign' := assign + [current];
    ghost var at := Enter(Walk(assign, start), current);
    assert at == Walk(assign', marks[..]);
    Opened(adj, start, marks[..], current);
    var waiting: seq<nat> := [];
    for k := 0 to |adj[current]|
      invariant marks[current] && Listed(assign', marks[..]) && |assign| < |assign'|
      invariant ClosedSince(adj, start, marks[..], {current})
      invariant Seen(adj, marks[..], current, k, waiting) && forall i :: 0 <= i < |waiting| ==> waiting[i] < |adj|
      invariant DfsNeighbours(current, adj, Walk(assign', marks[..]), k, waiting) == DfsNeighbours(current, adj, at, 0, [])
    {
      var next := adj[current][k];
      NeighboursStep(current, adj, Walk(assign', marks[..]), k, waiting);
      if !marks[next] {
        if |adj[current]| == 1 {
          assign' := Descend(next, current, adj, assign', marks, start, k, waiting);
        } else {
          waiting := waiting + [next];
        }
      }
    }
    FromEnds(current, adj, Walk(assign, start), Walk(assign', marks[..]), waiting);
    assign' := DfsWaiting(current, adj, assign', marks, start, waiting);
    Finished(adj, start, marks[..], current);
  }

  /** A neighbour that is searched at once. */
  method Descend(next: nat, current: nat, adj: seq<seq<nat>>, assign: seq<nat>, marks: array<bool>, ghost start: seq<bool>,
                 ghost k: nat, ghost waiting: seq<nat>) returns (assign': seq<nat>)
    requires Couplings(adj) && marks.Length == |adj| && current < |adj| && next < |adj| && !marks[next] && Listed(assign, marks[..])
    requires ClosedSince(adj, start, marks[..], {current}) && k <= |adj[current]| && Seen(adj, marks[..], current, k, waiting)
    modifies marks
    ensures marks[next] && Listed(assign', marks[..]) && |assign| <= |assign'| && MoreMarks(old(marks[..]), marks[..])
    ensures ClosedSince(adj, start, marks[..], {current}) && Seen(adj, marks[..], current, k, waiting)
    ensures Walk(assign', marks[..]) == DfsFrom(next, adj, Walk(assign, old(marks[..])))
    decreases |adj| - |assign|, 1
  {
    ghost var mid := marks[..];
    assign' := DfsDevice(next, adj, assign, marks);
    ClosedLater(adj, start, mid, marks[..], {current});
  }

  /** The neighbours that wait and have not been marked in the meantime. */
  method DfsWaiting(current: nat, adj: seq<seq<nat>>, assign: seq<nat>, marks: array<bool>, ghost start: seq<bool>, waiting: seq<nat>)
    returns (assign': seq<nat>)
    requires Couplings(adj) && marks.Length == |adj| && current < |adj| && marks[current] && Listed(assign, marks[..])
    requires ClosedSince(adj, start, marks[..], {current})
    requires Seen(adj, marks[..], current, |adj[current]|, waiting) && forall i :: 0 <= i < |waiting| ==> waiting[i] < |adj|
    modifies marks
    ensures marks[current] && Listed(assign', marks[..]) && |assign| <= |assign'| && MoreMarks(old(marks[..]), marks[..])
    ensures ClosedSince(adj, start, marks[..], {current}) && NeighboursMarked(adj, marks[..], current)
    ensures Walk(assign', marks[..]) == DfsRest(adj, Walk(assign, old(marks[..])), waiting)
    decreases |adj| - |assign|, 1
  {
    hide Listed, ClosedSince;
    ghost var before := marks[..];
    assign' := assign;
    for i := 0 to |waiting|
      invariant marks[current] && Listed(assign', marks[..]) && |assign| <= |assign'| && MoreMarks(before, marks[..])
      invariant ClosedSince(adj, start, marks[..], {current})
      invariant forall j :: 0 <= j < i ==> marks[waiting[j]]
      invariant DfsRest(adj, Walk(assign', marks[..]), waiting[i..]) == DfsRest(adj, Walk(assign, before), waiting)
    {
      assert waiting[i..][0] == waiting[i] && waiting[i..][1..] == waiting[i + 1..];
      if !marks[waiting[i]] {
        ghost var mid := marks[..];
        ListedRoom(assign', mid, waiting[i]);
        assign' := DfsDevice(waiting[i], adj, assign', marks);
        ClosedLater(adj, start, mid, marks[..], {current});
        ClosedIsMore(adj, mid, marks[..]);
      }
    }
  }

  lemma ClosedIsMore(adj: seq<seq<nat>>, before: seq<bool>, after: seq<bool>)
    requires ClosedSince(adj, before, after, {})
    ensures MoreMarks(before, after)
  {
  }

  lemma Opened(adj: seq<seq<nat>>, before: seq<bool>, after: seq<bool>, v: nat)
    requires |before| == |adj| && v < |adj| && after == before[v := true]
    ensures ClosedSince(adj, before, after, {v})
  {
  }

  lemma Finished(adj: seq<seq<nat>>, before: seq<bool>, after: seq<bool>, v: nat)
    requires ClosedSince(adj, before, after, {v}) && v < |adj| && NeighboursMarked(adj, after, v)
    ensures ClosedSince(adj, before, after, {})
  {
  }

  /** A search that has marked qubit 0 and closed all marked qubits has reached a connected device as a whole. */
  lemma ReachesAll(adj: seq<seq<nat>>, assign: seq<nat>, none: seq<bool>, marks: seq<bool>)
    requires Couplings(adj) && Connected(adj) && |adj| > 0 && none == seq(|adj|, i => false)
    requires |marks| == |adj| && marks[0] && Listed(assign, marks) && ClosedSince(adj, none, marks, {})
    ensures Placement(assign, |adj|)
  {
    var s := set v: nat | v < |adj| && marks[v];
    forall u, k | 0 <= u < |adj| && u in s && 0 <= k < |adj[u]| ensures adj[u][k] in s {
      assert NeighboursMarked(adj, marks, u);
    }
    forall v: nat | v < |adj| ensures v in assign {
      ConnectedReaches(adj, s, 0, v);
    }
    FullLength(assign, |adj|);
  }

  lemma FullLength(assign: seq<nat>, n: nat)
    requires Distinct(assign) && (forall i :: 0 <= i < |assign| ==> assign[i] < n) && forall v: nat :: v < n ==> v in assign
    ensures |assign| == n
  {
    var members := set i | 0 <= i < |assign| :: assign[i];
    Onto(assign, |assign|, members);
    forall v: nat ensures v in members <==> v in Below(n) {
      if v < n { assert v in assign; }
    }
    assert members == Below(n);
  }

  // ---------- placing ----------

  /** The answer of a placer: only the random one answers differently from time to time. */
  ghost function Answer(p: Placer, adj: seq<seq<nat>>, time: nat): seq<nat>
    requires Couplings(adj) && PlacerOk(p, adj)
  {
    match p
    case Static => seq(|adj|, i => i)
    case Shuffle(draws) => draws(time)
    case Dfs => DfsFrom(0, adj, Walk([], seq(|adj|, i => false))).assign
  }

  /** Where each logical qubit goes. */
  method Place(p: Placer, adj: seq<seq<nat>>, time: nat) returns (assign: seq<nat>)
    requires Couplings(adj) && PlacerOk(p, adj)
    ensures Placement(assign, |adj|) && assign == Answer(p, adj, time)
    ensures p.Dfs? ==> assign[0] == 0 && Reaching(adj, assign, 0)
  {
    match p
    case Static =>
      assign := seq(|adj|, i => i);
    case Shuffle(draws) =>
      assign := draws(time);
    case Dfs =>
      var marks := new bool[|adj|](i => false);
      ghost var none := marks[..];
      assert Listed([], none);
      assign := DfsDevice(0, adj, [], marks);
      assert none == seq(|adj|, i => false);
      FromReaches(0, adj, Walk([], none));
      ReachesAll(adj, assign, none, marks[..]);
  }

  /** Writes the placement into the device: logical qubit i is on physical qubit assign[i]. */
  method PlaceOn(device: Device, assign: seq<nat>)
    requires device.Valid() && Placement(assign, |device.adj|)
    modifies device
    ensures device.Valid() && Inverse(assign, Logicals(device.qubits)) && Occupied(device.qubits) == Occupied(old(device.qubits))
    ensures Idle(old(device.qubits)) ==> Idle(device.qubits)
  {
    ghost var was := device.qubits;
    for i := 0 to |assign|
      invariant |device.qubits| == |was|
      invariant forall v :: 0 <= v < |was| ==> device.qubits[v] == was[v].(logical := device.qubits[v].logical)
      invariant forall j :: 0 <= j < i ==> device.qubits[assign[j]].logical == j
    {
      device.qubits := device.qubits[assign[i] := device.qubits[assign[i]].(logical := i)];
    }
    PlacedIsPlacement(assign, Logicals(device.qubits));
    assert Occupied(device.qubits) == Occupied(was);
  }

  lemma PlacedIsPlacement(assign: seq<nat>, labels: seq<nat>)
    requires Placement(assign, |labels|) && forall j :: 0 <= j < |labels| ==> labels[assign[j]] == j
    ensures Placement(labels, |labels|) && Inverse(assign, labels)
  {
    forall v: nat | v < |labels| ensures labels[v] < |labels| && assign[labels[v]] == v {
      var j := Holder(assign, v);
    }
  }
}
