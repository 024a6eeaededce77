/**
 The depth-first search that lists the gates of a circuit, and what makes its result a
 topological order: on every qubit the listed gates are exactly the chain of that qubit.
 */
module TopologicalOrder {
  import opened Sequences
  import opened Circuits

  /** The listed gates that act on a qubit, in the order of the list. */
  function OnQubit(c: Circuit, list: seq<nat>, q: nat): seq<nat> {
    if |list| == 0 then []
    else
      var k := |list| - 1;
      OnQubit(c, list[..k], q) + if On(c, list[k], q) then [list[k]] else []
  }

  /** Every gate once, and on every qubit in the order of its chain. */
  ghost predicate Topological(c: Circuit, chains: seq<seq<nat>>, list: seq<nat>) {
    && Distinct(list) && (forall g :: g in list <==> g in c.gates)
    && forall q :: 0 <= q < |chains| ==> OnQubit(c, list, q) == chains[q]
  }

  // ---------- rising sequences with the same members are equal ----------

  lemma {:induction false} SameRising(a: seq<nat>, b: seq<nat>, rank: map<nat, int>)
    requires Rising(a, rank) && Rising(b, rank) && forall g :: g in a <==> g in b
    ensures a == b
  {
    if |a| == 0 {
      if |b| > 0 {
        SameLast(b, a, rank);
        assert false;
      }
    } else {
      SameLast(a, b, rank);
      var i, j := |a| - 1, |b| - 1;
      forall g ensures g in a[..i] <==> g in b[..j] {
        InInit(a, rank, g);
        InInit(b, rank, g);
      }
      SameRising(a[..i], b[..j], rank);
      assert a == a[..i] + [a[i]] && b == b[..j] + [b[j]];
    }
  }

  lemma SameLast(a: seq<nat>, b: seq<nat>, rank: map<nat, int>)
    requires Rising(a, rank) && Rising(b, rank) && |a| > 0 && forall g :: g in a <==> g in b
    ensures |b| > 0 && a[|a| - 1] == b[|b| - 1]
  {
    var i, j := |a| - 1, |b| - 1;
    assert a[i] in b;
    assert b[j] in a;
    NoneHigher(a, rank, b[j]);
    NoneHigher(b, rank, a[i]);
    var x :| 0 <= x < |b| && b[x] == a[i];
    assert x < j ==> rank[b[x]] < rank[b[j]];
  }

  lemma NoneHigher(a: seq<nat>, rank: map<nat, int>, g: nat)
    requires Rising(a, rank) && g in a
    ensures g in rank && rank[g] <= rank[a[|a| - 1]]
  {
    var x :| 0 <= x < |a| && a[x] == g;
  }

  lemma InInit(a: seq<nat>, rank: map<nat, int>, g: nat)
    requires |a| > 0 && Rising(a, rank)
    ensures g in a[..|a| - 1] <==> g in a && g != a[|a| - 1]
  {
  }

  /** The place of every listed gate. */
  function Places(list: seq<nat>): (m: map<nat, int>)
    requires Distinct(list)
    ensures forall k :: 0 <= k < |list| ==> list[k] in m && m[list[k]] == k
    ensures forall g :: g in m ==> g in list
  {
    if |list| == 0 then map[] else Places(list[..|list| - 1])[list[|list| - 1] := |list| - 1]
  }

  lemma {:induction false} OnQubitRises(c: Circuit, list: seq<nat>, k: nat, q: nat)
    requires Distinct(list) && k <= |list|
    ensures Rising(OnQubit(c, list[..k], q), Places(list))
    ensures forall g :: g in OnQubit(c, list[..k], q) <==> g in list[..k] && On(c, g, q)
  {
    hide Places, On;
    if k > 0 {
      assert list[..k][..k - 1] == list[..k - 1];
      assert list[..k] == list[..k - 1] + [list[k - 1]];
      OnQubitRises(c, list, k - 1, q);
      PlacesBelow(list, k - 1);
    }
  }

  lemma PlacesBelow(list: seq<nat>, k: nat)
    requires Distinct(list) && k <= |list|
    ensures forall g :: g in list[..k] ==> g in Places(list) && Places(list)[g] < k
  {
    hide Places;
    forall g | g in list[..k] ensures g in Places(list) && Places(list)[g] < k {
      var i :| 0 <= i < k && list[..k][i] == g;
      assert list[i] == g;
    }
  }

  /** When all gates are listed once and every chain is listed in its order, the list is topological. */
  lemma ListIsTopological(c: Circuit, chains: seq<seq<nat>>, list: seq<nat>)
    requires Chained(c, chains) && Distinct(list) && forall g :: g in list <==> g in c.gates
    requires forall q :: 0 <= q < |chains| ==> Rising(chains[q], Places(list))
    ensures Topological(c, chains, list)
  {
    forall q | 0 <= q < |chains| ensures OnQubit(c, list, q) == chains[q] {
      assert list[..|list|] == list;
      OnQubitRises(c, list, |list|, q);
      assert ChainOk(c, chains[q], q);
      ChainMembers(c, chains[q], q);
      forall g ensures g in OnQubit(c, list, q) <==> g in chains[q] {
        assert InChains(c, chains, g, q);
      }
      SameRising(OnQubit(c, list, q), chains[q], Places(list));
    }
  }

  // ---------- the state of the search ----------

  /** A stack entry: a gate to visit, or one whose successors have all been visited when it comes up again. */
  datatype Frame = Frame(childrenVisited: bool, gate: nat)

  predicate OnStack(stack: seq<Frame>, from: nat, g: nat) { exists p :: from <= p < |stack| && stack[p].gate == g }

  /** The first k successors of a gate have been visited or wait above the given place. */
  predicate Covered(c: Circuit, stack: seq<Frame>, visited: set<nat>, p: nat, k: nat)
    requires p < |stack| && stack[p].gate in c.succs && k <= |c.succs[stack[p].gate]|
  {
    forall j :: 0 <= j < k && c.succs[stack[p].gate][j].Some? ==>
      c.succs[stack[p].gate][j].value in visited || OnStack(stack, p + 1, c.succs[stack[p].gate][j].value)
  }

  /** Everything above an open gate stands higher than that gate. */
  predicate StackOk(c: Circuit, rank: map<nat, int>, stack: seq<Frame>) {
    && (forall p :: 0 <= p < |stack| ==> stack[p].gate in c.gates && stack[p].gate in rank)
    && forall p, r :: 0 <= p < r < |stack| && stack[p].childrenVisited ==> rank[stack[p].gate] < rank[stack[r].gate]
  }

  predicate IsOpen(stack: seq<Frame>, g: nat) { exists p :: 0 <= p < |stack| && stack[p] == Frame(true, g) }

  /** The visited gates are the listed and the open ones. */
  ghost predicate VisitOk(c: Circuit, stack: seq<Frame>, visited: set<nat>, post: seq<nat>) {
    && visited <= c.gates.Keys
    && (forall p :: 0 <= p < |stack| && stack[p].childrenVisited ==> stack[p].gate in visited && stack[p].gate !in post)
    && (forall g :: g in post ==> g in visited)
    && forall g :: g in visited && g !in post ==> IsOpen(stack, g)
  }

  /** Open gates have all successors covered; the one at place top only its first k. */
  predicate CoverOk(c: Circuit, stack: seq<Frame>, visited: set<nat>, top: nat, k: nat) {
    forall p :: 0 <= p < |stack| && stack[p].childrenVisited && stack[p].gate in c.succs ==>
      var n := |c.succs[stack[p].gate]|;
      Covered(c, stack, visited, p, if p == top && k <= n then k else n)
  }

  predicate Listed(c: Circuit, g: nat, post: seq<nat>)
    requires g in c.succs
  {
    forall j :: 0 <= j < |c.succs[g]| && c.succs[g][j].Some? ==> c.succs[g][j].value in post
  }

  /** The list so far: every gate comes after all its successors. */
  predicate PostOk(c: Circuit, post: seq<nat>) {
    && Distinct(post)
    && forall k :: 0 <= k < |post| ==> post[k] in c.gates && post[k] in c.succs && Listed(c, post[k], post[..k])
  }

  predicate FirstOk(c: Circuit, stack: seq<Frame>, visited: set<nat>, n: nat) {
    n <= |c.first| && forall q :: 0 <= q < n && c.first[q].Some? ==> c.first[q].value in visited || OnStack(stack, 0, c.first[q].value)
  }

  ghost predicate Searching(c: Circuit, rank: map<nat, int>, stack: seq<Frame>, visited: set<nat>, post: seq<nat>, top: nat, k: nat) {
    && StackOk(c, rank, stack) && VisitOk(c, stack, visited, post) && CoverOk(c, stack, visited, top, k)
    && PostOk(c, post) && FirstOk(c, stack, visited, |c.first|)
  }

  // ---------- steps ----------

  lemma PushKeepsStack(stack: seq<Frame>, from: nat, g: nat, f: Frame)
    requires OnStack(stack, from, g)
    ensures OnStack(stack + [f], from, g)
  {
    var p :| from <= p < |stack| && stack[p].gate == g;
    assert (stack + [f])[p].gate == g;
  }

  lemma PopKeepsStack(stack: seq<Frame>, from: nat, g: nat)
    requires |stack| > 0 && OnStack(stack, from, g) && g != stack[|stack| - 1].gate
    ensures OnStack(stack[..|stack| - 1], from, g)
  {
    var p :| from <= p < |stack| && stack[p].gate == g;
    assert stack[..|stack| - 1][p].gate == g;
  }

  lemma PopKeepsCover(c: Circuit, stack: seq<Frame>, visited: set<nat>, visited': set<nat>, p: nat, k: nat)
    requires |stack| > 0 && p < |stack| - 1 && stack[p].gate in c.succs && k <= |c.succs[stack[p].gate]|
    requires Covered(c, stack, visited, p, k) && visited <= visited' && stack[|stack| - 1].gate in visited'
    ensures Covered(c, stack[..|stack| - 1], visited', p, k)
  {
    var g := stack[p].gate;
    forall j | 0 <= j < k && c.succs[g][j].Some?
      ensures c.succs[g][j].value in visited' || OnStack(stack[..|stack| - 1], p + 1, c.succs[g][j].value)
    {
      var s := c.succs[g][j].value;
      if s !in visited' { PopKeepsStack(stack, p + 1, s); }
    }
  }

  lemma PushKeepsCover(c: Circuit, stack: seq<Frame>, visited: set<nat>, p: nat, k: nat, f: Frame)
    requires p < |stack| && stack[p].gate in c.succs && k <= |c.succs[stack[p].gate]| && Covered(c, stack, visited, p, k)
    ensures Covered(c, stack + [f], visited, p, k)
  {
    var g := stack[p].gate;
    forall j | 0 <= j < k && c.succs[g][j].Some?
      ensures c.succs[g][j].value in visited || OnStack(stack + [f], p + 1, c.succs[g][j].value)
    {
      var s := c.succs[g][j].value;
      if s !in visited { PushKeepsStack(stack, p + 1, s, f); }
    }
  }

  lemma PopKeepsFirst(c: Circuit, stack: seq<Frame>, visited: set<nat>, visited': set<nat>)
    requires |stack| > 0 && FirstOk(c, stack, visited, |c.first|) && visited <= visited' && stack[|stack| - 1].gate in visited'
    ensures FirstOk(c, stack[..|stack| - 1], visited', |c.first|)
  {
    forall q | 0 <= q < |c.first| && c.first[q].Some?
      ensures c.first[q].value in visited' || OnStack(stack[..|stack| - 1], 0, c.first[q].value)
    {
      var s := c.first[q].value;
      if s !in visited' { PopKeepsStack(stack, 0, s); }
    }
  }

  lemma PushKeepsFirst(c: Circuit, stack: seq<Frame>, visited: set<nat>, n: nat, f: Frame)
    requires FirstOk(c, stack, visited, n)
    ensures FirstOk(c, stack + [f], visited, n)
  {
    forall q | 0 <= q < n && c.first[q].Some?
      ensures c.first[q].value in visited || OnStack(stack + [f], 0, c.first[q].value)
    {
      if c.first[q].value !in visited { PushKeepsStack(stack, 0, c.first[q].value, f); }
    }
  }

  lemma OpenStays(stack: seq<Frame>, stack': seq<Frame>, g: nat)
    requires IsOpen(stack, g) && (stack <= stack' || (|stack| > 0 && stack' == stack[..|stack| - 1] && stack[|stack| - 1] != Frame(true, g)))
    ensures IsOpen(stack', g)
  {
    var p :| 0 <= p < |stack| && stack[p] == Frame(true, g);
    assert stack'[p] == Frame(true, g);
  }

  /** The top entry has been visited before: it is dropped. */
  lemma SkipStep(c: Circuit, rank: map<nat, int>, stack: seq<Frame>, visited: set<nat>, post: seq<nat>)
    requires |stack| > 0 && Shaped(c) && Searching(c, rank, stack, visited, post, |stack|, 0)
    requires !stack[|stack| - 1].childrenVisited && stack[|stack| - 1].gate in visited
    ensures Searching(c, rank, stack[..|stack| - 1], visited, post, |stack| - 1, 0)
  {
    var rest := stack[..|stack| - 1];
    forall g | g in visited && g !in post ensures IsOpen(rest, g) { OpenStays(stack, rest, g); }
    forall p | 0 <= p < |rest| && rest[p].childrenVisited && rest[p].gate in c.succs
      ensures Covered(c, rest, visited, p, |c.succs[rest[p].gate]|)
    {
      assert Covered(c, stack, visited, p, |c.succs[stack[p].gate]|);
      PopKeepsCover(c, stack, visited, visited, p, |c.succs[stack[p].gate]|);
    }
    PopKeepsFirst(c, stack, visited, visited);
  }

  /** The links of a circuit lead upward. */
  predicate Upward(c: Circuit, rank: map<nat, int>) {
    forall g, j :: g in c.gates && g in c.succs && 0 <= j < |c.succs[g]| && c.succs[g][j].Some? ==>
      g in rank && c.succs[g][j].value in c.gates && c.succs[g][j].value in rank && rank[g] < rank[c.succs[g][j].value]
  }

  lemma RanksUpward(c: Circuit, chains: seq<seq<nat>>, rank: map<nat, int>)
    requires Chained(c, chains) && Ranked(chains, rank)
    ensures Upward(c, rank)
  {
    forall g, j | g in c.gates && g in c.succs && 0 <= j < |c.succs[g]| && c.succs[g][j].Some?
      ensures g in rank && c.succs[g][j].value in c.gates && c.succs[g][j].value in rank && rank[g] < rank[c.succs[g][j].value]
    {
      assert GateShaped(c, g);
      PinIsUnique(c.gates[g], |c.first|, j);
      SuccLinksBack(c, chains, rank, g, c.gates[g].qubits[j]);
    }
  }

  /** A gate that stands higher than the top of the stack is not open. */
  lemma NotOpenAboveTop(c: Circuit, rank: map<nat, int>, stack: seq<Frame>, s: nat)
    requires |stack| > 0 && StackOk(c, rank, stack) && s in rank && rank[stack[|stack| - 1].gate] < rank[s]
    ensures !IsOpen(stack, s)
  {
  }

  /** When an open gate is on top, all its successors have been listed. */
  lemma TopIsReady(c: Circuit, rank: map<nat, int>, stack: seq<Frame>, visited: set<nat>, post: seq<nat>)
    requires |stack| > 0 && Shaped(c) && Upward(c, rank) && Searching(c, rank, stack, visited, post, |stack|, 0)
    requires stack[|stack| - 1].childrenVisited
    ensures stack[|stack| - 1].gate in c.succs && Listed(c, stack[|stack| - 1].gate, post)
  {
    var top := |stack| - 1;
    var g := stack[top].gate;
    assert GateShaped(c, g);
    assert Covered(c, stack, visited, top, |c.succs[g]|);
    forall j | 0 <= j < |c.succs[g]| && c.succs[g][j].Some? ensures c.succs[g][j].value in post {
      var s := c.succs[g][j].value;
      NotOpenAboveTop(c, rank, stack, s);
    }
  }

  /** Without its top entry, which has been visited, the stack covers what it covered. */
  lemma PopKeepsCovers(c: Circuit, stack: seq<Frame>, visited: set<nat>)
    requires |stack| > 0 && CoverOk(c, stack, visited, |stack|, 0) && stack[|stack| - 1].gate in visited
    ensures CoverOk(c, stack[..|stack| - 1], visited, |stack| - 1, 0)
  {
    var rest := stack[..|stack| - 1];
    forall p | 0 <= p < |rest| && rest[p].childrenVisited && rest[p].gate in c.succs
      ensures Covered(c, rest, visited, p, |c.succs[rest[p].gate]|)
    {
      assert Covered(c, stack, visited, p, |c.succs[stack[p].gate]|);
      PopKeepsCover(c, stack, visited, visited, p, |c.succs[stack[p].gate]|);
    }
  }

  /** The list may grow by a gate whose successors are in it. */
  lemma PostGrows(c: Circuit, post: seq<nat>, g: nat)
    requires PostOk(c, post) && g in c.gates && g in c.succs && Listed(c, g, post) && g !in post
    ensures PostOk(c, post + [g])
  {
    var post' := post + [g];
    forall k | 0 <= k < |post'| ensures post'[k] in c.gates && post'[k] in c.succs && Listed(c, post'[k], post'[..k]) {
      assert post'[..k] == if k < |post| then post[..k] else post;
    }
  }

  /** The open gate on top is listed and no longer open. */
  lemma EmitVisits(c: Circuit, rank: map<nat, int>, stack: seq<Frame>, visited: set<nat>, post: seq<nat>)
    requires |stack| > 0 && StackOk(c, rank, stack) && VisitOk(c, stack, visited, post) && stack[|stack| - 1].childrenVisited
    ensures VisitOk(c, stack[..|stack| - 1], visited, post + [stack[|stack| - 1].gate])
  {
    var rest, node := stack[..|stack| - 1], stack[|stack| - 1].gate;
    var post' := post + [node];
    forall g | g in visited && g !in post' ensures IsOpen(rest, g) { OpenStays(stack, rest, g); }
    forall p | 0 <= p < |rest| && rest[p].childrenVisited ensures rest[p].gate !in post' {
      assert rank[stack[p].gate] < rank[node];
    }
  }

  lemma EmitStep(c: Circuit, rank: map<nat, int>, stack: seq<Frame>, visited: set<nat>, post: seq<nat>)
    requires |stack| > 0 && Shaped(c) && Upward(c, rank) && Searching(c, rank, stack, visited, post, |stack|, 0)
    requires stack[|stack| - 1].childrenVisited
    ensures Searching(c, rank, stack[..|stack| - 1], visited, post + [stack[|stack| - 1].gate], |stack| - 1, 0)
  {
    TopIsReady(c, rank, stack, visited, post);
    hide CoverOk, FirstOk, Listed, PostOk, IsOpen;
    PopKeepsCovers(c, stack, visited);
    PopKeepsFirst(c, stack, visited, visited);
    PostGrows(c, post, stack[|stack| - 1].gate);
    EmitVisits(c, rank, stack, visited, post);
  }

  /** A gate is visited for the first time: it stays on the stack as open. */
  lemma OpenStep(c: Circuit, rank: map<nat, int>, stack: seq<Frame>, visited: set<nat>, post: seq<nat>)
    requires |stack| > 0 && Shaped(c) && Searching(c, rank, stack, visited, post, |stack|, 0)
    requires !stack[|stack| - 1].childrenVisited && stack[|stack| - 1].gate !in visited
    ensures var node := stack[|stack| - 1].gate;
      Searching(c, rank, stack[..|stack| - 1] + [Frame(true, node)], visited + {node}, post, |stack| - 1, 0)
  {
    var top := |stack| - 1;
    var rest, node := stack[..top], stack[top].gate;
    var stack' := rest + [Frame(true, node)];
    var visited' := visited + {node};
    forall g | g in visited' && g !in post ensures IsOpen(stack', g) {
      if g == node {
        assert stack'[top] == Frame(true, node);
      } else {
        OpenStays(stack, rest, g);
        OpenStays(rest, stack', g);
      }
    }
    forall p | 0 <= p < |stack'| && stack'[p].childrenVisited && stack'[p].gate in c.succs
      ensures Covered(c, stack', visited', p, if p == top then 0 else |c.succs[stack'[p].gate]|)
    {
      if p < top {
        var n := |c.succs[stack[p].gate]|;
        assert Covered(c, stack, visited, p, n);
        PopKeepsCover(c, stack, visited, visited', p, n);
        PushKeepsCover(c, rest, visited', p, n, Frame(true, node));
      }
    }
    PopKeepsFirst(c, stack, visited, visited');
    PushKeepsFirst(c, rest, visited', |c.first|, Frame(true, node));
  }

  lemma OnTop(stack: seq<Frame>, from: nat, g: nat)
    requires from <= |stack|
    ensures OnStack(stack + [Frame(false, g)], from, g)
  {
    assert (stack + [Frame(false, g)])[|stack|].gate == g;
  }

  /** The k-th successor has been visited before: one more is covered. */
  lemma OneMoreCovered(c: Circuit, stack: seq<Frame>, visited: set<nat>, top: nat, k: nat)
    requires top < |stack| && CoverOk(c, stack, visited, top, k) && stack[top].childrenVisited && stack[top].gate in c.succs
    requires k < |c.succs[stack[top].gate]|
    requires c.succs[stack[top].gate][k].Some? ==> c.succs[stack[top].gate][k].value in visited
    ensures CoverOk(c, stack, visited, top, k + 1)
  {
    forall p | 0 <= p < |stack| && stack[p].childrenVisited && stack[p].gate in c.succs
      ensures Covered(c, stack, visited, p, if p == top && k + 1 <= |c.succs[stack[p].gate]| then k + 1 else |c.succs[stack[p].gate]|)
    {
      assert Covered(c, stack, visited, p, if p == top then k else |c.succs[stack[p].gate]|);
    }
  }

  /** The k-th successor is pushed: one more is covered. */
  lemma OneMorePushed(c: Circuit, stack: seq<Frame>, visited: set<nat>, top: nat, k: nat)
    requires top < |stack| && CoverOk(c, stack, visited, top, k) && stack[top].childrenVisited && stack[top].gate in c.succs
    requires k < |c.succs[stack[top].gate]| && c.succs[stack[top].gate][k].Some?
    ensures CoverOk(c, stack + [Frame(false, c.succs[stack[top].gate][k].value)], visited, top, k + 1)
  {
    var s := c.succs[stack[top].gate][k].value;
    var f := Frame(false, s);
    var stack' := stack + [f];
    forall p | 0 <= p < |stack'| && stack'[p].childrenVisited && stack'[p].gate in c.succs
      ensures Covered(c, stack', visited, p, if p == top && k + 1 <= |c.succs[stack'[p].gate]| then k + 1 else |c.succs[stack'[p].gate]|)
    {
      var n := if p == top then k else |c.succs[stack[p].gate]|;
      assert Covered(c, stack, visited, p, n);
      PushKeepsCover(c, stack, visited, p, n, f);
      if p == top { OnTop(stack, top + 1, s); }
    }
  }

  lemma PushKeepsVisits(c: Circuit, stack: seq<Frame>, visited: set<nat>, post: seq<nat>, g: nat)
    requires VisitOk(c, stack, visited, post)
    ensures VisitOk(c, stack + [Frame(false, g)], visited, post)
  {
    var stack' := stack + [Frame(false, g)];
    forall v | v in visited && v !in post ensures IsOpen(stack', v) { OpenStays(stack, stack', v); }
  }

  /** The k-th successor of the open gate at place top has been looked at: it was visited or is pushed. */
  lemma SuccStep(c: Circuit, rank: map<nat, int>, stack: seq<Frame>, visited: set<nat>, post: seq<nat>, top: nat, k: nat)
    requires top < |stack| && Shaped(c) && Upward(c, rank) && Searching(c, rank, stack, visited, post, top, k)
    requires stack[top].childrenVisited && stack[top].gate in c.succs && k < |c.succs[stack[top].gate]|
    requires forall p :: top < p < |stack| ==> !stack[p].childrenVisited
    ensures var s := c.succs[stack[top].gate][k];
      if s.Some? && s.value !in visited then Searching(c, rank, stack + [Frame(false, s.value)], visited, post, top, k + 1)
      else Searching(c, rank, stack, visited, post, top, k + 1)
  {
    hide CoverOk, VisitOk, FirstOk, PostOk, StackOk, Upward;
    var s := c.succs[stack[top].gate][k];
    if s.Some? && s.value !in visited {
      PushRises(c, rank, stack, visited, post, top, k);
      PushKeepsVisits(c, stack, visited, post, s.value);
      OneMorePushed(c, stack, visited, top, k);
      PushKeepsFirst(c, stack, visited, |c.first|, Frame(false, s.value));
    } else {
      OneMoreCovered(c, stack, visited, top, k);
    }
  }

  lemma PushRises(c: Circuit, rank: map<nat, int>, stack: seq<Frame>, visited: set<nat>, post: seq<nat>, top: nat, k: nat)
    requires top < |stack| && Shaped(c) && Upward(c, rank) && StackOk(c, rank, stack)
    requires stack[top].childrenVisited && stack[top].gate in c.succs && k < |c.succs[stack[top].gate]| && c.succs[stack[top].gate][k].Some?
    requires forall p :: top < p < |stack| ==> !stack[p].childrenVisited
    ensures StackOk(c, rank, stack + [Frame(false, c.succs[stack[top].gate][k].value)])
  {
    var stack' := stack + [Frame(false, c.succs[stack[top].gate][k].value)];
    forall p, r | 0 <= p < r < |stack'| && stack'[p].childrenVisited ensures rank[stack'[p].gate] < rank[stack'[r].gate] {
      if r == |stack| && p < top {
        assert rank[stack[p].gate] < rank[stack[top].gate];
      }
    }
  }

  // ---------- the end of the search ----------

  lemma {:induction false} ChainIsListed(c: Circuit, chains: seq<seq<nat>>, post: seq<nat>, q: nat, i: nat)
    requires Chained(c, chains) && PostOk(c, post) && q < |chains| && i < |chains[q]|
    requires FirstOk(c, [], set g | g in post, |c.first|)
    ensures chains[q][i] in post
  {
    assert ChainOk(c, chains[q], q);
    if i == 0 {
      assert c.first[q].value in (set g | g in post);
    } else {
      ChainIsListed(c, chains, post, q, i - 1);
      var k := SuccIsEarlier(c, chains, post, q, i - 1);
    }
  }

  lemma SuccIsEarlier(c: Circuit, chains: seq<seq<nat>>, post: seq<nat>, q: nat, i: nat) returns (k: nat)
    requires Chained(c, chains) && PostOk(c, post) && q < |chains| && i < |chains[q]| - 1 && chains[q][i] in post
    ensures k < |post| && post[k] == chains[q][i] && chains[q][i + 1] in post[..k]
  {
    var g := chains[q][i];
    assert ChainOk(c, chains[q], q) && LinkAt(c, chains[q], q, i) && GateShaped(c, g);
    k :| 0 <= k < |post| && post[k] == g;
    assert Listed(c, post[k], post[..k]);
    var pin := PinOf(c.gates[g].qubits, q);
    assert c.succs[g][pin] == Some(chains[q][i + 1]);
  }

  lemma NextRises(c: Circuit, chains: seq<seq<nat>>, post: seq<nat>, q: nat, i: nat)
    requires Chained(c, chains) && PostOk(c, post) && q < |chains| && i < |chains[q]| - 1 && chains[q][i] in post
    ensures Distinct(Reversed(post))
    ensures var places := Places(Reversed(post));
      chains[q][i] in places && chains[q][i + 1] in places && places[chains[q][i]] < places[chains[q][i + 1]]
  {
    var list := Reversed(post);
    var k := SuccIsEarlier(c, chains, post, q, i);
    var j :| 0 <= j < k && post[..k][j] == chains[q][i + 1];
    assert list[|post| - 1 - k] == chains[q][i] && list[|post| - 1 - j] == chains[q][i + 1];
  }

  lemma {:induction false} StepsRise(chain: seq<nat>, rank: map<nat, int>, i: nat, j: nat)
    requires i < j < |chain| && forall k :: 0 <= k < |chain| ==> chain[k] in rank
    requires forall k: nat :: k + 1 < |chain| ==> StepRises(chain, rank, k)
    ensures rank[chain[i]] < rank[chain[j]]
    decreases j
  {
    assert StepRises(chain, rank, j - 1);
    if i < j - 1 { StepsRise(chain, rank, i, j - 1); }
  }

  predicate StepRises(chain: seq<nat>, rank: map<nat, int>, k: nat)
    requires k + 1 < |chain| && chain[k] in rank && chain[k + 1] in rank
  {
    rank[chain[k]] < rank[chain[k + 1]]
  }

  lemma ChainRises(c: Circuit, chains: seq<seq<nat>>, post: seq<nat>, q: nat)
    requires Chained(c, chains) && PostOk(c, post) && q < |chains| && Distinct(Reversed(post))
    requires FirstOk(c, [], set g | g in post, |c.first|)
    ensures Rising(chains[q], Places(Reversed(post)))
  {
    var chain, places := chains[q], Places(Reversed(post));
    forall i | 0 <= i < |chain| ensures chain[i] in post && chain[i] in places {
      ChainIsListed(c, chains, post, q, i);
      InReversed(post, chain[i]);
    }
    forall k: nat | k + 1 < |chain| ensures StepRises(chain, places, k) {
      NextRises(c, chains, post, q, k);
    }
    forall i, j | 0 <= i < j < |chain| ensures places[chain[i]] < places[chain[j]] {
      StepsRise(chain, places, i, j);
    }
  }

  /** When the stack is empty, the reversed list is a topological order. */
  lemma SearchEnds(c: Circuit, chains: seq<seq<nat>>, rank: map<nat, int>, visited: set<nat>, post: seq<nat>)
    requires Chained(c, chains) && Searching(c, rank, [], visited, post, 0, 0)
    ensures Topological(c, chains, Reversed(post))
  {
    var list := Reversed(post);
    AllVisitedListed(c, visited, post);
    assert Distinct(list);
    forall q | 0 <= q < |chains| ensures Rising(chains[q], Places(list)) {
      ChainRises(c, chains, post, q);
    }
    forall g ensures g in list <==> g in c.gates {
      InReversed(post, g);
      if g in c.gates {
        assert GateShaped(c, g);
        var q := c.gates[g].qubits[0];
        assert InChains(c, chains, g, q);
        var i :| 0 <= i < |chains[q]| && chains[q][i] == g;
        ChainIsListed(c, chains, post, q, i);
      }
    }
    ListIsTopological(c, chains, list);
  }

  lemma AllVisitedListed(c: Circuit, visited: set<nat>, post: seq<nat>)
    requires VisitOk(c, [], visited, post)
    ensures visited == set g | g in post
  {
    assert forall g :: !IsOpen([], g);
  }
}
