/**
 The frontier of a circuit while its gates are executed one by one: the available gates,
 and a table of executed gates from which those with all successors executed are trimmed.
 */
module CircuitTopologies {
  import opened Sequences
  import opened Circuits

  /** The predecessors of a gate are all in the set. */
  predicate ReadyIn(c: Circuit, g: nat, done: set<nat>)
    requires g in c.preds
  {
    forall i :: 0 <= i < |c.preds[g]| && c.preds[g][i].Some? ==> c.preds[g][i].value in done
  }

  /** The qubits on which the successor of p is in the set. */
  function DoneQubits(c: Circuit, p: nat, done: set<nat>): (s: set<nat>)
    requires Shaped(c) && p in c.gates
    ensures forall q :: q in s <==> On(c, p, q) && SuccOn(c, p, q).Some? && SuccOn(c, p, q).value in done
  {
    set q | q in c.gates[p].qubits && SuccOn(c, p, q).Some? && SuccOn(c, p, q).value in done
  }

  /** The qubits on which p has a successor. */
  function LinkedQubits(c: Circuit, p: nat): (s: set<nat>)
    requires Shaped(c) && p in c.gates
    ensures forall q :: q in s <==> On(c, p, q) && SuccOn(c, p, q).Some?
  {
    set q | q in c.gates[p].qubits && SuccOn(c, p, q).Some?
  }

  /** The gate has successors, and all are in the set. */
  predicate Finished(c: Circuit, p: nat, done: set<nat>)
    requires Shaped(c) && p in c.gates
  {
    LinkedQubits(c, p) != {} && DoneQubits(c, p, done) == LinkedQubits(c, p)
  }

  /** The table holds exactly the executed gates that are not finished, each with the number of its executed successors. */
  predicate TableOk(c: Circuit, table: map<nat, nat>, done: set<nat>) {
    && Shaped(c) && done <= c.gates.Keys && table.Keys <= c.gates.Keys
    && forall p {:trigger EntryOk(c, table, done, p)} :: p in c.gates ==> EntryOk(c, table, done, p)
  }

  predicate EntryOk(c: Circuit, table: map<nat, nat>, done: set<nat>, p: nat)
    requires Shaped(c) && p in c.gates
  {
    && (p in table <==> p in done && !Finished(c, p, done))
    && (p in table ==> table[p] == |DoneQubits(c, p, done)|)
  }

  /** Executed gates have executed predecessors. */
  predicate DownClosed(c: Circuit, done: set<nat>)
    requires Shaped(c)
  {
    forall g :: g in done && g in c.gates ==> (assert GateShaped(c, g); ReadyIn(c, g, done))
  }

  /** The frontier: not executed, and all predecessors executed. */
  predicate Frontier(c: Circuit, g: nat, done: set<nat>) {
    g in c.gates && g in c.preds && g !in done && ReadyIn(c, g, done)
  }

  /** The availability test on the trimmed table. */
  predicate ReadyInTable(c: Circuit, g: nat, table: map<nat, nat>)
    requires g in c.preds
  {
    forall i :: 0 <= i < |c.preds[g]| && c.preds[g][i].Some? ==> c.preds[g][i].value in table
  }

  lemma PredAt(c: Circuit, chains: seq<seq<nat>>, rank: map<nat, int>, g: nat, i: nat)
    requires Chained(c, chains) && Ranked(chains, rank) && g in c.gates && g in c.preds && i < |c.preds[g]| && c.preds[g][i].Some?
    ensures i < |c.gates[g].qubits|
    ensures var p, q := c.preds[g][i].value, c.gates[g].qubits[i];
      On(c, p, q) && On(c, g, q) && SuccOn(c, p, q) == Some(g) && PredOn(c, g, q) == Some(p) && p in rank && g in rank && rank[p] < rank[g]
  {
    assert GateShaped(c, g);
    PinIsUnique(c.gates[g], |c.first|, i);
    PredLinksBack(c, chains, rank, g, c.gates[g].qubits[i]);
  }

  lemma SuccAt(c: Circuit, chains: seq<seq<nat>>, rank: map<nat, int>, g: nat, i: nat)
    requires Chained(c, chains) && Ranked(chains, rank) && g in c.gates && g in c.succs && i < |c.succs[g]| && c.succs[g][i].Some?
    ensures i < |c.gates[g].qubits|
    ensures var s, q := c.succs[g][i].value, c.gates[g].qubits[i];
      On(c, s, q) && On(c, g, q) && PredOn(c, s, q) == Some(g) && SuccOn(c, g, q) == Some(s) && s in rank && g in rank && rank[g] < rank[s]
  {
    assert GateShaped(c, g);
    PinIsUnique(c.gates[g], |c.first|, i);
    SuccLinksBack(c, chains, rank, g, c.gates[g].qubits[i]);
  }

  /** Trimming is invisible: for a gate that is not executed, the table gives the same answer as the full set. */
  lemma TrimmingIsInvisible(c: Circuit, chains: seq<seq<nat>>, rank: map<nat, int>, table: map<nat, nat>, done: set<nat>, g: nat)
    requires Chained(c, chains) && Ranked(chains, rank) && TableOk(c, table, done) && g in c.gates && g in c.preds && g !in done
    ensures ReadyInTable(c, g, table) <==> ReadyIn(c, g, done)
  {
    forall i | 0 <= i < |c.preds[g]| && c.preds[g][i].Some?
      ensures c.preds[g][i].value in table <==> c.preds[g][i].value in done
    {
      PredAt(c, chains, rank, g, i);
      var p, q := c.preds[g][i].value, c.gates[g].qubits[i];
      assert EntryOk(c, table, done, p);
      assert q in LinkedQubits(c, p) && q !in DoneQubits(c, p, done);
    }
  }

  // ---------- executing a gate ----------

  /** While g is being executed its own entry is already in the table. */
  predicate Entered(c: Circuit, table: map<nat, nat>, done: set<nat>, g: nat) {
    && Shaped(c) && g in c.gates && g !in done && done <= c.gates.Keys && table.Keys <= c.gates.Keys
    && g in table && table[g] == 0
    && forall p {:trigger EntryOk(c, table, done, p)} :: p in c.gates && p != g ==> EntryOk(c, table, done, p)
  }

  lemma EntersTable(c: Circuit, table: map<nat, nat>, done: set<nat>, g: nat)
    requires TableOk(c, table, done) && g in c.gates && g !in done
    ensures Entered(c, table[g := 0], done, g)
  {
    forall p | p in c.gates && p != g ensures EntryOk(c, table[g := 0], done, p) {
      assert EntryOk(c, table, done, p);
    }
  }

  /** With the entry of g the test answers for the set with g, on every other gate that is not executed. */
  lemma EnteredAnswers(c: Circuit, chains: seq<seq<nat>>, rank: map<nat, int>, table: map<nat, nat>, done: set<nat>, g: nat, next: nat)
    requires Chained(c, chains) && Ranked(chains, rank) && Entered(c, table, done, g)
    requires next in c.gates && next in c.preds && next !in done && next != g
    ensures ReadyInTable(c, next, table) <==> ReadyIn(c, next, done + {g})
  {
    forall i | 0 <= i < |c.preds[next]| && c.preds[next][i].Some?
      ensures c.preds[next][i].value in table <==> c.preds[next][i].value in done + {g}
    {
      PredAt(c, chains, rank, next, i);
      var p, q := c.preds[next][i].value, c.gates[next].qubits[i];
      if p != g {
        assert EntryOk(c, table, done, p);
        assert q in LinkedQubits(c, p) && q !in DoneQubits(c, p, done);
      }
    }
  }

  /** A gate that becomes part of the frontier is a successor of the executed one. */
  lemma NewInFrontier(c: Circuit, chains: seq<seq<nat>>, rank: map<nat, int>, done: set<nat>, g: nat, next: nat) returns (i: nat)
    requires Chained(c, chains) && Ranked(chains, rank) && g in c.gates && g in c.succs && Frontier(c, next, done + {g}) && !Frontier(c, next, done)
    ensures i < |c.succs[g]| && c.succs[g][i] == Some(next)
  {
    var j :| 0 <= j < |c.preds[next]| && c.preds[next][j] == Some(g);
    PredAt(c, chains, rank, next, j);
    assert GateShaped(c, g);
    i := PinOf(c.gates[g].qubits, c.gates[next].qubits[j]);
  }

  /** The qubits of the first k pins of g whose predecessor is p. */
  function FromPins(c: Circuit, g: nat, k: nat, p: nat): (s: set<nat>)
    requires Shaped(c) && g in c.gates && g in c.preds && k <= |c.preds[g]| == |c.gates[g].qubits|
  {
    set i | 0 <= i < k && c.preds[g][i] == Some(p) :: c.gates[g].qubits[i]
  }

  /** The entries of all gates after the first k pins of g have been counted. */
  predicate Counted(c: Circuit, table: map<nat, nat>, done: set<nat>, g: nat, k: nat, p: nat)
    requires Shaped(c) && g in c.gates && g in c.preds && k <= |c.preds[g]| == |c.gates[g].qubits| && p in c.gates
  {
    && (p in table <==> p in done && !Finished(c, p, done))
    && (p in table ==> table[p] == |DoneQubits(c, p, done) + FromPins(c, g, k, p)|)
  }

  predicate AllCounted(c: Circuit, table: map<nat, nat>, done: set<nat>, g: nat, k: nat) {
    && Shaped(c) && g in c.gates && g in c.preds && k <= |c.preds[g]| == |c.gates[g].qubits|
    && table.Keys <= c.gates.Keys && g in table && table[g] == 0
    && forall p {:trigger Counted(c, table, done, g, k, p)} :: p in c.gates && p != g ==> Counted(c, table, done, g, k, p)
  }

  lemma PinsNext(c: Circuit, chains: seq<seq<nat>>, rank: map<nat, int>, g: nat, k: nat, p: nat)
    requires Chained(c, chains) && Ranked(chains, rank) && g in c.gates && g in c.preds && k < |c.preds[g]| == |c.gates[g].qubits|
    ensures c.preds[g][k] != Some(p) ==> FromPins(c, g, k + 1, p) == FromPins(c, g, k, p)
    ensures c.preds[g][k] == Some(p) ==>
      var q := c.gates[g].qubits[k];
      && FromPins(c, g, k + 1, p) == FromPins(c, g, k, p) + {q} && q !in FromPins(c, g, k, p)
      && On(c, p, q) && SuccOn(c, p, q) == Some(g)
  {
    assert GateShaped(c, g);
    if c.preds[g][k] == Some(p) {
      PredAt(c, chains, rank, g, k);
    }
  }

  lemma OneMore(a: set<nat>, b: set<nat>, q: nat)
    requires q !in a && q !in b
    ensures |a + (b + {q})| == |a + b| + 1
  {
    assert a + (b + {q}) == a + b + {q};
  }

  /** The predecessor on the k-th pin of a gate that can be executed is in the table, and counts one more. */
  lemma CountPred(c: Circuit, chains: seq<seq<nat>>, rank: map<nat, int>, table: map<nat, nat>, done: set<nat>, g: nat, k: nat, v: nat)
    requires Chained(c, chains) && Ranked(chains, rank) && AllCounted(c, table, done, g, k) && k < |c.preds[g]|
    requires g !in done && ReadyIn(c, g, done) && c.preds[g][k] == Some(v)
    ensures v in table && v in c.gates && v != g && !Finished(c, v, done)
    ensures table[v] + 1 == |DoneQubits(c, v, done) + FromPins(c, g, k + 1, v)|
  {
    PredAt(c, chains, rank, g, k);
    var q := c.gates[g].qubits[k];
    PinsNext(c, chains, rank, g, k, v);
    assert q in LinkedQubits(c, v) && q !in DoneQubits(c, v, done);
    assert Counted(c, table, done, g, k, v);
    OneMore(DoneQubits(c, v, done), FromPins(c, g, k, v), q);
  }

  lemma SkipPin(c: Circuit, chains: seq<seq<nat>>, rank: map<nat, int>, table: map<nat, nat>, done: set<nat>, g: nat, k: nat)
    requires Chained(c, chains) && Ranked(chains, rank) && AllCounted(c, table, done, g, k) && k < |c.preds[g]| && c.preds[g][k].None?
    ensures AllCounted(c, table, done, g, k + 1)
  {
    forall p | p in c.gates && p != g ensures Counted(c, table, done, g, k + 1, p) {
      assert Counted(c, table, done, g, k, p);
      PinsNext(c, chains, rank, g, k, p);
    }
  }

  lemma CountOther(c: Circuit, chains: seq<seq<nat>>, rank: map<nat, int>, table: map<nat, nat>, table': map<nat, nat>, done: set<nat>, g: nat, k: nat, p: nat)
    requires Chained(c, chains) && Ranked(chains, rank) && AllCounted(c, table, done, g, k) && k < |c.preds[g]|
    requires p in c.gates && p != g && c.preds[g][k] != Some(p)
    requires (p in table' <==> p in table) && (p in table ==> table'[p] == table[p])
    ensures Counted(c, table', done, g, k + 1, p)
  {
    assert Counted(c, table, done, g, k, p);
    PinsNext(c, chains, rank, g, k, p);
  }

  lemma CountPin(c: Circuit, chains: seq<seq<nat>>, rank: map<nat, int>, table: map<nat, nat>, done: set<nat>, g: nat, k: nat, v: nat)
    requires Chained(c, chains) && Ranked(chains, rank) && AllCounted(c, table, done, g, k) && k < |c.preds[g]|
    requires g !in done && ReadyIn(c, g, done) && c.preds[g][k] == Some(v)
    ensures v in table && AllCounted(c, table[v := table[v] + 1], done, g, k + 1)
  {
    hide Chained, Ranked, ReadyIn, Counted;
    CountPred(c, chains, rank, table, done, g, k, v);
    CountOne(c, chains, rank, table, done, g, k, v);
    var table' := table[v := table[v] + 1];
    forall p | p in c.gates && p != g ensures Counted(c, table', done, g, k + 1, p) {
      if p != v {
        CountOther(c, chains, rank, table, table', done, g, k, p);
      }
    }
  }

  lemma CountOne(c: Circuit, chains: seq<seq<nat>>, rank: map<nat, int>, table: map<nat, nat>, done: set<nat>, g: nat, k: nat, v: nat)
    requires Chained(c, chains) && Ranked(chains, rank) && AllCounted(c, table, done, g, k) && k < |c.preds[g]|
    requires g !in done && ReadyIn(c, g, done) && c.preds[g][k] == Some(v)
    ensures v in table && v in c.gates && Counted(c, table[v := table[v] + 1], done, g, k + 1, v)
  {
    hide Chained, Ranked, ReadyIn, Finished, DoneQubits, FromPins;
    CountPred(c, chains, rank, table, done, g, k, v);
    assert Counted(c, table, done, g, k, v);
  }

  // ---------- trimming ----------

  /** The first k pins of g show that p is finished. */
  predicate ToTrim(c: Circuit, done: set<nat>, g: nat, k: nat, p: nat)
    requires Shaped(c) && g in c.gates && g in c.preds && k <= |c.preds[g]| == |c.gates[g].qubits| && p in c.gates
  {
    FromPins(c, g, k, p) != {} && |DoneQubits(c, p, done) + FromPins(c, g, k, p)| >= |LinkedQubits(c, p)|
  }

  lemma PinsAreLinked(c: Circuit, chains: seq<seq<nat>>, rank: map<nat, int>, g: nat, k: nat, p: nat)
    requires Chained(c, chains) && Ranked(chains, rank) && g in c.gates && g in c.preds && k <= |c.preds[g]| == |c.gates[g].qubits|
    requires p in c.gates
    ensures forall q :: q in FromPins(c, g, k, p) ==> On(c, p, q) && SuccOn(c, p, q) == Some(g)
    ensures k == |c.preds[g]| ==> forall q :: On(c, p, q) && SuccOn(c, p, q) == Some(g) ==> q in FromPins(c, g, k, p)
  {
    forall q | q in FromPins(c, g, k, p) ensures On(c, p, q) && SuccOn(c, p, q) == Some(g) {
      var i :| 0 <= i < k && c.preds[g][i] == Some(p) && c.gates[g].qubits[i] == q;
      PredAt(c, chains, rank, g, i);
    }
    if k == |c.preds[g]| {
      forall q | On(c, p, q) && SuccOn(c, p, q) == Some(g) ensures q in FromPins(c, g, k, p) {
        SuccLinksBack(c, chains, rank, p, q);
        var i := PinOf(c.gates[g].qubits, q);
        assert c.preds[g][i] == Some(p);
      }
    }
  }

  /** With g executed, exactly the qubits that lead to g are new. */
  lemma DoneQubitsAfter(c: Circuit, chains: seq<seq<nat>>, rank: map<nat, int>, done: set<nat>, g: nat, p: nat)
    requires Chained(c, chains) && Ranked(chains, rank) && g in c.gates && g in c.preds && |c.preds[g]| == |c.gates[g].qubits| && p in c.gates
    ensures DoneQubits(c, p, done + {g}) == DoneQubits(c, p, done) + FromPins(c, g, |c.preds[g]|, p)
  {
    PinsAreLinked(c, chains, rank, g, |c.preds[g]|, p);
  }

  lemma TrimmedEntry(c: Circuit, chains: seq<seq<nat>>, rank: map<nat, int>, table: map<nat, nat>, trimmed: map<nat, nat>, done: set<nat>, g: nat, p: nat)
    requires Chained(c, chains) && Ranked(chains, rank) && g in c.preds && AllCounted(c, table, done, g, |c.preds[g]|) && g !in done
    requires p in c.gates && p != g
    requires ReadyIn(c, g, done)
    requires p in trimmed <==> p in table && !ToTrim(c, done, g, |c.preds[g]|, p)
    requires p in trimmed ==> trimmed[p] == table[p]
    ensures EntryOk(c, trimmed, done + {g}, p)
  {
    var n := |c.preds[g]|;
    var a, b, l := DoneQubits(c, p, done), FromPins(c, g, n, p), LinkedQubits(c, p);
    assert Counted(c, table, done, g, n, p);
    DoneQubitsAfter(c, chains, rank, done, g, p);
    PinsAreLinked(c, chains, rank, g, n, p);
    NewIsDone(c, done, g, p, n);
    hide Chained, Ranked, ReadyIn, DoneQubits, FromPins, LinkedQubits, AllCounted;
    assert a + b <= l && a !! b;
    TrimDecides(a, b, l, p in table, p in trimmed, p in done);
  }

  /** A gate some pin of an available gate leads back to has been executed. */
  lemma NewIsDone(c: Circuit, done: set<nat>, g: nat, p: nat, n: nat)
    requires Shaped(c) && g in c.gates && g in c.preds && n == |c.preds[g]| == |c.gates[g].qubits| && ReadyIn(c, g, done)
    ensures FromPins(c, g, n, p) != {} ==> p in done
  {
    if FromPins(c, g, n, p) != {} {
      var q :| q in FromPins(c, g, n, p);
      var i :| 0 <= i < n && c.preds[g][i] == Some(p) && c.gates[g].qubits[i] == q;
    }
  }

  /** Which entries are left, from the qubits done before and now. */
  lemma TrimDecides(a: set<nat>, b: set<nat>, l: set<nat>, inTable: bool, inTrimmed: bool, executed: bool)
    requires a + b <= l && a !! b && (b != {} ==> executed)
    requires inTable <==> executed && !(l != {} && a == l)
    requires inTrimmed <==> inTable && !(b != {} && |a + b| >= |l|)
    ensures inTrimmed <==> executed && !(l != {} && a + b == l)
  {
    SubsetSize(a + b, l);
    if b == {} {
      assert a + b == a;
    } else {
      var q :| q in b;
      assert q in l && q !in a;
    }
  }

  lemma NotDone(c: Circuit, done: set<nat>, s: nat, i: nat, g: nat)
    requires Shaped(c) && DownClosed(c, done) && done <= c.gates.Keys && g !in done
    requires s in c.preds && i < |c.preds[s]| && c.preds[s][i] == Some(g)
    ensures s !in done
  {
  }

  lemma OwnEntry(c: Circuit, chains: seq<seq<nat>>, rank: map<nat, int>, trimmed: map<nat, nat>, done: set<nat>, g: nat)
    requires Chained(c, chains) && Ranked(chains, rank) && g in c.gates && g !in done && DownClosed(c, done) && done <= c.gates.Keys
    requires g in trimmed && trimmed[g] == 0
    ensures EntryOk(c, trimmed, done + {g}, g)
  {
    forall q | On(c, g, q) && SuccOn(c, g, q).Some? ensures SuccOn(c, g, q).value !in done + {g} {
      SuccLinksBack(c, chains, rank, g, q);
      var s := SuccOn(c, g, q).value;
      assert GateShaped(c, s);
      NotDone(c, done, s, PinOf(c.gates[s].qubits, q), g);
    }
    assert DoneQubits(c, g, done + {g}) == {};
  }

  /** After the executed gate has been counted and its finished predecessors trimmed, the table is right again. */
  lemma TrimmedTableOk(c: Circuit, chains: seq<seq<nat>>, rank: map<nat, int>, table: map<nat, nat>, trim: set<nat>, done: set<nat>, g: nat)
    requires Chained(c, chains) && Ranked(chains, rank) && g in c.preds && AllCounted(c, table, done, g, |c.preds[g]|) && g !in done
    requires ReadyIn(c, g, done) && DownClosed(c, done) && done <= c.gates.Keys
    requires forall p {:trigger ToTrim(c, done, g, |c.preds[g]|, p)} :: p in c.gates ==> (p in trim <==> ToTrim(c, done, g, |c.preds[g]|, p))
    ensures TableOk(c, table - trim, done + {g})
  {
    PinsAreLinked(c, chains, rank, g, |c.preds[g]|, g);
    assert FromPins(c, g, |c.preds[g]|, g) == {} by {
      forall q | q in FromPins(c, g, |c.preds[g]|, g) ensures false { SuccLinksBack(c, chains, rank, g, q); }
    }
    assert g !in trim by { assert !ToTrim(c, done, g, |c.preds[g]|, g); }
    forall p | p in c.gates ensures EntryOk(c, table - trim, done + {g}, p) {
      if p == g {
        OwnEntry(c, chains, rank, table - trim, done, g);
      } else {
        TrimmedEntry(c, chains, rank, table, table - trim, done, g, p);
      }
    }
  }

  // ---------- progress ----------

  lemma {:induction false} Lowest(s: set<nat>, rank: map<nat, int>) returns (g: nat)
    requires s != {} && forall h :: h in s ==> h in rank
    ensures g in s && forall h :: h in s ==> rank[g] <= rank[h]
    decreases |s|
  {
    g :| g in s;
    if s != {g} {
      var h := Lowest(s - {g}, rank);
      if rank[h] < rank[g] { g := h; }
    }
  }

  lemma InRank(c: Circuit, chains: seq<seq<nat>>, rank: map<nat, int>, g: nat)
    requires Chained(c, chains) && Ranked(chains, rank) && g in c.gates
    ensures g in rank
  {
    assert GateShaped(c, g);
    var q := c.gates[g].qubits[0];
    var i := OnChain(c, chains, g, q);
    assert Rising(chains[q], rank);
  }

  /** Until all gates are executed, some gate is available. */
  lemma FrontierNotEmpty(c: Circuit, chains: seq<seq<nat>>, rank: map<nat, int>, done: set<nat>) returns (g: nat)
    requires Chained(c, chains) && Ranked(chains, rank) && done < c.gates.Keys
    ensures Frontier(c, g, done)
  {
    var left := c.gates.Keys - done;
    forall h | h in left ensures h in rank { InRank(c, chains, rank, h); }
    var some :| some in c.gates.Keys && some !in done;
    assert some in left;
    g := Lowest(left, rank);
    assert GateShaped(c, g);
    forall i | 0 <= i < |c.preds[g]| && c.preds[g][i].Some? ensures c.preds[g][i].value in done {
      PredAt(c, chains, rank, g, i);
    }
  }

  /** How far a chain has been executed. */
  function DoneCount(chain: seq<nat>, done: set<nat>): (k: nat)
    ensures k <= |chain|
    ensures forall i :: 0 <= i < k ==> chain[i] in done
    ensures k < |chain| ==> chain[k] !in done
  {
    if |chain| > 0 && chain[0] in done then 1 + DoneCount(chain[1..], done) else 0
  }

  lemma DoneIsPrefix(c: Circuit, chains: seq<seq<nat>>, done: set<nat>, q: nat, i: nat)
    requires Chained(c, chains) && DownClosed(c, done) && q < |chains| && i < |chains[q]|
    ensures chains[q][i] in done <==> i < DoneCount(chains[q], done)
  {
    if chains[q][i] in done {
      PrefixDone(c, chains, done, q, i, DoneCount(chains[q], done));
    }
  }

  lemma {:induction false} PrefixDone(c: Circuit, chains: seq<seq<nat>>, done: set<nat>, q: nat, i: nat, j: nat)
    requires Chained(c, chains) && DownClosed(c, done) && q < |chains| && i < |chains[q]| && chains[q][i] in done
    ensures j <= i ==> chains[q][j] in done
    decreases i
  {
    if j < i {
      assert ChainOk(c, chains[q], q) && LinkAt(c, chains[q], q, i);
      var g := chains[q][i];
      assert GateShaped(c, g) && ReadyIn(c, g, done);
      assert c.preds[g][PinOf(c.gates[g].qubits, q)] == Some(chains[q][i - 1]);
      PrefixDone(c, chains, done, q, i - 1, j);
    }
  }

  lemma CountIs(chain: seq<nat>, done: set<nat>, k: nat)
    requires k <= |chain| && (forall i :: 0 <= i < k ==> chain[i] in done) && (k < |chain| ==> chain[k] !in done)
    ensures DoneCount(chain, done) == k
  {
  }

  /** Executing an available gate moves exactly the chains of its qubits one gate further. */
  lemma ExecutedMoves(c: Circuit, chains: seq<seq<nat>>, done: set<nat>, g: nat, q: nat)
    requires Chained(c, chains) && DownClosed(c, done) && Frontier(c, g, done) && q < |chains|
    ensures On(c, g, q) ==> DoneCount(chains[q], done) < |chains[q]| && chains[q][DoneCount(chains[q], done)] == g
    ensures DoneCount(chains[q], done + {g}) == DoneCount(chains[q], done) + if On(c, g, q) then 1 else 0
  {
    var k := DoneCount(chains[q], done);
    assert ChainOk(c, chains[q], q);
    if On(c, g, q) {
      var i := OnChain(c, chains, g, q);
      assert GateShaped(c, g);
      assert i > 0 ==> c.preds[g][PinOf(c.gates[g].qubits, q)] == Some(chains[q][i - 1]);
      forall j | 0 <= j < i ensures chains[q][j] in done { PrefixDone(c, chains, done, q, i - 1, j); }
      CountIs(chains[q], done, i);
      if i + 1 < |chains[q]| {
        DoneIsPrefix(c, chains, done, q, i + 1);
      }
      CountIs(chains[q], done + {g}, i + 1);
    } else {
      ChainMembers(c, chains[q], q);
      CountIs(chains[q], done + {g}, k);
    }
  }

  lemma StillClosed(c: Circuit, done: set<nat>, g: nat)
    requires Shaped(c) && DownClosed(c, done) && Frontier(c, g, done)
    ensures DownClosed(c, done + {g})
  {
    forall h | h in done + {g} && h in c.gates ensures (assert GateShaped(c, h); ReadyIn(c, h, done + {g})) {
      assert GateShaped(c, h);
      assert h != g ==> ReadyIn(c, h, done);
    }
  }

  // ---------- the object ----------

  function Remove(s: seq<nat>, g: nat): (r: seq<nat>)
    ensures forall h :: h in r <==> h in s && h != g
  {
    if |s| == 0 then []
    else if s[|s| - 1] == g then Remove(s[..|s| - 1], g)
    else Remove(s[..|s| - 1], g) + [s[|s| - 1]]
  }

  /** The successors that are in the frontier, in the order of the pins. */
  function Released(c: Circuit, succs: seq<Option<nat>>, done: set<nat>): seq<nat> {
    if |succs| == 0 then []
    else
      var k := |succs| - 1;
      Released(c, succs[..k], done) + if succs[k].Some? && Frontier(c, succs[k].value, done) then [succs[k].value] else []
  }

  lemma ReleasedNext(c: Circuit, succs: seq<Option<nat>>, done: set<nat>, k: nat)
    requires k < |succs|
    ensures Released(c, succs[..k + 1], done)
            == Released(c, succs[..k], done) + if succs[k].Some? && Frontier(c, succs[k].value, done) then [succs[k].value] else []
  {
    assert succs[..k + 1][..k] == succs[..k];
  }

  /** First come, first served: the executed gate leaves the list, and the gates it releases line up behind. */
  function WaitingAfter(c: Circuit, waiting: seq<nat>, done: set<nat>, g: nat): seq<nat>
    requires g in c.succs
  {
    Remove(waiting, g) + Released(c, c.succs[g], done + {g})
  }

  predicate Increasing(s: seq<nat>) { forall i, j :: 0 <= i < j < |s| ==> s[i] < s[j] }

  /** The list of available gates is exactly the frontier. */
  predicate ListsFrontier(c: Circuit, available: seq<nat>, done: set<nat>) {
    (forall g :: g in available ==> Frontier(c, g, done)) && forall g :: g in c.gates && Frontier(c, g, done) ==> g in available
  }

  /** The list holds the frontier but for the gate being executed. */
  predicate ListsOthers(c: Circuit, available: seq<nat>, done: set<nat>, g: nat) {
    && (forall h :: h in available ==> Frontier(c, h, done + {g}))
    && forall h :: h in c.gates && Frontier(c, h, done) && h != g ==> h in available
  }

  lemma RemovedLists(c: Circuit, available: seq<nat>, done: set<nat>, g: nat)
    requires ListsFrontier(c, available, done)
    ensures ListsOthers(c, Remove(available, g), done, g)
  {
  }

  /** The successor on the j-th pin is listed if it has become available. */
  predicate Pushed(c: Circuit, available: seq<nat>, done: set<nat>, g: nat, j: nat)
    requires g in c.succs && j < |c.succs[g]|
  {
    c.succs[g][j].Some? && Frontier(c, c.succs[g][j].value, done + {g}) ==> c.succs[g][j].value in available
  }

  /** The test at a successor is the test for the set with g. */
  lemma SuccessorAnswers(c: Circuit, chains: seq<seq<nat>>, rank: map<nat, int>, table: map<nat, nat>, done: set<nat>, g: nat, k: nat)
    requires Chained(c, chains) && Ranked(chains, rank) && Entered(c, table, done, g) && DownClosed(c, done)
    requires g in c.succs && k < |c.succs[g]| && c.succs[g][k].Some?
    ensures var next := c.succs[g][k].value;
      next in c.preds && (ReadyInTable(c, next, table) <==> Frontier(c, next, done + {g}))
  {
    SuccAt(c, chains, rank, g, k);
    var next, q := c.succs[g][k].value, c.gates[g].qubits[k];
    assert GateShaped(c, next);
    NotDone(c, done, next, PinOf(c.gates[next].qubits, q), g);
    EnteredAnswers(c, chains, rank, table, done, g, next);
  }

  /** The list while the first k successors have been looked at. */
  predicate Pushing(c: Circuit, others: seq<nat>, available: seq<nat>, done: set<nat>, g: nat, k: nat) {
    && g in c.succs && k <= |c.succs[g]| && ListsOthers(c, others, done, g)
    && available == others + Released(c, c.succs[g][..k], done + {g})
    && ListsOthers(c, available, done, g)
    && forall j :: 0 <= j < k ==> Pushed(c, available, done, g, j)
  }

  lemma PushingStarts(c: Circuit, others: seq<nat>, done: set<nat>, g: nat)
    requires g in c.succs && ListsOthers(c, others, done, g)
    ensures Pushing(c, others, others, done, g, 0)
  {
  }

  lemma PushingStep(c: Circuit, others: seq<nat>, available: seq<nat>, done: set<nat>, g: nat, k: nat)
    requires g in c.succs && Pushing(c, others, available, done, g, k) && k < |c.succs[g]|
    ensures
      var next := c.succs[g][k];
      Pushing(c, others, if next.Some? && Frontier(c, next.value, done + {g}) then available + [next.value] else available, done, g, k + 1)
  {
    hide Frontier;
    ReleasedNext(c, c.succs[g], done + {g}, k);
    var next := c.succs[g][k];
    var available' := if next.Some? && Frontier(c, next.value, done + {g}) then available + [next.value] else available;
    assert forall h :: h in available ==> h in available';
    assert available' == others + Released(c, c.succs[g][..k + 1], done + {g});
    forall j | 0 <= j < k + 1 ensures Pushed(c, available', done, g, j) {
      assert j < k ==> Pushed(c, available, done, g, j);
    }
  }

  lemma PushingEnds(c: Circuit, chains: seq<seq<nat>>, rank: map<nat, int>, others: seq<nat>, available: seq<nat>, done: set<nat>, g: nat)
    requires Chained(c, chains) && Ranked(chains, rank) && g in c.gates && g in c.succs
    requires Pushing(c, others, available, done, g, |c.succs[g]|)
    ensures ListsFrontier(c, available, done + {g})
    ensures available == others + Released(c, c.succs[g], done + {g})
  {
    assert c.succs[g][..|c.succs[g]|] == c.succs[g];
    AllPushed(c, chains, rank, available, done, g);
  }

  lemma AllPushed(c: Circuit, chains: seq<seq<nat>>, rank: map<nat, int>, available: seq<nat>, done: set<nat>, g: nat)
    requires Chained(c, chains) && Ranked(chains, rank) && g in c.gates && g in c.succs
    requires ListsOthers(c, available, done, g) && forall j :: 0 <= j < |c.succs[g]| ==> Pushed(c, available, done, g, j)
    ensures ListsFrontier(c, available, done + {g})
  {
    forall h | h in c.gates && Frontier(c, h, done + {g}) ensures h in available {
      if !Frontier(c, h, done) {
        var j := NewInFrontier(c, chains, rank, done, g, h);
        assert Pushed(c, available, done, g, j);
      }
    }
  }

  /** The qubits of the first k pins that have a successor. */
  function LinkedPins(c: Circuit, p: nat, k: nat): set<nat>
    requires p in c.gates && p in c.succs && k <= |c.succs[p]| == |c.gates[p].qubits|
  {
    set i | 0 <= i < k && c.succs[p][i].Some? :: c.gates[p].qubits[i]
  }

  lemma LinkedPinsNext(c: Circuit, p: nat, k: nat)
    requires Shaped(c) && p in c.gates && p in c.succs && k < |c.succs[p]| == |c.gates[p].qubits|
    ensures |LinkedPins(c, p, k + 1)| == |LinkedPins(c, p, k)| + if c.succs[p][k].Some? then 1 else 0
  {
    assert GateShaped(c, p);
    if c.succs[p][k].Some? {
      assert LinkedPins(c, p, k + 1) == LinkedPins(c, p, k) + {c.gates[p].qubits[k]};
    } else {
      assert LinkedPins(c, p, k + 1) == LinkedPins(c, p, k);
    }
  }

  lemma LinkedPinsAll(c: Circuit, p: nat)
    requires Shaped(c) && p in c.gates && p in c.succs && |c.succs[p]| == |c.gates[p].qubits|
    ensures LinkedPins(c, p, |c.succs[p]|) == LinkedQubits(c, p)
  {
    assert GateShaped(c, p);
    forall q | q in LinkedQubits(c, p) ensures q in LinkedPins(c, p, |c.succs[p]|) {
      assert c.succs[p][PinOf(c.gates[p].qubits, q)].Some?;
    }
    forall q | q in LinkedPins(c, p, |c.succs[p]|) ensures q in LinkedQubits(c, p) {
      var i :| 0 <= i < |c.succs[p]| && c.succs[p][i].Some? && c.gates[p].qubits[i] == q;
      PinIsUnique(c.gates[p], |c.first|, i);
    }
  }

  lemma NothingCounted(c: Circuit, table: map<nat, nat>, done: set<nat>, g: nat)
    requires Entered(c, table, done, g) && g in c.preds && |c.preds[g]| == |c.gates[g].qubits|
    ensures AllCounted(c, table, done, g, 0) && TrimLists(c, [], done, g, 0)
  {
    forall p | p in c.gates ensures FromPins(c, g, 0, p) == {} { }
    forall p | p in c.gates && p != g ensures Counted(c, table, done, g, 0, p) {
      assert EntryOk(c, table, done, p);
      assert DoneQubits(c, p, done) + {} == DoneQubits(c, p, done);
    }
  }

  /** The list of finished gates while pins are counted. */
  predicate TrimLists(c: Circuit, trim: seq<nat>, done: set<nat>, g: nat, k: nat)
    requires Shaped(c) && g in c.gates && g in c.preds && k <= |c.preds[g]| == |c.gates[g].qubits|
  {
    forall p {:trigger ToTrim(c, done, g, k, p)} :: p in c.gates ==> (p in trim <==> ToTrim(c, done, g, k, p))
  }

  lemma TrimSkips(c: Circuit, chains: seq<seq<nat>>, rank: map<nat, int>, trim: seq<nat>, done: set<nat>, g: nat, k: nat)
    requires Chained(c, chains) && Ranked(chains, rank) && g in c.gates && g in c.preds && k < |c.preds[g]| == |c.gates[g].qubits|
    requires TrimLists(c, trim, done, g, k) && c.preds[g][k].None?
    ensures TrimLists(c, trim, done, g, k + 1)
  {
    forall p | p in c.gates ensures p in trim <==> ToTrim(c, done, g, k + 1, p) {
      assert p in trim <==> ToTrim(c, done, g, k, p);
      PinsNext(c, chains, rank, g, k, p);
    }
  }

  lemma TrimCounts(c: Circuit, chains: seq<seq<nat>>, rank: map<nat, int>, trim: seq<nat>, done: set<nat>, g: nat, k: nat, v: nat, count: nat)
    requires Chained(c, chains) && Ranked(chains, rank) && g in c.gates && g in c.preds && k < |c.preds[g]| == |c.gates[g].qubits|
    requires TrimLists(c, trim, done, g, k) && c.preds[g][k] == Some(v) && v in c.gates
    requires count == |DoneQubits(c, v, done) + FromPins(c, g, k + 1, v)|
    ensures TrimLists(c, if count >= |LinkedQubits(c, v)| then trim + [v] else trim, done, g, k + 1)
  {
    var trim' := if count >= |LinkedQubits(c, v)| then trim + [v] else trim;
    forall p | p in c.gates ensures p in trim' <==> ToTrim(c, done, g, k + 1, p) {
      assert p in trim <==> ToTrim(c, done, g, k, p);
      PinsNext(c, chains, rank, g, k, p);
      if p == v {
        SubsetSize(DoneQubits(c, v, done) + FromPins(c, g, k, v), DoneQubits(c, v, done) + FromPins(c, g, k + 1, v));
      }
    }
  }

  /** The state while the predecessors of an executed gate are counted. */
  ghost predicate Counting(c: Circuit, chains: seq<seq<nat>>, rank: map<nat, int>, table: map<nat, nat>, trim: seq<nat>, done: set<nat>, g: nat, k: nat) {
    && Chained(c, chains) && Ranked(chains, rank) && g in c.preds && g !in done && ReadyIn(c, g, done)
    && AllCounted(c, table, done, g, k) && TrimLists(c, trim, done, g, k)
  }

  lemma CountingStarts(c: Circuit, chains: seq<seq<nat>>, rank: map<nat, int>, table: map<nat, nat>, done: set<nat>, g: nat)
    requires Chained(c, chains) && Ranked(chains, rank) && Entered(c, table, done, g) && g in c.preds && ReadyIn(c, g, done)
    ensures Counting(c, chains, rank, table, [], done, g, 0)
  {
    assert GateShaped(c, g);
    NothingCounted(c, table, done, g);
  }

  lemma CountingEnds(c: Circuit, chains: seq<seq<nat>>, rank: map<nat, int>, table: map<nat, nat>, trim: seq<nat>, done: set<nat>, g: nat)
    requires g in c.preds && Counting(c, chains, rank, table, trim, done, g, |c.preds[g]|)
    requires DownClosed(c, done) && done <= c.gates.Keys
    ensures TableOk(c, table - (set p | p in trim), done + {g}) && DownClosed(c, done + {g})
  {
    TrimmedTableOk(c, chains, rank, table, (set p | p in trim), done, g);
    StillClosed(c, done, g);
  }

  lemma CountingSkips(c: Circuit, chains: seq<seq<nat>>, rank: map<nat, int>, table: map<nat, nat>, trim: seq<nat>, done: set<nat>, g: nat, k: nat)
    requires Counting(c, chains, rank, table, trim, done, g, k) && k < |c.preds[g]| && c.preds[g][k].None?
    ensures Counting(c, chains, rank, table, trim, done, g, k + 1)
  {
    SkipPin(c, chains, rank, table, done, g, k);
    TrimSkips(c, chains, rank, trim, done, g, k);
  }

  lemma CountingStep(c: Circuit, chains: seq<seq<nat>>, rank: map<nat, int>, table: map<nat, nat>, trim: seq<nat>, done: set<nat>, g: nat, k: nat, v: nat)
    requires Counting(c, chains, rank, table, trim, done, g, k) && k < |c.preds[g]| && c.preds[g][k] == Some(v)
    ensures v in table && v in c.gates
    ensures Counting(c, chains, rank, table[v := table[v] + 1],
                     if table[v] + 1 >= |LinkedQubits(c, v)| then trim + [v] else trim, done, g, k + 1)
  {
    CountPred(c, chains, rank, table, done, g, k, v);
    CountPin(c, chains, rank, table, done, g, k, v);
    TrimCounts(c, chains, rank, trim, done, g, k, v, table[v] + 1);
  }

  class CircuitTopology {
    const circuit: Circuit
    ghost const chains: seq<seq<nat>>
    ghost const rank: map<nat, int>
    var available: seq<nat>
    var executed: map<nat, nat>
    ghost var done: set<nat>

    ghost predicate Valid()
      reads this
    {
      && Chained(circuit, chains) && Ranked(chains, rank)
      && TableOk(circuit, executed, done) && DownClosed(circuit, done) && ListsFrontier(circuit, available, done)
    }

    /** The circuit must number its gates from 0 without gaps. */
    constructor (circuit: Circuit, ghost chains: seq<seq<nat>>, ghost rank: map<nat, int>)
      requires Chained(circuit, chains) && Ranked(chains, rank)
      requires forall g :: g in circuit.gates <==> g < |circuit.gates|
      ensures Valid() && done == {} && this.circuit == circuit && this.chains == chains && this.rank == rank
      ensures Increasing(available)
    {
      this.circuit, this.chains, this.rank := circuit, chains, rank;
      available, executed, done := [], map[], {};
      new;
      assert TableOk(circuit, executed, done) by {
        forall p | p in circuit.gates ensures EntryOk(circuit, executed, done, p) { }
      }
      for i := 0 to |circuit.gates|
        invariant executed == map[] && done == {} && TableOk(circuit, executed, done)
        invariant forall g :: g in available ==> Frontier(circuit, g, {})
        invariant forall g :: g in circuit.gates && g < i && Frontier(circuit, g, {}) ==> g in available
        invariant Increasing(available) && forall k :: 0 <= k < |available| ==> available[k] < i
      {
        assert GateShaped(circuit, i);
        TrimmingIsInvisible(circuit, chains, rank, executed, done, i);
        if IsAvailable(i) {
          available := available + [i];
        }
      }
    }

    /** All predecessors are in the table of executed gates. */
    predicate IsAvailable(g: nat)
      requires g in circuit.preds
      reads this
    {
      ReadyInTable(circuit, g, executed)
    }

    /** Records that an available gate has been executed. */
    method UpdateAvailableGates(g: nat)
      requires Valid() && g in available
      modifies this
      ensures Valid() && done == old(done) + {g} && g in circuit.succs
      ensures available == WaitingAfter(circuit, old(available), old(done), g)
    {
      assert GateShaped(circuit, g);
      RemovedLists(circuit, available, done, g);
      available := Remove(available, g);
      EntersTable(circuit, executed, done, g);
      executed := executed[g := 0];
      PushSuccessors(g);
      CountingStarts(circuit, chains, rank, executed, done, g);
      var trim := CountPredecessors(g);
      CountingEnds(circuit, chains, rank, executed, trim, done, g);
      executed := executed - (set p | p in trim);
      done := done + {g};
    }

    /** Appends the successors that have become available. */
    method PushSuccessors(g: nat)
      requires Chained(circuit, chains) && Ranked(chains, rank) && Entered(circuit, executed, done, g) && g in circuit.succs
      requires DownClosed(circuit, done) && ListsOthers(circuit, available, done, g)
      modifies `available
      ensures ListsFrontier(circuit, available, done + {g})
      ensures available == old(available) + Released(circuit, circuit.succs[g], done + {g})
    {
      hide ListsOthers, Chained, Ranked, EntryOk, DownClosed, Pushing;
      var k := 0;
      ghost var others := available;
      PushingStarts(circuit, available, done, g);
      while k < |circuit.succs[g]|
        invariant k <= |circuit.succs[g]| && Pushing(circuit, others, available, done, g, k)
      {
        PushingStep(circuit, others, available, done, g, k);
        if circuit.succs[g][k].Some? {
          var next := circuit.succs[g][k].value;
          SuccessorAnswers(circuit, chains, rank, executed, done, g, k);
          if IsAvailable(next) {
            available := available + [next];
          }
        }
        k := k + 1;
      }
      PushingEnds(circuit, chains, rank, others, available, done, g);
    }

    /** Counts the executed gate at its predecessors; the result is the list of the finished ones. */
    method CountPredecessors(g: nat) returns (trim: seq<nat>)
      requires Counting(circuit, chains, rank, executed, [], done, g, 0)
      modifies `executed
      ensures Counting(circuit, chains, rank, executed, trim, done, g, |circuit.preds[g]|)
    {
      trim := [];
      var k := 0;
      while k < |circuit.preds[g]|
        invariant k <= |circuit.preds[g]|
        invariant Counting(circuit, chains, rank, executed, trim, done, g, k)
      {
        trim := CountPin(g, k, trim);
        k := k + 1;
      }
    }

    method CountPin(g: nat, k: nat, trim: seq<nat>) returns (trim': seq<nat>)
      requires Counting(circuit, chains, rank, executed, trim, done, g, k)
      requires k < |circuit.preds[g]|
      modifies `executed
      ensures Counting(circuit, chains, rank, executed, trim', done, g, k + 1)
    {
      trim' := trim;
      if circuit.preds[g][k].Some? {
        trim' := CountOne(g, k, circuit.preds[g][k].value, trim);
      } else {
        CountingSkips(circuit, chains, rank, executed, trim, done, g, k);
      }
    }

    /** Counts the executed gate at its predecessor on the k-th pin. */
    method CountOne(g: nat, k: nat, prev: nat, trim: seq<nat>) returns (trim': seq<nat>)
      requires Counting(circuit, chains, rank, executed, trim, done, g, k)
      requires k < |circuit.preds[g]| && circuit.preds[g][k] == Some(prev)
      modifies `executed
      ensures Counting(circuit, chains, rank, executed, trim', done, g, k + 1)
    {
      CountingStep(circuit, chains, rank, executed, trim, done, g, k, prev);
      executed := executed[prev := executed[prev] + 1];
      var size := NumSuccessors(prev);
      trim' := if executed[prev] >= size then trim + [prev] else trim;
    }

    /** The number of pins that have a successor. */
    method NumSuccessors(p: nat) returns (n: nat)
      requires Shaped(circuit) && p in circuit.gates
      ensures n == |LinkedQubits(circuit, p)|
    {
      assert GateShaped(circuit, p);
      n := 0;
      var k := 0;
      assert LinkedPins(circuit, p, 0) == {};
      while k < |circuit.succs[p]|
        invariant k <= |circuit.succs[p]| && n == |LinkedPins(circuit, p, k)|
      {
        LinkedPinsNext(circuit, p, k);
        if circuit.succs[p][k].Some? {
          n := n + 1;
        }
        k := k + 1;
      }
      LinkedPinsAll(circuit, p);
    }
  }
}
