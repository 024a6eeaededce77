/**
 Circuits as directed graphs: every gate knows, pin by pin, the gate before and the gate
 after it on that qubit, and every qubit knows its first and its last gate.
 The gates of one qubit form a chain, and the links run forward in some order of all gates.
 */
module Circuits {
  import opened Sequences

  datatype Option<+T> = None | Some(value: T)

  /** A gate: its operation and the qubits of its pins. */
  datatype LogicalGate = LogicalGate(kind: string, qubits: seq<nat>) {
    predicate Shape(n: nat) {
      && |qubits| > 0
      && (forall i :: 0 <= i < |qubits| ==> qubits[i] < n)
      && forall i, j :: 0 <= i < j < |qubits| ==> qubits[i] != qubits[j]
    }

    /** A gate on one or two different qubits. */
    predicate Fits(n: nat) {
      && (|qubits| == 1 || (|qubits| == 2 && qubits[0] != qubits[1]))
      && forall i :: 0 <= i < |qubits| ==> qubits[i] < n
    }
  }

  type Links = map<nat, seq<Option<nat>>>

  datatype Circuit = Circuit(
    gates: map<nat, LogicalGate>, preds: Links, succs: Links,
    first: seq<Option<nat>>, last: seq<Option<nat>>)

  /** The pin of a qubit. */
  function PinOf(qubits: seq<nat>, q: nat): (r: nat)
    requires q in qubits
    ensures r < |qubits| && qubits[r] == q
  {
    if qubits[0] == q then 0 else 1 + PinOf(qubits[1..], q)
  }

  lemma PinIsUnique(gate: LogicalGate, n: nat, pin: nat)
    requires gate.Shape(n) && pin < |gate.qubits|
    ensures PinOf(gate.qubits, gate.qubits[pin]) == pin
  {
  }

  /** Every gate has one link per pin in both tables. */
  predicate GateShaped(c: Circuit, g: nat)
    requires g in c.gates
  {
    && c.gates[g].Shape(|c.first|) && g in c.preds && g in c.succs
    && |c.preds[g]| == |c.gates[g].qubits| && |c.succs[g]| == |c.gates[g].qubits|
  }

  predicate Shaped(c: Circuit) {
    |c.last| == |c.first| && forall g :: g in c.gates ==> GateShaped(c, g)
  }

  predicate On(c: Circuit, g: nat, q: nat) { g in c.gates && q in c.gates[g].qubits }

  function PredOn(c: Circuit, g: nat, q: nat): Option<nat>
    requires Shaped(c) && On(c, g, q)
  {
    assert GateShaped(c, g);
    c.preds[g][PinOf(c.gates[g].qubits, q)]
  }

  function SuccOn(c: Circuit, g: nat, q: nat): Option<nat>
    requires Shaped(c) && On(c, g, q)
  {
    assert GateShaped(c, g);
    c.succs[g][PinOf(c.gates[g].qubits, q)]
  }

  function Before(chain: seq<nat>, i: nat): Option<nat>
    requires i < |chain|
  {
    if i == 0 then None else Some(chain[i - 1])
  }

  function After(chain: seq<nat>, i: nat): Option<nat>
    requires i < |chain|
  {
    if i == |chain| - 1 then None else Some(chain[i + 1])
  }

  function FirstOf(chain: seq<nat>): Option<nat> { if |chain| == 0 then None else Some(chain[0]) }

  function LastOf(chain: seq<nat>): Option<nat> { if |chain| == 0 then None else Some(chain[|chain| - 1]) }

  predicate LinkAt(c: Circuit, chain: seq<nat>, q: nat, i: nat)
    requires Shaped(c) && i < |chain|
  {
    On(c, chain[i], q) && PredOn(c, chain[i], q) == Before(chain, i) && SuccOn(c, chain[i], q) == After(chain, i)
  }

  /** The links on qubit q run through exactly this chain. */
  predicate ChainOk(c: Circuit, chain: seq<nat>, q: nat) {
    && Shaped(c) && q < |c.first| && Distinct(chain)
    && (forall i :: 0 <= i < |chain| ==> LinkAt(c, chain, q, i))
    && c.first[q] == FirstOf(chain) && c.last[q] == LastOf(chain)
  }

  predicate InChains(c: Circuit, chains: seq<seq<nat>>, g: nat, q: nat) {
    On(c, g, q) && q < |chains| ==> g in chains[q]
  }

  /** The chains of all qubits: every gate is on the chain of each of its qubits. */
  ghost predicate Chained(c: Circuit, chains: seq<seq<nat>>) {
    && Shaped(c) && |chains| == |c.first|
    && (forall q :: 0 <= q < |chains| ==> ChainOk(c, chains[q], q))
    && forall g: nat, q: nat :: InChains(c, chains, g, q)
  }

  predicate Rising(chain: seq<nat>, rank: map<nat, int>) {
    && (forall i :: 0 <= i < |chain| ==> chain[i] in rank)
    && forall i, j :: 0 <= i < j < |chain| ==> rank[chain[i]] < rank[chain[j]]
  }

  /** The links run forward. */
  predicate Ranked(chains: seq<seq<nat>>, rank: map<nat, int>) {
    forall q :: 0 <= q < |chains| ==> Rising(chains[q], rank)
  }

  // ---------- consequences ----------

  lemma OnChain(c: Circuit, chains: seq<seq<nat>>, g: nat, q: nat) returns (i: nat)
    requires Chained(c, chains) && On(c, g, q)
    ensures q < |chains| && i < |chains[q]| && chains[q][i] == g && LinkAt(c, chains[q], q, i)
  {
    assert GateShaped(c, g);
    assert InChains(c, chains, g, q);
    i :| 0 <= i < |chains[q]| && chains[q][i] == g;
    assert ChainOk(c, chains[q], q);
  }

  /** A predecessor on a qubit has the gate as its successor there, and stands lower. */
  lemma PredLinksBack(c: Circuit, chains: seq<seq<nat>>, rank: map<nat, int>, g: nat, q: nat)
    requires Chained(c, chains) && Ranked(chains, rank) && On(c, g, q) && PredOn(c, g, q).Some?
    ensures var p := PredOn(c, g, q).value; On(c, p, q) && SuccOn(c, p, q) == Some(g) && p in rank && g in rank && rank[p] < rank[g]
  {
    var i := OnChain(c, chains, g, q);
    assert LinkAt(c, chains[q], q, i - 1);
    assert Rising(chains[q], rank);
  }

  lemma SuccLinksBack(c: Circuit, chains: seq<seq<nat>>, rank: map<nat, int>, g: nat, q: nat)
    requires Chained(c, chains) && Ranked(chains, rank) && On(c, g, q) && SuccOn(c, g, q).Some?
    ensures var s := SuccOn(c, g, q).value; On(c, s, q) && PredOn(c, s, q) == Some(g) && s in rank && g in rank && rank[g] < rank[s]
  {
    var i := OnChain(c, chains, g, q);
    assert LinkAt(c, chains[q], q, i + 1);
    assert Rising(chains[q], rank);
  }

  lemma ChainMembers(c: Circuit, chain: seq<nat>, q: nat)
    requires ChainOk(c, chain, q)
    ensures forall g :: g in chain ==> On(c, g, q)
  {
    forall i | 0 <= i < |chain| ensures On(c, chain[i], q) { assert LinkAt(c, chain, q, i); }
  }

  // ---------- changing one link ----------

  function SetPred(c: Circuit, g: nat, q: nat, v: Option<nat>): Circuit
    requires Shaped(c) && On(c, g, q)
  {
    assert GateShaped(c, g);
    c.(preds := c.preds[g := c.preds[g][PinOf(c.gates[g].qubits, q) := v]])
  }

  function SetSucc(c: Circuit, g: nat, q: nat, v: Option<nat>): Circuit
    requires Shaped(c) && On(c, g, q)
  {
    assert GateShaped(c, g);
    c.(succs := c.succs[g := c.succs[g][PinOf(c.gates[g].qubits, q) := v]])
  }

  lemma AfterSetPred(c: Circuit, g: nat, q: nat, v: Option<nat>)
    requires Shaped(c) && On(c, g, q)
    ensures Shaped(SetPred(c, g, q, v))
    ensures forall h: nat, r: nat :: On(c, h, r) ==>
      && PredOn(SetPred(c, g, q, v), h, r) == (if h == g && r == q then v else PredOn(c, h, r))
      && SuccOn(SetPred(c, g, q, v), h, r) == SuccOn(c, h, r)
  {
    var d := SetPred(c, g, q, v);
    forall h | h in d.gates ensures GateShaped(d, h) { assert GateShaped(c, h); assert GateShaped(c, g); }
  }

  lemma AfterSetSucc(c: Circuit, g: nat, q: nat, v: Option<nat>)
    requires Shaped(c) && On(c, g, q)
    ensures Shaped(SetSucc(c, g, q, v))
    ensures forall h: nat, r: nat :: On(c, h, r) ==>
      && SuccOn(SetSucc(c, g, q, v), h, r) == (if h == g && r == q then v else SuccOn(c, h, r))
      && PredOn(SetSucc(c, g, q, v), h, r) == PredOn(c, h, r)
  {
    var d := SetSucc(c, g, q, v);
    forall h | h in d.gates ensures GateShaped(d, h) { assert GateShaped(c, h); assert GateShaped(c, g); }
  }

  // ---------- appending and prepending on one qubit ----------

  predicate SameLinks(c: Circuit, d: Circuit, h: nat, r: nat)
    requires Shaped(c) && Shaped(d) && c.gates == d.gates
  {
    On(c, h, r) ==> PredOn(d, h, r) == PredOn(c, h, r) && SuccOn(d, h, r) == SuccOn(c, h, r)
  }

  /** Nothing but the links and ends on qubit q has changed. */
  ghost predicate OnlyOn(c: Circuit, d: Circuit, q: nat) {
    && Shaped(c) && Shaped(d) && c.gates == d.gates && |c.first| == |d.first|
    && (forall h: nat, r: nat :: r != q ==> SameLinks(c, d, h, r))
    && forall r :: 0 <= r < |c.first| && r != q ==> d.first[r] == c.first[r] && d.last[r] == c.last[r]
  }

  lemma OtherChains(c: Circuit, d: Circuit, q: nat, chain: seq<nat>, r: nat)
    requires OnlyOn(c, d, q) && ChainOk(c, chain, r) && r != q
    ensures ChainOk(d, chain, r)
  {
    forall i | 0 <= i < |chain| ensures LinkAt(d, chain, r, i) {
      assert LinkAt(c, chain, r, i);
      assert SameLinks(c, d, chain[i], r);
    }
  }

  /** The circuit with gate id linked behind the last gate of q. */
  function LinkLast(c: Circuit, id: nat, q: nat): Circuit
    requires Shaped(c) && On(c, id, q) && q < |c.first|
    requires c.last[q].Some? ==> On(c, c.last[q].value, q)
  {
    if c.last[q].Some? then
      AfterSetSucc(c, c.last[q].value, q, Some(id));
      SetPred(SetSucc(c, c.last[q].value, q, Some(id)), id, q, c.last[q]).(last := c.last[q := Some(id)])
    else
      c.(first := c.first[q := Some(id)], last := c.last[q := Some(id)])
  }

  lemma LastOn(c: Circuit, chain: seq<nat>, q: nat)
    requires ChainOk(c, chain, q)
    ensures c.last[q].Some? ==> |chain| > 0 && c.last[q].value == chain[|chain| - 1] && On(c, c.last[q].value, q)
    ensures c.first[q].Some? ==> |chain| > 0 && c.first[q].value == chain[0] && On(c, c.first[q].value, q)
  {
    if |chain| > 0 {
      assert LinkAt(c, chain, q, |chain| - 1) && LinkAt(c, chain, q, 0);
    }
  }

  lemma ShapedWithEnds(c: Circuit, first: seq<Option<nat>>, last: seq<Option<nat>>)
    requires Shaped(c) && |first| == |last| == |c.first|
    ensures Shaped(c.(first := first, last := last))
    ensures forall h: nat, r: nat :: SameLinks(c, c.(first := first, last := last), h, r)
  {
    var d := c.(first := first, last := last);
    forall h | h in d.gates ensures GateShaped(d, h) { assert GateShaped(c, h); }
  }

  lemma LinkedLast(c: Circuit, id: nat, chain: seq<nat>, q: nat)
    requires ChainOk(c, chain, q) && On(c, id, q) && id !in chain
    requires PredOn(c, id, q) == None && SuccOn(c, id, q) == None
    requires c.last[q].Some? ==> On(c, c.last[q].value, q)
    ensures OnlyOn(c, LinkLast(c, id, q), q) && ChainOk(LinkLast(c, id, q), chain + [id], q)
  {
    LastOn(c, chain, q);
    var d := LinkLast(c, id, q);
    if c.last[q].Some? {
      var l := c.last[q].value;
      AfterSetSucc(c, l, q, Some(id));
      var m := SetSucc(c, l, q, Some(id));
      AfterSetPred(m, id, q, Some(l));
      ShapedWithEnds(SetPred(m, id, q, Some(l)), d.first, d.last);
      assert forall h: nat, r: nat :: SameLinks(SetPred(m, id, q, Some(l)), d, h, r);
    } else {
      ShapedWithEnds(c, d.first, d.last);
    }
    var longer := chain + [id];
    forall i | 0 <= i < |longer| ensures LinkAt(d, longer, q, i) {
      if i < |chain| { assert LinkAt(c, chain, q, i); assert SameLinks(c, c, chain[i], q); }
    }
  }

  /** The circuit with gate id linked before the first gate of q. */
  function LinkFirst(c: Circuit, id: nat, q: nat): Circuit
    requires Shaped(c) && On(c, id, q) && q < |c.first|
    requires c.first[q].Some? ==> On(c, c.first[q].value, q)
  {
    if c.first[q].Some? then
      AfterSetSucc(c, id, q, c.first[q]);
      SetPred(SetSucc(c, id, q, c.first[q]), c.first[q].value, q, Some(id)).(first := c.first[q := Some(id)])
    else
      c.(first := c.first[q := Some(id)], last := c.last[q := Some(id)])
  }

  lemma LinkedFirst(c: Circuit, id: nat, chain: seq<nat>, q: nat)
    requires ChainOk(c, chain, q) && On(c, id, q) && id !in chain
    requires PredOn(c, id, q) == None && SuccOn(c, id, q) == None
    requires c.first[q].Some? ==> On(c, c.first[q].value, q)
    ensures OnlyOn(c, LinkFirst(c, id, q), q) && ChainOk(LinkFirst(c, id, q), [id] + chain, q)
  {
    hide GateShaped;
    LastOn(c, chain, q);
    var d := LinkFirst(c, id, q);
    if c.first[q].Some? {
      var l := c.first[q].value;
      AfterSetSucc(c, id, q, Some(l));
      var m := SetSucc(c, id, q, Some(l));
      AfterSetPred(m, l, q, Some(id));
      ShapedWithEnds(SetPred(m, l, q, Some(id)), d.first, d.last);
      assert forall h: nat, r: nat :: SameLinks(SetPred(m, l, q, Some(id)), d, h, r);
    } else {
      ShapedWithEnds(c, d.first, d.last);
    }
    var longer := [id] + chain;
    forall i | 0 <= i < |longer| ensures LinkAt(d, longer, q, i) {
      if i > 0 { assert LinkAt(c, chain, q, i - 1); assert SameLinks(c, c, chain[i - 1], q); }
    }
  }

  // ---------- taking a gate out of the chain of one qubit ----------

  function Without(chain: seq<nat>, i: nat): seq<nat>
    requires i < |chain|
  {
    chain[..i] + chain[i + 1..]
  }

  /** The circuit with the gates around id linked to each other on q. */
  function Unlink(c: Circuit, id: nat, q: nat): Circuit
    requires Shaped(c) && On(c, id, q) && q < |c.first|
    requires PredOn(c, id, q).Some? ==> On(c, PredOn(c, id, q).value, q)
    requires SuccOn(c, id, q).Some? ==> On(c, SuccOn(c, id, q).value, q)
  {
    UnlinkSucc(UnlinkPred(c, id, q), SuccOn(c, id, q), q, PredOn(c, id, q))
  }

  function UnlinkPred(c: Circuit, id: nat, q: nat): (d: Circuit)
    requires Shaped(c) && On(c, id, q) && q < |c.first|
    requires PredOn(c, id, q).Some? ==> On(c, PredOn(c, id, q).value, q)
    ensures Shaped(d) && d.gates == c.gates && |d.first| == |c.first|
  {
    if PredOn(c, id, q).Some? then
      AfterSetSucc(c, PredOn(c, id, q).value, q, SuccOn(c, id, q));
      SetSucc(c, PredOn(c, id, q).value, q, SuccOn(c, id, q))
    else
      ShapedWithEnds(c, c.first[q := SuccOn(c, id, q)], c.last);
      c.(first := c.first[q := SuccOn(c, id, q)])
  }

  function UnlinkSucc(c: Circuit, s: Option<nat>, q: nat, p: Option<nat>): (d: Circuit)
    requires Shaped(c) && q < |c.first| && (s.Some? ==> On(c, s.value, q))
    ensures Shaped(d) && d.gates == c.gates && |d.first| == |c.first|
  {
    if s.Some? then
      AfterSetPred(c, s.value, q, p);
      SetPred(c, s.value, q, p)
    else
      ShapedWithEnds(c, c.first, c.last[q := p]);
      c.(last := c.last[q := p])
  }

  lemma NeighboursOn(c: Circuit, chain: seq<nat>, q: nat, i: nat)
    requires ChainOk(c, chain, q) && i < |chain|
    ensures On(c, chain[i], q)
    ensures PredOn(c, chain[i], q) == Before(chain, i) && SuccOn(c, chain[i], q) == After(chain, i)
    ensures i > 0 ==> On(c, chain[i - 1], q)
    ensures i < |chain| - 1 ==> On(c, chain[i + 1], q)
  {
    assert LinkAt(c, chain, q, i);
    assert i > 0 ==> LinkAt(c, chain, q, i - 1);
    assert i < |chain| - 1 ==> LinkAt(c, chain, q, i + 1);
  }

  lemma UnlinkedPred(c: Circuit, chain: seq<nat>, q: nat, i: nat)
    requires ChainOk(c, chain, q) && i < |chain|
    ensures On(c, chain[i], q) && (PredOn(c, chain[i], q).Some? ==> On(c, PredOn(c, chain[i], q).value, q))
    ensures
      var d := UnlinkPred(c, chain[i], q);
      && OnlyOn(c, d, q) && d.last == c.last
      && d.first[q] == (if i == 0 then After(chain, i) else c.first[q])
      && forall h: nat :: On(c, h, q) ==>
           PredOn(d, h, q) == PredOn(c, h, q) && SuccOn(d, h, q) == if i > 0 && h == chain[i - 1] then After(chain, i) else SuccOn(c, h, q)
  {
    NeighboursOn(c, chain, q, i);
    if i > 0 {
      AfterSetSucc(c, chain[i - 1], q, After(chain, i));
    } else {
      ShapedWithEnds(c, c.first[q := After(chain, i)], c.last);
      var d := UnlinkPred(c, chain[i], q);
      assert forall h: nat, r: nat :: SameLinks(c, d, h, r);
    }
  }

  lemma UnlinkedSucc(c: Circuit, s: Option<nat>, q: nat, p: Option<nat>)
    requires Shaped(c) && q < |c.first| && (s.Some? ==> On(c, s.value, q))
    ensures
      var d := UnlinkSucc(c, s, q, p);
      && OnlyOn(c, d, q) && d.first == c.first
      && d.last[q] == (if s.None? then p else c.last[q])
      && forall h: nat :: On(c, h, q) ==>
           SuccOn(d, h, q) == SuccOn(c, h, q) && PredOn(d, h, q) == if s == Some(h) then p else PredOn(c, h, q)
  {
    if s.Some? {
      AfterSetPred(c, s.value, q, p);
    } else {
      ShapedWithEnds(c, c.first, c.last[q := p]);
      var d := UnlinkSucc(c, s, q, p);
      assert forall h: nat, r: nat :: SameLinks(c, d, h, r);
    }
  }

  lemma WithoutAt(chain: seq<nat>, i: nat, j: nat)
    requires i < |chain| && j < |chain| - 1
    ensures Without(chain, i)[j] == chain[if j < i then j else j + 1]
  {
  }

  /** What taking chain[i] out of the chain does to the links on q. */
  ghost predicate Bridged(c: Circuit, d: Circuit, chain: seq<nat>, q: nat, i: nat)
    requires i < |chain| && q < |c.first|
  {
    && OnlyOn(c, d, q)
    && d.first[q] == (if i == 0 then After(chain, i) else c.first[q])
    && d.last[q] == (if i == |chain| - 1 then Before(chain, i) else c.last[q])
    && forall h: nat :: On(c, h, q) ==>
         && SuccOn(d, h, q) == (if i > 0 && h == chain[i - 1] then After(chain, i) else SuccOn(c, h, q))
         && PredOn(d, h, q) == (if i < |chain| - 1 && h == chain[i + 1] then Before(chain, i) else PredOn(c, h, q))
  }

  lemma UnlinkBridges(c: Circuit, chain: seq<nat>, q: nat, i: nat)
    requires ChainOk(c, chain, q) && i < |chain|
    ensures On(c, chain[i], q)
    ensures PredOn(c, chain[i], q).Some? ==> On(c, PredOn(c, chain[i], q).value, q)
    ensures SuccOn(c, chain[i], q).Some? ==> On(c, SuccOn(c, chain[i], q).value, q)
    ensures Bridged(c, Unlink(c, chain[i], q), chain, q, i)
  {
    NeighboursOn(c, chain, q, i);
    UnlinkedPred(c, chain, q, i);
    var m := UnlinkPred(c, chain[i], q);
    UnlinkedSucc(m, After(chain, i), q, Before(chain, i));
    var d := Unlink(c, chain[i], q);
    forall h: nat, r: nat | r != q ensures SameLinks(c, d, h, r) {
      assert SameLinks(c, m, h, r) && SameLinks(m, d, h, r);
    }
  }

  lemma BridgedLink(c: Circuit, d: Circuit, chain: seq<nat>, q: nat, i: nat, j: nat)
    requires ChainOk(c, chain, q) && i < |chain| && Bridged(c, d, chain, q, i) && j < |chain| - 1
    ensures LinkAt(d, Without(chain, i), q, j)
  {
    var k := if j < i then j else j + 1;
    WithoutAt(chain, i, j);
    assert LinkAt(c, chain, q, k);
    if j > 0 { WithoutAt(chain, i, j - 1); }
    if j < |chain| - 2 { WithoutAt(chain, i, j + 1); }
  }

  lemma Unlinked(c: Circuit, chain: seq<nat>, q: nat, i: nat)
    requires ChainOk(c, chain, q) && i < |chain|
    ensures On(c, chain[i], q)
    ensures PredOn(c, chain[i], q).Some? ==> On(c, PredOn(c, chain[i], q).value, q)
    ensures SuccOn(c, chain[i], q).Some? ==> On(c, SuccOn(c, chain[i], q).value, q)
    ensures OnlyOn(c, Unlink(c, chain[i], q), q) && ChainOk(Unlink(c, chain[i], q), Without(chain, i), q)
  {
    UnlinkBridges(c, chain, q, i);
    var d := Unlink(c, chain[i], q);
    var rest := Without(chain, i);
    forall j | 0 <= j < |rest| ensures LinkAt(d, rest, q, j) {
      BridgedLink(c, d, chain, q, i, j);
    }
    WithoutIsDistinct(chain, i);
  }

  lemma WithoutIsDistinct(chain: seq<nat>, i: nat)
    requires Distinct(chain) && i < |chain|
    ensures Distinct(Without(chain, i)) && chain[i] !in Without(chain, i)
    ensures forall g :: g in Without(chain, i) <==> g in chain && g != chain[i]
  {
    var rest := Without(chain, i);
    forall a, b | 0 <= a < b < |rest| ensures rest[a] != rest[b] {
      WithoutAt(chain, i, a);
      WithoutAt(chain, i, b);
    }
    forall g | g in chain && g != chain[i] ensures g in rest {
      var k :| 0 <= k < |chain| && chain[k] == g;
      WithoutAt(chain, i, if k < i then k else k - 1);
    }
  }
}
