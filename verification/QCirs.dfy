/**
 The circuit object: gates are appended, prepended and removed by relinking their neighbours
 pin by pin; the adjoint swaps all links; the list of gates is a depth-first topological order.
 */
module QCirs {
  import opened Sequences
  import opened Circuits
  import opened TopologicalOrder

  // ---------- adding a gate pin by pin ----------

  /** The chains after a gate was put at the end (or the start) of the chains of some qubits. */
  function Grow(chains: seq<seq<nat>>, qubits: seq<nat>, id: nat, atEnd: bool): (r: seq<seq<nat>>)
    ensures |r| == |chains|
  {
    seq(|chains|, q requires 0 <= q < |chains| =>
      if q !in qubits then chains[q] else if atEnd then chains[q] + [id] else [id] + chains[q])
  }

  predicate NotLinked(c: Circuit, id: nat, q: nat)
    requires Shaped(c) && On(c, id, q)
  {
    PredOn(c, id, q) == None && SuccOn(c, id, q) == None
  }

  predicate Fresh(chains: seq<seq<nat>>, id: nat) { forall q :: 0 <= q < |chains| ==> id !in chains[q] }

  predicate AllChainsOk(c: Circuit, chains: seq<seq<nat>>) {
    |chains| == |c.first| && forall q :: 0 <= q < |chains| ==> ChainOk(c, chains[q], q)
  }

  ghost predicate OthersInChains(c: Circuit, chains: seq<seq<nat>>, id: nat) {
    forall g: nat, q: nat :: g != id ==> InChains(c, chains, g, q)
  }

  /** The first k pins of the new gate are linked, the others have no links yet. */
  ghost predicate Adding(c: Circuit, chains: seq<seq<nat>>, gate: LogicalGate, id: nat, k: nat, atEnd: bool) {
    && Shaped(c) && id in c.gates && c.gates[id] == gate && k <= |gate.qubits| && Fresh(chains, id)
    && AllChainsOk(c, Grow(chains, gate.qubits[..k], id, atEnd))
    && OthersInChains(c, chains, id)
    && forall j :: k <= j < |gate.qubits| ==> NotLinked(c, id, gate.qubits[j])
  }

  function Link(c: Circuit, id: nat, q: nat, atEnd: bool): Circuit
    requires Shaped(c) && On(c, id, q) && q < |c.first|
    requires if atEnd then c.last[q].Some? ==> On(c, c.last[q].value, q) else c.first[q].Some? ==> On(c, c.first[q].value, q)
  {
    if atEnd then LinkLast(c, id, q) else LinkFirst(c, id, q)
  }

  /** The new gate can be linked to the end of the chain of its k-th pin. */
  lemma CanLink(c: Circuit, chains: seq<seq<nat>>, gate: LogicalGate, id: nat, k: nat, atEnd: bool)
    requires Adding(c, chains, gate, id, k, atEnd) && k < |gate.qubits|
    ensures var q := gate.qubits[k];
      && q < |c.first| && On(c, id, q) && q !in gate.qubits[..k] && ChainOk(c, chains[q], q)
      && (c.last[q].Some? ==> On(c, c.last[q].value, q)) && (c.first[q].Some? ==> On(c, c.first[q].value, q))
  {
    assert GateShaped(c, id);
    var q := gate.qubits[k];
    assert ChainOk(c, Grow(chains, gate.qubits[..k], id, atEnd)[q], q);
    LastOn(c, chains[q], q);
  }

  lemma AddStep(c: Circuit, chains: seq<seq<nat>>, gate: LogicalGate, id: nat, k: nat, atEnd: bool)
    requires Adding(c, chains, gate, id, k, atEnd) && k < |gate.qubits|
    ensures var q := gate.qubits[k];
      && q < |c.first| && On(c, id, q)
      && (if atEnd then c.last[q].Some? ==> On(c, c.last[q].value, q) else c.first[q].Some? ==> On(c, c.first[q].value, q))
      && Adding(Link(c, id, q, atEnd), chains, gate, id, k + 1, atEnd)
  {
    CanLink(c, chains, gate, id, k, atEnd);
    var q := gate.qubits[k];
    var d := Link(c, id, q, atEnd);
    assert NotLinked(c, id, q);
    if atEnd { LinkedLast(c, id, chains[q], q); } else { LinkedFirst(c, id, chains[q], q); }
    var before, after := Grow(chains, gate.qubits[..k], id, atEnd), Grow(chains, gate.qubits[..k + 1], id, atEnd);
    assert gate.qubits[..k + 1] == gate.qubits[..k] + [q];
    forall r | 0 <= r < |after| ensures ChainOk(d, after[r], r) {
      if r != q {
        assert ChainOk(c, before[r], r);
        OtherChains(c, d, q, before[r], r);
      }
    }
    StillNotLinked(c, d, gate, id, k);
    SameGatesInChains(c, d, chains, id);
  }

  lemma StillNotLinked(c: Circuit, d: Circuit, gate: LogicalGate, id: nat, k: nat)
    requires k < |gate.qubits| && id in c.gates && c.gates[id] == gate && OnlyOn(c, d, gate.qubits[k])
    requires forall j :: k <= j < |gate.qubits| ==> NotLinked(c, id, gate.qubits[j])
    ensures forall j :: k + 1 <= j < |gate.qubits| ==> NotLinked(d, id, gate.qubits[j])
  {
    assert GateShaped(c, id);
    forall j | k + 1 <= j < |gate.qubits| ensures NotLinked(d, id, gate.qubits[j]) {
      assert NotLinked(c, id, gate.qubits[j]);
      assert SameLinks(c, d, id, gate.qubits[j]);
    }
  }

  lemma SameGatesInChains(c: Circuit, d: Circuit, chains: seq<seq<nat>>, id: nat)
    requires OthersInChains(c, chains, id) && c.gates == d.gates
    ensures OthersInChains(d, chains, id)
  {
    forall g: nat, q: nat | g != id ensures InChains(d, chains, g, q) {
      assert InChains(c, chains, g, q);
    }
  }

  lemma AddEnds(c: Circuit, chains: seq<seq<nat>>, gate: LogicalGate, id: nat, atEnd: bool)
    requires Adding(c, chains, gate, id, |gate.qubits|, atEnd)
    ensures Chained(c, Grow(chains, gate.qubits, id, atEnd))
  {
    var grown := Grow(chains, gate.qubits, id, atEnd);
    assert gate.qubits[..|gate.qubits|] == gate.qubits;
    forall g: nat, q: nat ensures InChains(c, grown, g, q) {
      if g != id { assert InChains(c, chains, g, q); }
    }
  }

  function NoLinks(k: nat): seq<Option<nat>> { seq(k, i => None) }

  /** The circuit with a new gate that is not linked yet. */
  function WithGate(c: Circuit, id: nat, gate: LogicalGate): Circuit {
    c.(gates := c.gates[id := gate], preds := c.preds[id := NoLinks(|gate.qubits|)], succs := c.succs[id := NoLinks(|gate.qubits|)])
  }

  lemma WithGateLinks(c: Circuit, id: nat, gate: LogicalGate)
    requires Shaped(c) && id !in c.gates && gate.Shape(|c.first|)
    ensures Shaped(WithGate(c, id, gate))
    ensures forall h: nat, r: nat :: On(c, h, r) ==>
      On(WithGate(c, id, gate), h, r) && PredOn(WithGate(c, id, gate), h, r) == PredOn(c, h, r) && SuccOn(WithGate(c, id, gate), h, r) == SuccOn(c, h, r)
  {
    var d := WithGate(c, id, gate);
    forall h | h in d.gates ensures GateShaped(d, h) { if h != id { assert GateShaped(c, h); } }
  }

  lemma AddStarts(c: Circuit, chains: seq<seq<nat>>, gate: LogicalGate, id: nat, atEnd: bool)
    requires Chained(c, chains) && id !in c.gates && gate.Shape(|c.first|)
    ensures Adding(WithGate(c, id, gate), chains, gate, id, 0, atEnd)
  {
    var d := WithGate(c, id, gate);
    WithGateLinks(c, id, gate);
    forall q | 0 <= q < |chains| ensures id !in chains[q] && ChainOk(d, chains[q], q) {
      assert ChainOk(c, chains[q], q);
      ChainMembers(c, chains[q], q);
      forall i | 0 <= i < |chains[q]| ensures LinkAt(d, chains[q], q, i) { assert LinkAt(c, chains[q], q, i); }
    }
    assert Grow(chains, gate.qubits[..0], id, atEnd) == chains;
    forall g: nat, q: nat | g != id ensures InChains(d, chains, g, q) { assert InChains(c, chains, g, q); }
  }

  // ---------- the ranks that show the links run forward ----------

  predicate Bounded(rank: map<nat, int>, lo: int, hi: int) { forall g :: g in rank ==> lo < rank[g] < hi }

  lemma BoundedGrows(rank: map<nat, int>, lo: int, hi: int, id: nat, atEnd: bool)
    requires Bounded(rank, lo, hi) && lo < hi
    ensures atEnd ==> Bounded(rank[id := hi], lo, hi + 1)
    ensures !atEnd ==> Bounded(rank[id := lo], lo - 1, hi)
  {
  }

  lemma GrowKeepsRanks(c: Circuit, chains: seq<seq<nat>>, rank: map<nat, int>, lo: int, hi: int, qubits: seq<nat>, id: nat, atEnd: bool)
    requires Ranked(chains, rank) && Bounded(rank, lo, hi) && id !in rank
    ensures Ranked(Grow(chains, qubits, id, atEnd), rank[id := if atEnd then hi else lo])
  {
    var grown := Grow(chains, qubits, id, atEnd);
    var rank' := rank[id := if atEnd then hi else lo];
    forall q | 0 <= q < |grown| ensures Rising(grown[q], rank') {
      assert Rising(chains[q], rank);
    }
  }

  // ---------- removing a gate pin by pin ----------

  function IndexIn(chain: seq<nat>, id: nat): (i: nat)
    requires id in chain
    ensures i < |chain| && chain[i] == id
  {
    if chain[0] == id then 0 else 1 + IndexIn(chain[1..], id)
  }

  function Drop(chain: seq<nat>, id: nat): seq<nat> {
    if id in chain then Without(chain, IndexIn(chain, id)) else chain
  }

  function Shrink(chains: seq<seq<nat>>, qubits: seq<nat>, id: nat): (r: seq<seq<nat>>)
    ensures |r| == |chains|
  {
    seq(|chains|, q requires 0 <= q < |chains| => if q in qubits then Drop(chains[q], id) else chains[q])
  }

  /** The first k pins of the gate are taken out of their chains. */
  ghost predicate Removing(c: Circuit, chains: seq<seq<nat>>, id: nat, k: nat) {
    && Shaped(c) && id in c.gates && k <= |c.gates[id].qubits|
    && AllChainsOk(c, Shrink(chains, c.gates[id].qubits[..k], id))
    && (forall g: nat, q: nat :: InChains(c, chains, g, q))
  }

  predicate CanUnlink(c: Circuit, id: nat, q: nat) {
    && Shaped(c) && On(c, id, q) && q < |c.first|
    && (PredOn(c, id, q).Some? ==> On(c, PredOn(c, id, q).value, q))
    && (SuccOn(c, id, q).Some? ==> On(c, SuccOn(c, id, q).value, q))
  }

  lemma RemoveStep(c: Circuit, chains: seq<seq<nat>>, id: nat, k: nat)
    requires Removing(c, chains, id, k) && k < |c.gates[id].qubits|
    ensures CanUnlink(c, id, c.gates[id].qubits[k])
    ensures Removing(Unlink(c, id, c.gates[id].qubits[k]), chains, id, k + 1)
  {
    var qubits := c.gates[id].qubits;
    var q := qubits[k];
    assert GateShaped(c, id);
    assert q !in qubits[..k];
    var before, after := Shrink(chains, qubits[..k], id), Shrink(chains, qubits[..k + 1], id);
    assert ChainOk(c, before[q], q);
    assert InChains(c, chains, id, q);
    var i := IndexIn(chains[q], id);
    Unlinked(c, chains[q], q, i);
    var d := Unlink(c, id, q);
    assert qubits[..k + 1] == qubits[..k] + [q];
    forall r | 0 <= r < |after| ensures ChainOk(d, after[r], r) {
      if r != q {
        assert ChainOk(c, before[r], r);
        OtherChains(c, d, q, before[r], r);
      }
    }
    SameGatesInAllChains(c, d, chains);
  }

  lemma SameGatesInAllChains(c: Circuit, d: Circuit, chains: seq<seq<nat>>)
    requires (forall g: nat, q: nat :: InChains(c, chains, g, q)) && c.gates == d.gates
    ensures forall g: nat, q: nat :: InChains(d, chains, g, q)
  {
    forall g: nat, q: nat ensures InChains(d, chains, g, q) { assert InChains(c, chains, g, q); }
  }

  function WithoutGate(c: Circuit, id: nat): Circuit { c.(gates := c.gates - {id}) }

  lemma RemoveEnds(c: Circuit, chains: seq<seq<nat>>, id: nat)
    requires id in c.gates && Removing(c, chains, id, |c.gates[id].qubits|) && (forall q :: 0 <= q < |chains| ==> Distinct(chains[q]))
    ensures Chained(WithoutGate(c, id), Shrink(chains, c.gates[id].qubits, id))
  {
    var qubits := c.gates[id].qubits;
    assert qubits[..|qubits|] == qubits;
    var rest := Shrink(chains, qubits, id);
    var d := WithoutGate(c, id);
    forall h | h in d.gates ensures GateShaped(d, h) { assert GateShaped(c, h); }
    forall q | 0 <= q < |rest| ensures ChainOk(d, rest[q], q) {
      RestOk(c, chains, id, q);
    }
    forall g: nat, q: nat ensures InChains(d, rest, g, q) {
      assert InChains(c, chains, g, q);
      if On(d, g, q) && q < |chains| && q in qubits && id in chains[q] {
        WithoutIsDistinct(chains[q], IndexIn(chains[q], id));
      }
    }
  }

  lemma RestOk(c: Circuit, chains: seq<seq<nat>>, id: nat, q: nat)
    requires Shaped(c) && Shaped(WithoutGate(c, id)) && id in c.gates && AllChainsOk(c, Shrink(chains, c.gates[id].qubits, id)) && q < |chains|
    requires forall r: nat :: InChains(c, chains, id, r)
    requires Distinct(chains[q])
    ensures ChainOk(WithoutGate(c, id), Shrink(chains, c.gates[id].qubits, id)[q], q)
  {
    var chain := Shrink(chains, c.gates[id].qubits, id)[q];
    assert ChainOk(c, chain, q);
    assert id !in chain by {
      if q in c.gates[id].qubits {
        assert InChains(c, chains, id, q);
        WithoutIsDistinct(chains[q], IndexIn(chains[q], id));
      } else {
        ChainMembers(c, chain, q);
      }
    }
    var d := WithoutGate(c, id);
    forall i | 0 <= i < |chain| ensures LinkAt(d, chain, q, i) {
      assert LinkAt(c, chain, q, i);
      assert chain[i] != id;
    }
  }

  lemma ShrinkKeepsRanks(chains: seq<seq<nat>>, rank: map<nat, int>, qubits: seq<nat>, id: nat)
    requires Ranked(chains, rank)
    ensures Ranked(Shrink(chains, qubits, id), rank)
  {
    var rest := Shrink(chains, qubits, id);
    forall q | 0 <= q < |rest| ensures Rising(rest[q], rank) {
      assert Rising(chains[q], rank);
      if q in qubits && id in chains[q] {
        WithoutRises(chains[q], rank, IndexIn(chains[q], id));
      }
    }
  }

  lemma WithoutRises(chain: seq<nat>, rank: map<nat, int>, i: nat)
    requires Rising(chain, rank) && i < |chain|
    ensures Rising(Without(chain, i), rank)
  {
    var rest := Without(chain, i);
    forall a, b | 0 <= a < b < |rest| ensures rest[a] in rank && rest[b] in rank && rank[rest[a]] < rank[rest[b]] {
      WithoutAt(chain, i, a);
      WithoutAt(chain, i, b);
    }
    forall a | 0 <= a < |rest| ensures rest[a] in rank { WithoutAt(chain, i, a); }
  }

  // ---------- the adjoint ----------

  /** Every gate inverted and all links swapped; links of removed gates stay as they are. */
  function AdjointOf(c: Circuit, dagger: string -> string): Circuit {
    Circuit(
      map g | g in c.gates :: c.gates[g].(kind := dagger(c.gates[g].kind)),
      map g | g in c.preds :: if g in c.gates && g in c.succs then c.succs[g] else c.preds[g],
      map g | g in c.succs :: if g in c.gates && g in c.preds then c.preds[g] else c.succs[g],
      c.last, c.first)
  }

  /** The circuit with the gates of s inverted and their links swapped. */
  function Swapped(c: Circuit, s: set<nat>, dagger: string -> string): Circuit {
    Circuit(
      map g | g in c.gates :: if g in s then c.gates[g].(kind := dagger(c.gates[g].kind)) else c.gates[g],
      map g | g in c.preds :: if g in s && g in c.succs then c.succs[g] else c.preds[g],
      map g | g in c.succs :: if g in s && g in c.preds then c.preds[g] else c.succs[g],
      c.first, c.last)
  }

  function Inverted(c: Circuit, g: nat, dagger: string -> string): Circuit
    requires g in c.gates && g in c.preds && g in c.succs
  {
    Circuit(c.gates[g := c.gates[g].(kind := dagger(c.gates[g].kind))], c.preds[g := c.succs[g]], c.succs[g := c.preds[g]], c.first, c.last)
  }

  lemma SwappedNone(c: Circuit, dagger: string -> string)
    ensures Swapped(c, {}, dagger) == c
  {
    assert Swapped(c, {}, dagger).gates == c.gates;
  }

  lemma SwappedOne(c: Circuit, s: set<nat>, g: nat, dagger: string -> string)
    requires Shaped(c) && g in c.gates && g !in s
    ensures var d := Swapped(c, s, dagger);
      && g in d.gates && g in d.preds && g in d.succs
      && Swapped(c, s + {g}, dagger) == Inverted(d, g, dagger)
  {
    assert GateShaped(c, g);
  }

  predicate Parts(done: set<nat>, todo: set<nat>, all: set<nat>) { done + todo == all && done !! todo }

  lemma MoveOver(done: set<nat>, todo: set<nat>, all: set<nat>, g: nat)
    requires Parts(done, todo, all) && g in todo
    ensures Parts(done + {g}, todo - {g}, all) && g in all && g !in done && |todo - {g}| < |todo|
  {
  }

  lemma SwappedAll(c: Circuit, dagger: string -> string)
    ensures var d := Swapped(c, c.gates.Keys, dagger); AdjointOf(c, dagger) == d.(first := d.last, last := d.first)
  {
    assert AdjointOf(c, dagger).gates == Swapped(c, c.gates.Keys, dagger).gates;
  }

  /** The adjoint has the same gates and the ranks run the other way within the mirrored bounds. */
  lemma AdjointKeeps(c: Circuit, rank: map<nat, int>, lo: int, hi: int, dagger: string -> string)
    requires Bounded(rank, lo, hi)
    ensures AdjointOf(c, dagger).gates.Keys == c.gates.Keys
    ensures Negated(rank).Keys == rank.Keys && Bounded(Negated(rank), -hi, -lo)
  {
  }

  ghost predicate Involution(dagger: string -> string) { forall k: string :: dagger(dagger(k)) == k }

  /** The adjoint of the adjoint is the circuit itself. */
  lemma AdjointTwice(c: Circuit, dagger: string -> string)
    requires Shaped(c) && Involution(dagger)
    ensures AdjointOf(AdjointOf(c, dagger), dagger) == c
  {
    forall g | g in c.gates ensures g in c.preds && g in c.succs { assert GateShaped(c, g); }
    AdjointGatesTwice(c, dagger);
    AdjointLinksTwice(c, dagger);
  }

  lemma AdjointGatesTwice(c: Circuit, dagger: string -> string)
    requires Involution(dagger)
    ensures AdjointOf(AdjointOf(c, dagger), dagger).gates == c.gates
  {
    var e := AdjointOf(AdjointOf(c, dagger), dagger);
    forall g | g in c.gates ensures e.gates[g] == c.gates[g] {
      assert dagger(dagger(c.gates[g].kind)) == c.gates[g].kind;
    }
  }

  lemma AdjointLinksTwice(c: Circuit, dagger: string -> string)
    requires forall g :: g in c.gates ==> g in c.preds && g in c.succs
    ensures AdjointOf(AdjointOf(c, dagger), dagger).preds == c.preds
    ensures AdjointOf(AdjointOf(c, dagger), dagger).succs == c.succs
  {
  }

  function ReversedAll(chains: seq<seq<nat>>): (r: seq<seq<nat>>)
    ensures |r| == |chains|
  {
    seq(|chains|, q requires 0 <= q < |chains| => Reversed(chains[q]))
  }

  /** The links of c, swapped. */
  ghost predicate LinksSwapped(c: Circuit, d: Circuit) {
    && Shaped(c) && Shaped(d) && d.first == c.last && d.last == c.first
    && (forall h: nat, r: nat :: On(c, h, r) <==> On(d, h, r))
    && (forall h: nat, r: nat :: On(c, h, r) ==> PredOn(d, h, r) == SuccOn(c, h, r) && SuccOn(d, h, r) == PredOn(c, h, r))
  }

  lemma AdjointLinks(c: Circuit, dagger: string -> string)
    requires Shaped(c)
    ensures LinksSwapped(c, AdjointOf(c, dagger))
  {
    var d := AdjointOf(c, dagger);
    forall h | h in d.gates ensures GateShaped(d, h) { assert GateShaped(c, h); }
    forall h: nat, r: nat | On(c, h, r) ensures PredOn(d, h, r) == SuccOn(c, h, r) && SuccOn(d, h, r) == PredOn(c, h, r) {
      assert GateShaped(c, h);
    }
  }

  lemma ChainsShaped(c: Circuit, chains: seq<seq<nat>>)
    requires Chained(c, chains)
    ensures Shaped(c) && |c.first| == |c.last|
  {
  }

  lemma AdjointChains(c: Circuit, chains: seq<seq<nat>>, dagger: string -> string)
    requires Chained(c, chains)
    ensures Chained(AdjointOf(c, dagger), ReversedAll(chains))
  {
    var d, back := AdjointOf(c, dagger), ReversedAll(chains);
    AdjointLinks(c, dagger);
    forall q | 0 <= q < |chains| ensures ChainOk(d, back[q], q) {
      assert ChainOk(c, chains[q], q);
      AdjointChain(c, d, chains[q], q);
    }
    forall g: nat, q: nat ensures InChains(d, back, g, q) {
      assert InChains(c, chains, g, q);
      if q < |chains| { InReversed(chains[q], g); }
    }
  }

  lemma AdjointChain(c: Circuit, d: Circuit, chain: seq<nat>, q: nat)
    requires LinksSwapped(c, d) && q < |c.first| && ChainOk(c, chain, q)
    ensures ChainOk(d, Reversed(chain), q)
  {
    var r := Reversed(chain);
    forall i | 0 <= i < |r| ensures LinkAt(d, r, q, i) {
      assert LinkAt(c, chain, q, |chain| - 1 - i);
    }
  }

  function Negated(rank: map<nat, int>): map<nat, int> { map g | g in rank :: -rank[g] }

  lemma AdjointRanks(chains: seq<seq<nat>>, rank: map<nat, int>)
    requires Ranked(chains, rank)
    ensures Ranked(ReversedAll(chains), Negated(rank))
  {
    forall q | 0 <= q < |chains| ensures Rising(Reversed(chains[q]), Negated(rank)) {
      assert Rising(chains[q], rank);
    }
  }

  // ---------- what a circuit does on each qubit ----------

  /** The gates along a chain. */
  function Word(gates: map<nat, LogicalGate>, chain: seq<nat>): (r: seq<LogicalGate>)
    requires ChainInGates(gates, chain)
    ensures |r| == |chain| && forall i :: 0 <= i < |chain| ==> r[i] == gates[chain[i]]
  {
    seq(|chain|, i requires 0 <= i < |chain| => assert chain[i] in chain; gates[chain[i]])
  }

  predicate ChainInGates(gates: map<nat, LogicalGate>, chain: seq<nat>) { forall g :: g in chain ==> g in gates }

  lemma ChainsInGates(c: Circuit, chains: seq<seq<nat>>)
    requires Chained(c, chains)
    ensures forall q :: 0 <= q < |chains| ==> ChainInGates(c.gates, chains[q])
  {
    forall q | 0 <= q < |chains| ensures ChainInGates(c.gates, chains[q]) {
      assert ChainOk(c, chains[q], q);
      ChainMembers(c, chains[q], q);
    }
  }

  // ---------- further qubits ----------

  /** The circuit with n further qubits at the end. */
  predicate Widened(c: Circuit, d: Circuit, n: nat) {
    && d.gates == c.gates && d.preds == c.preds && d.succs == c.succs
    && d.first == c.first + seq(n, i => None) && d.last == c.last + seq(n, i => None)
  }

  lemma WiderShape(c: Circuit, d: Circuit, n: nat)
    requires Shaped(c) && Widened(c, d, n)
    ensures Shaped(d) && forall h: nat, r: nat :: SameLinks(c, d, h, r)
  {
    forall h | h in d.gates ensures GateShaped(d, h) { assert GateShaped(c, h); }
  }

  lemma MoreQubits(c: Circuit, d: Circuit, chains: seq<seq<nat>>, n: nat)
    requires Chained(c, chains) && Widened(c, d, n)
    ensures Chained(d, chains + seq(n, i => []))
  {
    var wider := chains + seq(n, i => []);
    WiderShape(c, d, n);
    forall q | 0 <= q < |wider| ensures ChainOk(d, wider[q], q) {
      if q < |chains| {
        assert ChainOk(c, chains[q], q);
        forall i | 0 <= i < |wider[q]| ensures LinkAt(d, wider[q], q, i) {
          assert LinkAt(c, chains[q], q, i);
          assert SameLinks(c, d, chains[q][i], q);
        }
      }
    }
    forall g: nat, q: nat ensures InChains(d, wider, g, q) {
      assert InChains(c, chains, g, q);
      if On(d, g, q) { assert GateShaped(c, g); }
    }
  }

  lemma MoreQubitsRanked(chains: seq<seq<nat>>, rank: map<nat, int>, n: nat)
    requires Ranked(chains, rank)
    ensures Ranked(chains + seq(n, i => []), rank)
  {
    var wider := chains + seq(n, i => []);
    forall q | 0 <= q < |wider| ensures Rising(wider[q], rank) {
      if q < |chains| { assert Rising(chains[q], rank); }
    }
  }

  lemma {:induction false} SameOnQubit(c: Circuit, d: Circuit, list: seq<nat>, q: nat)
    requires forall g :: g in list ==> (On(c, g, q) <==> On(d, g, q))
    ensures OnQubit(c, list, q) == OnQubit(d, list, q)
  {
    if |list| > 0 { SameOnQubit(c, d, list[..|list| - 1], q); }
  }

  lemma {:induction false} NothingOnQubit(c: Circuit, list: seq<nat>, q: nat)
    requires forall g :: g in list ==> !On(c, g, q)
    ensures OnQubit(c, list, q) == []
  {
    if |list| > 0 { NothingOnQubit(c, list[..|list| - 1], q); }
  }

  lemma MoreQubitsTopological(c: Circuit, d: Circuit, chains: seq<seq<nat>>, n: nat, list: seq<nat>)
    requires Shaped(c) && |chains| == |c.first| && Widened(c, d, n) && Topological(c, chains, list)
    ensures Topological(d, chains + seq(n, i => []), list)
  {
    var wider := chains + seq(n, i => []);
    forall q | 0 <= q < |wider| ensures OnQubit(d, list, q) == wider[q] {
      if q < |chains| {
        SameOnQubit(c, d, list, q);
      } else {
        forall g | g in list ensures !On(d, g, q) { assert GateShaped(c, g); }
        NothingOnQubit(d, list, q);
      }
    }
  }

  // ---------- steps of the search ----------

  lemma RemoveStarts(c: Circuit, chains: seq<seq<nat>>, id: nat)
    requires Chained(c, chains) && id in c.gates
    ensures Removing(c, chains, id, 0) && (forall q :: 0 <= q < |chains| ==> Distinct(chains[q]))
  {
    assert Shrink(chains, c.gates[id].qubits[..0], id) == chains;
    forall q | 0 <= q < |chains| ensures Distinct(chains[q]) { assert ChainOk(c, chains[q], q); }
  }

  lemma FirstInRank(c: Circuit, chains: seq<seq<nat>>, rank: map<nat, int>, q: nat)
    requires Chained(c, chains) && Ranked(chains, rank) && q < |chains|
    ensures c.first[q].Some? ==> c.first[q].value in c.gates && c.first[q].value in rank
  {
    assert ChainOk(c, chains[q], q);
    LastOn(c, chains[q], q);
    assert Rising(chains[q], rank);
  }

  lemma {:induction false} FewerLeft(all: set<nat>, visited: set<nat>, g: nat)
    requires g in all && g !in visited
    ensures |all - (visited + {g})| < |all - visited|
  {
    assert all - visited == (all - (visited + {g})) + {g};
  }

  lemma AllCovered(c: Circuit, rank: map<nat, int>, stack: seq<Frame>, visited: set<nat>, post: seq<nat>, top: nat)
    requires top < |stack| && stack[top].gate in c.succs && Searching(c, rank, stack, visited, post, top, |c.succs[stack[top].gate]|)
    ensures Searching(c, rank, stack, visited, post, |stack|, 0)
  {
    forall p | 0 <= p < |stack| && stack[p].childrenVisited && stack[p].gate in c.succs
      ensures Covered(c, stack, visited, p, |c.succs[stack[p].gate]|)
    {
      var n := |c.succs[stack[p].gate]|;
      assert Covered(c, stack, visited, p, n);
    }
  }

  function Spelled(gates: map<nat, LogicalGate>, chain: seq<nat>): seq<LogicalGate> {
    if ChainInGates(gates, chain) then Word(gates, chain) else []
  }

  /** The gates on a qubit, in order; nothing on qubits the circuit does not have. */
  function WordOn(gates: map<nat, LogicalGate>, chains: seq<seq<nat>>, q: nat): seq<LogicalGate> {
    if q < |chains| then Spelled(gates, chains[q]) else []
  }

  /** The gates of a word from the last to the first, each one inverted. */
  predicate InverseWord(w: seq<LogicalGate>, w': seq<LogicalGate>, dagger: string -> string) {
    |w'| == |w| && forall i :: 0 <= i < |w| ==> w'[i] == LogicalGate(dagger(w[|w| - 1 - i].kind), w[|w| - 1 - i].qubits)
  }

  /** On every qubit the adjoint has the inverted gates in reverse order. */
  lemma AdjointWord(c: Circuit, chains: seq<seq<nat>>, dagger: string -> string, q: nat)
    requires Chained(c, chains)
    ensures InverseWord(WordOn(c.gates, chains, q), WordOn(AdjointOf(c, dagger).gates, ReversedAll(chains), q), dagger)
  {
    if q < |chains| {
      ChainsInGates(c, chains);
      var chain, back := chains[q], ReversedAll(chains)[q];
      assert ChainInGates(c.gates, chain);
      forall i | 0 <= i < |back| ensures back[i] in c.gates && back[i] == chain[|chain| - 1 - i] {
        assert chain[|chain| - 1 - i] in chain;
      }
      assert ChainInGates(AdjointOf(c, dagger).gates, back);
    }
  }

  lemma AdjointWords(c: Circuit, chains: seq<seq<nat>>, dagger: string -> string)
    requires Chained(c, chains)
    ensures forall q: nat :: InverseWord(WordOn(c.gates, chains, q), WordOn(AdjointOf(c, dagger).gates, ReversedAll(chains), q), dagger)
  {
    hide *;
    forall q: nat ensures InverseWord(WordOn(c.gates, chains, q), WordOn(AdjointOf(c, dagger).gates, ReversedAll(chains), q), dagger) {
      AdjointWord(c, chains, dagger, q);
    }
  }

  lemma MoreQubitsSayNothing(gates: map<nat, LogicalGate>, chains: seq<seq<nat>>, wider: seq<seq<nat>>)
    requires chains <= wider && forall q :: |chains| <= q < |wider| ==> wider[q] == []
    ensures forall q: nat :: WordOn(gates, wider, q) == WordOn(gates, chains, q)
  {
  }

  /** The first k listed gates that act on a qubit. */
  function Said(c: Circuit, list: seq<nat>, k: nat, q: nat): seq<LogicalGate>
    requires k <= |list|
  {
    Spelled(c.gates, OnQubit(c, list[..k], q))
  }

  lemma SaidNothing(c: Circuit, list: seq<nat>)
    ensures forall q: nat :: Said(c, list, 0, q) == []
  {
  }

  lemma {:induction false} OnQubitInGates(c: Circuit, list: seq<nat>, q: nat)
    ensures ChainInGates(c.gates, OnQubit(c, list, q))
  {
    if |list| > 0 { OnQubitInGates(c, list[..|list| - 1], q); }
  }

  lemma SaidMore(c: Circuit, list: seq<nat>, k: nat, q: nat)
    requires k < |list| && list[k] in c.gates
    ensures Said(c, list, k + 1, q) == Said(c, list, k, q) + if q in c.gates[list[k]].qubits then [c.gates[list[k]]] else []
  {
    assert list[..k + 1][..k] == list[..k];
    OnQubitInGates(c, list[..k], q);
    OnQubitInGates(c, list[..k + 1], q);
  }

  lemma SaidAll(c: Circuit, chains: seq<seq<nat>>, list: seq<nat>, q: nat)
    requires Shaped(c) && |chains| == |c.first| && Topological(c, chains, list)
    ensures Said(c, list, |list|, q) == WordOn(c.gates, chains, q)
  {
    assert list[..|list|] == list;
    if q < |chains| {
      assert OnQubit(c, list, q) == chains[q];
    } else {
      forall g | g in list ensures !On(c, g, q) { assert g in c.gates ==> GateShaped(c, g); }
      NothingOnQubit(c, list, q);
    }
  }

  /** An appended gate is the last one on each of its qubits. */
  lemma GrownWord(c: Circuit, chains: seq<seq<nat>>, gate: LogicalGate, id: nat, q: nat)
    requires Chained(c, chains) && id !in c.gates && gate.Shape(|c.first|)
    ensures WordOn(c.gates[id := gate], Grow(chains, gate.qubits, id, true), q)
            == WordOn(c.gates, chains, q) + if q in gate.qubits then [gate] else []
  {
    if q < |chains| {
      ChainsInGates(c, chains);
      assert ChainInGates(c.gates, chains[q]);
    }
  }

  lemma SaidOneMore(m: map<nat, LogicalGate>, start: seq<seq<nat>>, c: Circuit, chains: seq<seq<nat>>, d: Circuit, list: seq<nat>, k: nat, id: nat)
    requires Chained(c, chains) && id !in c.gates && k < |list| && list[k] in d.gates && d.gates[list[k]].Shape(|c.first|)
    requires forall q: nat :: WordOn(c.gates, chains, q) == WordOn(m, start, q) + Said(d, list, k, q)
    ensures var gate := d.gates[list[k]];
      forall q: nat :: WordOn(c.gates[id := gate], Grow(chains, gate.qubits, id, true), q) == WordOn(m, start, q) + Said(d, list, k + 1, q)
  {
    var gate := d.gates[list[k]];
    forall q: nat ensures WordOn(c.gates[id := gate], Grow(chains, gate.qubits, id, true), q) == WordOn(m, start, q) + Said(d, list, k + 1, q) {
      SaidMore(d, list, k, q);
      GrownWord(c, chains, gate, id, q);
      assert WordOn(c.gates, chains, q) == WordOn(m, start, q) + Said(d, list, k, q);
    }
  }

  class QCir {
    var nextId: nat
    var gates: map<nat, LogicalGate>
    var preds: Links
    var succs: Links
    var first: seq<Option<nat>>
    var last: seq<Option<nat>>
    var gateList: seq<nat>
    var dirty: bool
    ghost var chains: seq<seq<nat>>
    ghost var rank: map<nat, int>
    ghost var lo: int
    ghost var hi: int

    function View(): Circuit
      reads this
    {
      Circuit(gates, preds, succs, first, last)
    }

    ghost predicate Valid()
      reads this
    {
      && Chained(View(), chains) && Ranked(chains, rank) && Bounded(rank, lo, hi) && lo < hi
      && (forall g :: g in gates || g in rank ==> g < nextId)
      && (!dirty ==> Topological(View(), chains, gateList))
    }

    constructor (n: nat)
      ensures Valid() && gates == map[] && chains == seq(n, i => [])
    {
      nextId, gates, preds, succs := 0, map[], map[], map[];
      first, last := seq(n, i => None), seq(n, i => None);
      gateList, dirty := [], true;
      chains, rank, lo, hi := seq(n, i => []), map[], -1, 1;
    }

    /** Adds qubits without gates. */
    method AddQubits(n: nat)
      requires Valid()
      modifies this
      ensures Valid() && gates == old(gates) && chains == old(chains) + seq(n, i => [])
    {
      ghost var c, before := View(), chains;
      first := first + seq(n, i => None);
      last := last + seq(n, i => None);
      chains := chains + seq(n, i => []);
      MoreQubits(c, View(), before, n);
      MoreQubitsRanked(before, rank, n);
      if !dirty {
        MoreQubitsTopological(c, View(), before, n, gateList);
      }
    }

    /** Links g1 to g2 on a qubit. */
    method Connect(g1: nat, g2: nat, q: nat)
      requires Shaped(View()) && On(View(), g1, q) && On(View(), g2, q)
      modifies `preds, `succs
      ensures View() == (AfterSetSucc(old(View()), g1, q, Some(g2)); SetPred(SetSucc(old(View()), g1, q, Some(g2)), g2, q, Some(g1)))
    {
      AfterSetSucc(View(), g1, q, Some(g2));
      assert GateShaped(View(), g1) && GateShaped(View(), g2);
      succs := succs[g1 := succs[g1][PinOf(gates[g1].qubits, q) := Some(g2)]];
      preds := preds[g2 := preds[g2][PinOf(gates[g2].qubits, q) := Some(g1)]];
    }

    /** Enters a gate that is not linked yet, under the next number. */
    method Enter(gate: LogicalGate) returns (id: nat)
      modifies this
      ensures id == old(nextId) && nextId == id + 1 && View() == WithGate(old(View()), id, gate)
      ensures chains == old(chains) && rank == old(rank) && lo == old(lo) && hi == old(hi)
    {
      id := nextId;
      gates := gates[id := gate];
      preds := preds[id := seq(|gate.qubits|, i => None)];
      succs := succs[id := seq(|gate.qubits|, i => None)];
      nextId := nextId + 1;
    }

    /** Links a gate behind the last gate of one qubit. */
    method LinkBehind(id: nat, qb: nat)
      requires Shaped(View()) && On(View(), id, qb) && qb < |first|
      requires last[qb].Some? ==> On(View(), last[qb].value, qb)
      modifies `preds, `succs, `first, `last
      ensures View() == LinkLast(old(View()), id, qb)
    {
      if last[qb].Some? {
        Connect(last[qb].value, id, qb);
      } else {
        first := first[qb := Some(id)];
      }
      last := last[qb := Some(id)];
    }

    /** Links a gate before the first gate of one qubit. */
    method LinkAhead(id: nat, qb: nat)
      requires Shaped(View()) && On(View(), id, qb) && qb < |first|
      requires first[qb].Some? ==> On(View(), first[qb].value, qb)
      modifies `preds, `succs, `first, `last
      ensures View() == LinkFirst(old(View()), id, qb)
    {
      if first[qb].Some? {
        Connect(id, first[qb].value, qb);
      } else {
        last := last[qb := Some(id)];
      }
      first := first[qb := Some(id)];
    }

    /** Links a new gate pin by pin. */
    method LinkPins(gate: LogicalGate, id: nat, atEnd: bool, ghost before: seq<seq<nat>>)
      requires Adding(View(), before, gate, id, 0, atEnd)
      modifies `preds, `succs, `first, `last
      ensures Adding(View(), before, gate, id, |gate.qubits|, atEnd)
    {
      var k := 0;
      while k < |gate.qubits|
        invariant Adding(View(), before, gate, id, k, atEnd)
      {
        AddStep(View(), before, gate, id, k, atEnd);
        if atEnd {
          LinkBehind(id, gate.qubits[k]);
        } else {
          LinkAhead(id, gate.qubits[k]);
        }
        k := k + 1;
      }
    }

    /** Puts a gate behind the last gates of its qubits. */
    method Append(gate: LogicalGate) returns (id: nat)
      requires Valid() && gate.Shape(|first|)
      modifies this
      ensures Valid() && id == old(nextId) && gates == old(gates)[id := gate]
      ensures chains == Grow(old(chains), gate.qubits, id, true)
    {
      hide Chained, Ranked, Adding, Grow, Topological, Fresh, Bounded;
      AddStarts(View(), chains, gate, nextId, true);
      GrowKeepsRanks(View(), chains, rank, lo, hi, gate.qubits, nextId, true);
      id := Enter(gate);
      LinkPins(gate, id, true, chains);
      AddEnds(View(), chains, gate, id, true);
      BoundedGrows(rank, lo, hi, id, true);
      chains, rank, hi := Grow(chains, gate.qubits, id, true), rank[id := hi], hi + 1;
      dirty := true;
    }

    /** Puts a gate before the first gates of its qubits. */
    method Prepend(gate: LogicalGate) returns (id: nat)
      requires Valid() && gate.Shape(|first|)
      modifies this
      ensures Valid() && id == old(nextId) && gates == old(gates)[id := gate]
      ensures chains == Grow(old(chains), gate.qubits, id, false)
    {
      hide Chained, Ranked, Adding, Grow, Topological, Fresh, Bounded;
      AddStarts(View(), chains, gate, nextId, false);
      GrowKeepsRanks(View(), chains, rank, lo, hi, gate.qubits, nextId, false);
      id := Enter(gate);
      LinkPins(gate, id, false, chains);
      AddEnds(View(), chains, gate, id, false);
      BoundedGrows(rank, lo, hi, id, false);
      chains, rank, lo := Grow(chains, gate.qubits, id, false), rank[id := lo], lo - 1;
      dirty := true;
    }

    /** Links the neighbours of a gate on its k-th pin to each other. */
    method BridgePin(id: nat, k: nat)
      requires Shaped(View()) && id in gates && k < |gates[id].qubits| && CanUnlink(View(), id, gates[id].qubits[k])
      modifies `preds, `succs, `first, `last
      ensures View() == Unlink(old(View()), id, old(gates)[id].qubits[k])
    {
      var q := gates[id].qubits[k];
      assert GateShaped(View(), id);
      PinIsUnique(gates[id], |first|, k);
      var pred, succ := preds[id][k], succs[id][k];
      assert pred == PredOn(View(), id, q) && succ == SuccOn(View(), id, q);
      if pred.Some? {
        assert GateShaped(View(), pred.value);
        succs := succs[pred.value := succs[pred.value][PinOf(gates[pred.value].qubits, q) := succ]];
      } else {
        first := first[q := succ];
      }
      assert View() == UnlinkPred(old(View()), id, q);
      if succ.Some? {
        assert GateShaped(View(), succ.value);
        preds := preds[succ.value := preds[succ.value][PinOf(gates[succ.value].qubits, q) := pred]];
      } else {
        last := last[q := pred];
      }
    }

    method BridgePins(id: nat, ghost before: seq<seq<nat>>)
      requires id in gates && Removing(View(), before, id, 0)
      modifies `preds, `succs, `first, `last
      ensures Removing(View(), before, id, |gates[id].qubits|)
    {
      hide Removing, Unlink, On;
      var k := 0;
      while k < |gates[id].qubits|
        invariant k <= |gates[id].qubits| && Removing(View(), before, id, k)
      {
        RemoveStep(View(), before, id, k);
        BridgePin(id, k);
        k := k + 1;
      }
    }

    /** Drops a gate that is on no chain any more. */
    method Forget(id: nat)
      requires id in gates && Removing(View(), chains, id, |gates[id].qubits|) && forall q :: 0 <= q < |chains| ==> Distinct(chains[q])
      modifies `gates, `chains, `dirty
      ensures View() == WithoutGate(old(View()), id) && dirty
      ensures chains == Shrink(old(chains), old(gates)[id].qubits, id) && Chained(View(), chains)
    {
      hide Chained, Removing, Shrink, Distinct;
      RemoveEnds(View(), chains, id);
      chains := Shrink(chains, gates[id].qubits, id);
      gates := gates - {id};
      dirty := true;
    }

    /** Removes a gate; its neighbours are linked to each other. */
    method RemoveGate(id: nat) returns (found: bool)
      requires Valid()
      modifies this
      ensures Valid() && found == (id in old(gates))
      ensures found ==> gates == old(gates) - {id} && chains == Shrink(old(chains), old(gates)[id].qubits, id)
      ensures !found ==> View() == old(View()) && chains == old(chains)
    {
      hide Chained, Ranked, Removing, Shrink, Topological, Distinct;
      if id !in gates {
        return false;
      }
      RemoveStarts(View(), chains, id);
      ShrinkKeepsRanks(chains, rank, gates[id].qubits, id);
      BridgePins(id, chains);
      Forget(id);
      found := true;
    }

    method InvertGate(g: nat, dagger: string -> string, ghost c: Circuit, ghost done: set<nat>)
      requires Shaped(c) && g in c.gates && g !in done && View() == Swapped(c, done, dagger)
      modifies `gates, `preds, `succs
      ensures View() == Swapped(c, done + {g}, dagger)
    {
      SwappedOne(c, done, g, dagger);
      gates := gates[g := gates[g].(kind := dagger(gates[g].kind))];
      var oldSuccs, oldPreds := succs[g], preds[g];
      succs := succs[g := oldPreds];
      preds := preds[g := oldSuccs];
    }

    /** Inverts every gate and swaps its links. */
    method SwapLinks(dagger: string -> string)
      requires Shaped(View())
      modifies `gates, `preds, `succs
      ensures View() == Swapped(old(View()), old(gates).Keys, dagger)
    {
      ghost var c, done := View(), {};
      var todo := gates.Keys;
      SwappedNone(c, dagger);
      while todo != {}
        invariant Parts(done, todo, c.gates.Keys)
        invariant View() == Swapped(c, done, dagger)
        decreases |todo|
      {
        var g :| g in todo;
        MoveOver(done, todo, c.gates.Keys, g);
        InvertGate(g, dagger, c, done);
        done := done + {g};
        todo := todo - {g};
      }
      assert done == c.gates.Keys;
    }

    /** Swaps the first and the last gate of every qubit. */
    method SwapEnds()
      requires |first| == |last|
      modifies `first, `last
      ensures first == old(last) && last == old(first)
    {
      var q := 0;
      while q < |first|
        invariant q <= |first| == |last| == |old(first)|
        invariant forall r :: 0 <= r < |first| ==> first[r] == if r < q then old(last)[r] else old(first)[r]
        invariant forall r :: 0 <= r < |last| ==> last[r] == if r < q then old(first)[r] else old(last)[r]
      {
        first, last := first[q := last[q]], last[q := first[q]];
        q := q + 1;
      }
    }

    /** Inverts the circuit. */
    method AdjointInplace(dagger: string -> string)
      requires Valid()
      modifies this
      ensures Valid() && View() == AdjointOf(old(View()), dagger) && chains == ReversedAll(old(chains))
      ensures forall q: nat :: InverseWord(WordOn(old(gates), old(chains), q), WordOn(gates, chains, q), dagger)
    {
      hide Chained, Ranked, Topological, AdjointOf, Swapped, Bounded, InverseWord, WordOn, ReversedAll, Negated;
      AdjointWords(View(), chains, dagger);
      ChainsShaped(View(), chains);
      AdjointKeeps(View(), rank, lo, hi, dagger);
      AdjointChains(View(), chains, dagger);
      AdjointRanks(chains, rank);
      SwappedAll(View(), dagger);
      SwapLinks(dagger);
      SwapEnds();
      chains, rank, lo, hi := ReversedAll(chains), Negated(rank), -hi, -lo;
      dirty := true;
    }

    /** The gates in topological order; the list is kept until the circuit changes. */
    method GetGates() returns (list: seq<nat>)
      requires Valid()
      modifies `gateList, `dirty
      ensures Valid() && list == gateList && Topological(View(), chains, list)
    {
      if dirty {
        gateList := Dfs();
        dirty := false;
      }
      list := gateList;
    }

    /** The first gates of all qubits, to be visited. */
    method FirstGates() returns (stack: seq<Frame>)
      requires Valid()
      ensures Searching(View(), rank, stack, {}, [], |stack|, 0)
    {
      ghost var c := View();
      stack := [];
      var q := 0;
      while q < |first|
        invariant q <= |first| && StackOk(c, rank, stack) && FirstOk(c, stack, {}, q)
        invariant forall p :: 0 <= p < |stack| ==> !stack[p].childrenVisited
      {
        if first[q].Some? {
          FirstInRank(c, chains, rank, q);
          PushKeepsFirst(c, stack, {}, q, Frame(false, first[q].value));
          OnTop(stack, 0, first[q].value);
          stack := stack + [Frame(false, first[q].value)];
        }
        q := q + 1;
      }
    }

    /** Pushes the successors of the open gate on top that have not been visited. */
    method PushSuccessors(node: nat, before: seq<Frame>, visited: set<nat>, ghost post: seq<nat>) returns (stack: seq<Frame>)
      requires Shaped(View()) && Upward(View(), rank) && node in succs && |before| > 0 && before[|before| - 1] == Frame(true, node)
      requires Searching(View(), rank, before, visited, post, |before| - 1, 0)
      ensures Searching(View(), rank, stack, visited, post, |stack|, 0)
    {
      ghost var top := |before| - 1;
      stack := before;
      var k := 0;
      while k < |succs[node]|
        invariant k <= |succs[node]|
        invariant |stack| > top && stack[top] == Frame(true, node)
        invariant forall p :: top < p < |stack| ==> !stack[p].childrenVisited
        invariant Searching(View(), rank, stack, visited, post, top, k)
      {
        var succ := succs[node][k];
        SuccStep(View(), rank, stack, visited, post, top, k);
        if succ.Some? && succ.value !in visited {
          stack := stack + [Frame(false, succ.value)];
        }
        k := k + 1;
      }
      AllCovered(View(), rank, stack, visited, post, top);
    }

    /** One step of the search: the top of the stack is listed, dropped or opened. */
    method Visit(stack: seq<Frame>, visited: set<nat>, post: seq<nat>)
      returns (stack': seq<Frame>, visited': set<nat>, post': seq<nat>)
      requires Shaped(View()) && Upward(View(), rank) && stack != []
      requires Searching(View(), rank, stack, visited, post, |stack|, 0)
      ensures Searching(View(), rank, stack', visited', post', |stack'|, 0)
      ensures |gates.Keys - visited'| < |gates.Keys - visited| || (visited' == visited && |stack'| < |stack|)
    {
      var top := |stack| - 1;
      var node := stack[top].gate;
      if stack[top].childrenVisited {
        EmitStep(View(), rank, stack, visited, post);
        return stack[..top], visited, post + [node];
      }
      if node in visited {
        SkipStep(View(), rank, stack, visited, post);
        return stack[..top], visited, post;
      }
      FewerLeft(gates.Keys, visited, node);
      stack', visited' := Open(stack, visited, post);
      post' := post;
    }

    /** Opens the gate on top and pushes its successors. */
    method Open(stack: seq<Frame>, visited: set<nat>, ghost post: seq<nat>) returns (stack': seq<Frame>, visited': set<nat>)
      requires Shaped(View()) && Upward(View(), rank) && stack != []
      requires Searching(View(), rank, stack, visited, post, |stack|, 0)
      requires !stack[|stack| - 1].childrenVisited && stack[|stack| - 1].gate !in visited
      ensures Searching(View(), rank, stack', visited', post, |stack'|, 0)
      ensures visited' == visited + {stack[|stack| - 1].gate}
    {
      var top := |stack| - 1;
      var node := stack[top].gate;
      OpenStep(View(), rank, stack, visited, post);
      assert GateShaped(View(), node);
      visited' := visited + {node};
      stack' := PushSuccessors(node, stack[..top] + [Frame(true, node)], visited', post);
    }

    /** Depth-first search from the first gates of all qubits; the gates in reverse order of completion. */
    method Dfs() returns (list: seq<nat>)
      requires Valid()
      ensures Topological(View(), chains, list)
    {
      RanksUpward(View(), chains, rank);
      var stack := FirstGates();
      var post: seq<nat>, visited: set<nat> := [], {};
      while stack != []
        invariant Searching(View(), rank, stack, visited, post, |stack|, 0)
        decreases |gates.Keys - visited|, |stack|
      {
        stack, visited, post := Visit(stack, visited, post);
      }
      SearchEnds(View(), chains, rank, visited, post);
      list := Reversed(post);
    }

    /** Appends all gates of another circuit (which may be this one) in topological order. */
    method Compose(other: QCir)
      requires Valid() && other.Valid()
      modifies this, other
      ensures Valid() && |chains| == if |old(chains)| < |old(other.chains)| then |old(other.chains)| else |old(chains)|
      ensures forall q: nat :: WordOn(gates, chains, q)
                == WordOn(old(gates), old(chains), q) + WordOn(old(other.gates), old(other.chains), q)
    {
      ghost var d, theirs := other.View(), other.chains;
      if |first| < |other.first| {
        AddQubits(|other.first| - |first|);
      }
      MoreQubitsSayNothing(gates, old(chains), chains);
      var list := other.GetGates();
      AppendAll(other.gates, list, d);
      forall q: nat ensures Said(d, list, |list|, q) == WordOn(d.gates, theirs, q) {
        SaidAll(d, theirs, list, q);
      }
    }

    /** Appends listed gates one after the other. */
    method AppendAll(gs: map<nat, LogicalGate>, list: seq<nat>, ghost d: Circuit)
      requires Valid() && Shaped(d) && d.gates == gs && |d.first| <= |first| && forall g :: g in list ==> g in gs
      modifies this
      ensures Valid() && |chains| == |old(chains)|
      ensures forall q: nat :: WordOn(gates, chains, q) == WordOn(old(gates), old(chains), q) + Said(d, list, |list|, q)
    {
      ghost var start, m := chains, gates;
      var k := 0;
      SaidNothing(d, list);
      while k < |list|
        invariant k <= |list| && Valid() && |chains| == |start| && |d.first| <= |first|
        invariant forall q: nat :: WordOn(gates, chains, q) == WordOn(m, start, q) + Said(d, list, k, q)
      {
        assert list[k] in list && GateShaped(d, list[k]);
        ghost var c, before := View(), chains;
        var id := Append(gs[list[k]]);
        SaidOneMore(m, start, c, before, d, list, k, id);
        k := k + 1;
      }
    }
  }
}
