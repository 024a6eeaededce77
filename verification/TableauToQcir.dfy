/**
 Synthesis of a whole tableau: every sub-tableau by its strategy, composed in order.
 */
module TableauToQcir {
  import opened Sequences
  import opened PauliAlgebra
  import opened CliffordOps
  import opened CliffordTableaux
  import opened ProgramSemantics
  import opened PauliRotations
  import opened RotationDiagonalization
  import opened DiagonalCircuits
  import opened Tableaux
  import opened StabilizerRank
  import AGSynthesis
  import HOptSynthesis
  import GraySynth
  import MstSynthesis

  datatype CliffordStrategy = AG | HOpt(mode: HOptSynthesis.Mode)

  datatype RotationStrategy =
    | Naive
    | Gray(mode: GraySynth.Mode, order: seq<nat>)
    | Mst(choose: (seq<Rotation>, Rotation) -> MstSynthesis.Arborescence)

  ghost predicate StrategyOk(s: RotationStrategy, n: nat) {
    match s
    case Naive => true
    case Gray(_, order) => |order| == n && Distinct(order)
    case Mst(choose) => MstSynthesis.Spanning(choose, n)
  }

  /** The string has the tableau and is made by the strategy; the h-optimal one has as many h as the tableau's rank. */
  ghost predicate CliffordBy(n: nat, rows: seq<Pauli>, s: CliffordStrategy, ops: seq<Op>) {
    && Shaped(rows, n) && AllFit(ops, n) && TableauOf(n, ops) == rows
    && match s
       case AG => AGSynthesis.ByElimination(n, rows, ops)
       case HOpt(mode) => HCount(ops) == Rank(rows, n) && HOptSynthesis.ByMode(mode, n, rows, ops)
  }

  /** Synthesis of a Clifford sub-tableau reproduces its tableau in the way of the strategy. */
  method SynthesizeClifford(n: nat, rows: seq<Pauli>, s: CliffordStrategy) returns (ops: seq<Op>)
    requires Symplectic(rows, n)
    ensures CliffordBy(n, rows, s, ops)
  {
    if s.AG? {
      ops := AGSynthesis.Synthesize(n, rows);
    } else {
      ops := HOptSynthesis.Synthesize(n, rows, s.mode);
    }
  }

  /** What a strategy asks of a list: no rotation about the identity, and the diagonal ones look at the first rotation. */
  predicate ListReady(rs: seq<Rotation>, n: nat, s: RotationStrategy) { NoBlankAxis(rs, n) && (!s.Naive? ==> |rs| > 0) }

  /** The h of a list: only the naive strategy changes the basis. */
  function BasisHs(rs: seq<Rotation>, s: RotationStrategy): nat { if s.Naive? then BasisChanges(rs) else 0 }

  /** The circuit has the meaning of the list, one phase gate for every rotation, and is made by the strategy. */
  ghost predicate RotationsBy(n: nat, rs: seq<Rotation>, s: RotationStrategy, gates: seq<Item>) {
    && Equivalent(n, Rots(rs), gates)
    && RotationsIn(gates) == |rs| && HCount(OpsIn(gates)) == BasisHs(rs, s)
    && match s
       case Naive => ByBlocks(n, rs, gates)
       case Gray(mode, order) => |order| == n && GraySynth.BySplitting(mode, order, n, rs, gates)
       case Mst(choose) => MstSynthesis.GreedyTrees(n, choose, rs, gates)
  }

  /** Diagonal strategies fail exactly on lists that are not diagonal. */
  method SynthesizeRotations(n: nat, rs: seq<Rotation>, s: RotationStrategy) returns (r: Outcome)
    requires AllNormal(rs, n) && ListReady(rs, n, s) && StrategyOk(s, n)
    ensures r.Rejected? <==> !s.Naive? && !AllDiagonal(rs)
    ensures r.Circuit? ==> RotationsBy(n, rs, s, r.gates)
  {
    if s.Naive? {
      var gates := NaiveSynthesize(n, rs);
      r := Circuit(gates);
    } else if s.Gray? {
      r := GraySynth.Synthesize(n, rs, s.mode, s.order);
    } else {
      r := MstSynthesis.Synthesize(n, rs, s.choose);
    }
  }

  predicate SubReady(s: SubTableau, n: nat, strategy: RotationStrategy) { s.Rotations? ==> ListReady(s.rs, n, strategy) }

  /** A list this strategy cannot synthesize. */
  predicate Rejects(s: RotationStrategy, sub: SubTableau) {
    sub.Rotations? && !s.Naive? && !AllDiagonal(sub.rs)
  }

  /** What the h-optimal strategy spends on h: the rank of every Clifford, and the basis changes of every list. */
  ghost function HBudget(subs: seq<SubTableau>, n: nat, s: RotationStrategy): nat
    requires AllValid(subs, n)
  {
    if |subs| == 0 then 0
    else
      var k := |subs| - 1;
      assert SubValid(subs[k], n);
      HBudget(subs[..k], n, s) + SubBudget(subs[k], n, s)
  }

  ghost function SubBudget(sub: SubTableau, n: nat, s: RotationStrategy): nat
    requires SubValid(sub, n)
  {
    match sub
    case Clifford(rows) => TableauShaped(n, CircuitOf(n, rows)); Rank(rows, n)
    case Rotations(rs) => BasisHs(rs, s)
  }

  /** The part of the circuit for one sub-tableau. */
  ghost predicate FragmentOf(n: nat, sub: SubTableau, cs: CliffordStrategy, rs: RotationStrategy, gates: seq<Item>) {
    match sub
    case Clifford(rows) => exists ops: seq<Op> :: CliffordBy(n, rows, cs, ops) && gates == Gates(ops)
    case Rotations(list) => RotationsBy(n, list, rs, gates)
  }

  /** The circuit consists of a part for every sub-tableau, one after the other. */
  ghost predicate Assembled(n: nat, subs: seq<SubTableau>, cs: CliffordStrategy, rs: RotationStrategy, gates: seq<Item>) {
    if |subs| == 0 then gates == []
    else
      var k := |subs| - 1;
      exists before: seq<Item>, fragment: seq<Item> ::
        gates == before + fragment && Assembled(n, subs[..k], cs, rs, before) && FragmentOf(n, subs[k], cs, rs, fragment)
  }

  lemma AssembledNext(n: nat, subs: seq<SubTableau>, i: nat, cs: CliffordStrategy, rs: RotationStrategy, before: seq<Item>, fragment: seq<Item>)
    requires i < |subs| && Assembled(n, subs[..i], cs, rs, before) && FragmentOf(n, subs[i], cs, rs, fragment)
    ensures Assembled(n, subs[..i + 1], cs, rs, before + fragment)
  {
    hide FragmentOf;
    assert subs[..i + 1][..i] == subs[..i];
  }

  /** With the h-optimal strategy the circuit has as many h as the budget says. */
  ghost predicate WithinBudget(cs: CliffordStrategy, gates: seq<Item>, budget: nat) { cs.HOpt? ==> HCount(OpsIn(gates)) == budget }

  /**
   The circuit has the meaning of the tableau, a part for every sub-tableau and one phase gate for
   every rotation; with the h-optimal strategy every Clifford costs as many h as its rank, which no
   circuit goes below.
   */
  ghost predicate Compiled(n: nat, subs: seq<SubTableau>, cs: CliffordStrategy, rs: RotationStrategy, gates: seq<Item>) {
    && AllValid(subs, n)
    && Equivalent(n, Items(subs, n), gates) && Assembled(n, subs, cs, rs, gates)
    && RotationsIn(gates) == RotationCount(subs) && WithinBudget(cs, gates, HBudget(subs, n, rs))
  }

  ghost predicate SubCompiled(n: nat, sub: SubTableau, cs: CliffordStrategy, rs: RotationStrategy, gates: seq<Item>) {
    && SubValid(sub, n)
    && Equivalent(n, SubItems(sub, n), gates) && FragmentOf(n, sub, cs, rs, gates)
    && RotationsIn(gates) == SubCount(sub) && WithinBudget(cs, gates, SubBudget(sub, n, rs))
  }

  lemma NothingCompiled(n: nat, cs: CliffordStrategy, rs: RotationStrategy)
    ensures Compiled(n, [], cs, rs, [])
  {
    EquivalentReflexive(n, []);
  }

  lemma MeaningNext(n: nat, subs: seq<SubTableau>, i: nat, gates: seq<Item>, fragment: seq<Item>)
    requires AllValid(subs, n) && i < |subs| && SubValid(subs[i], n) && AllValid(subs[..i], n)
    requires Equivalent(n, Items(subs[..i], n), gates) && Equivalent(n, SubItems(subs[i], n), fragment)
    ensures AllValid(subs[..i + 1], n) && Equivalent(n, Items(subs[..i + 1], n), gates + fragment)
  {
    hide Equivalent;
    Around(subs, n, i);
    EquivalentBefore(n, Items(subs[..i], n), gates, SubItems(subs[i], n));
    EquivalentAfter(n, gates, SubItems(subs[i], n), fragment);
    EquivalentTransitive(n, Items(subs[..i + 1], n), gates + SubItems(subs[i], n), gates + fragment);
  }

  lemma CountsNext(n: nat, subs: seq<SubTableau>, i: nat, cs: CliffordStrategy, rs: RotationStrategy, gates: seq<Item>, fragment: seq<Item>)
    requires i < |subs| && AllValid(subs[..i], n) && SubValid(subs[i], n) && AllValid(subs[..i + 1], n)
    requires RotationsIn(gates) == RotationCount(subs[..i]) && RotationsIn(fragment) == SubCount(subs[i])
    requires WithinBudget(cs, gates, HBudget(subs[..i], n, rs)) && WithinBudget(cs, fragment, SubBudget(subs[i], n, rs))
    ensures RotationsIn(gates + fragment) == RotationCount(subs[..i + 1])
    ensures WithinBudget(cs, gates + fragment, HBudget(subs[..i + 1], n, rs))
  {
    hide SubBudget, SubCount, SubValid, RotationsIn, OpsIn, HCount;
    CountsConcat(gates, fragment);
    HCountConcat(OpsIn(gates), OpsIn(fragment));
    assert subs[..i + 1][..i] == subs[..i];
  }

  lemma CompiledNext(n: nat, subs: seq<SubTableau>, i: nat, cs: CliffordStrategy, rs: RotationStrategy, gates: seq<Item>, fragment: seq<Item>)
    requires AllValid(subs, n) && i < |subs| && Compiled(n, subs[..i], cs, rs, gates) && SubCompiled(n, subs[i], cs, rs, fragment)
    ensures Compiled(n, subs[..i + 1], cs, rs, gates + fragment)
  {
    hide Equivalent, Items, SubItems, Assembled, FragmentOf, RotationsIn, RotationCount, SubCount, WithinBudget, HBudget, SubBudget;
    MeaningNext(n, subs, i, gates, fragment);
    AssembledNext(n, subs, i, cs, rs, gates, fragment);
    CountsNext(n, subs, i, cs, rs, gates, fragment);
  }

  /** The circuit of a tableau; it fails exactly when some list is rejected. */
  method ToQcir(n: nat, subs: seq<SubTableau>, cs: CliffordStrategy, rs: RotationStrategy) returns (r: Outcome)
    requires AllValid(subs, n) && StrategyOk(rs, n)
    requires forall i :: 0 <= i < |subs| ==> SubReady(subs[i], n, rs)
    ensures r.Rejected? <==> exists i :: 0 <= i < |subs| && Rejects(rs, subs[i])
    ensures r.Circuit? ==> Compiled(n, subs, cs, rs, r.gates)
  {
    hide Compiled, SubCompiled, SubValid, StrategyOk;
    var qcir: seq<Item> := [];
    NothingCompiled(n, cs, rs);
    for i := 0 to |subs|
      invariant Compiled(n, subs[..i], cs, rs, qcir)
      invariant forall j :: 0 <= j < i ==> !Rejects(rs, subs[j])
    {
      assert SubReady(subs[i], n, rs);
      assert SubValid(subs[i], n);
      var fragment := SubToQcir(n, subs[i], cs, rs);
      if fragment.Rejected? { return Rejected; }
      CompiledNext(n, subs, i, cs, rs, qcir, fragment.gates);
      qcir := qcir + fragment.gates;
    }
    assert subs[..|subs|] == subs;
    r := Circuit(qcir);
  }

  lemma CliffordCompiled(n: nat, rows: seq<Pauli>, cs: CliffordStrategy, rs: RotationStrategy, ops: seq<Op>)
    requires Reachable(n, rows) && CliffordBy(n, rows, cs, ops)
    ensures SubCompiled(n, Clifford(rows), cs, rs, Gates(ops))
  {
    hide Equivalent, HCount, Rank;
    SameTableauSameMeaning(n, CircuitOf(n, rows), ops);
    ItemsOfGates(ops);
  }

  method SubToQcir(n: nat, s: SubTableau, cs: CliffordStrategy, rs: RotationStrategy) returns (r: Outcome)
    requires SubValid(s, n) && SubReady(s, n, rs) && StrategyOk(rs, n)
    ensures r.Rejected? <==> Rejects(rs, s)
    ensures r.Circuit? ==> SubCompiled(n, s, cs, rs, r.gates)
  {
    hide CliffordBy, Equivalent;
    if s.Clifford? {
      ReachableIsSymplectic(n, s.rows);
      var ops := SynthesizeClifford(n, s.rows, cs);
      CliffordCompiled(n, s.rows, cs, rs, ops);
      r := Circuit(Gates(ops));
    } else {
      r := SynthesizeRotations(n, s.rs, rs);
    }
  }
}
