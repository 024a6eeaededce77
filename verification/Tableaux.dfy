/**
 General tableaux: sequences of Clifford sub-tableaux and lists of Pauli rotations, the
 gates pushed back into them, and the passes collapse and merge_rotations.
 */
module Tableaux {
  import opened PauliAlgebra
  import opened CliffordOps
  import opened CliffordTableaux
  import opened StabilizerTableaux
  import opened ProgramSemantics
  import opened PauliRotations
  import opened TableauOptimization
  import HOptSynthesis

  datatype SubTableau = Clifford(rows: seq<Pauli>) | Rotations(rs: seq<Rotation>)

  /** Clifford sub-tableaux are tableaux of circuits, rotations are in normal form. */
  ghost predicate SubValid(s: SubTableau, n: nat) {
    match s
    case Clifford(rows) => Reachable(n, rows)
    case Rotations(rs) => AllNormal(rs, n)
  }

  ghost predicate AllValid(subs: seq<SubTableau>, n: nat) { forall i :: 0 <= i < |subs| ==> SubValid(subs[i], n) }

  ghost function SubItems(s: SubTableau, n: nat): seq<Item>
    requires SubValid(s, n)
  {
    match s
    case Clifford(rows) => Gates(CircuitOf(n, rows))
    case Rotations(rs) => Rots(rs)
  }

  /** The program a tableau stands for. */
  ghost function Items(subs: seq<SubTableau>, n: nat): seq<Item>
    requires AllValid(subs, n)
  {
    if |subs| == 0 then [] else SubItems(subs[0], n) + Items(subs[1..], n)
  }

  // ---------- the specification of collapse ----------

  /** All Clifford sub-tableaux in order, as one circuit. */
  ghost function TotalClifford(subs: seq<SubTableau>, n: nat): (ops: seq<Op>)
    requires AllValid(subs, n)
    ensures AllFit(ops, n)
  {
    if |subs| == 0 then []
    else
      var rest := TotalClifford(subs[1..], n);
      match subs[0]
      case Clifford(rows) => assert SubValid(subs[0], n); CircuitOf(n, rows) + rest
      case Rotations(_) => rest
  }

  /** All rotations in order, each conjugated by exactly the Clifford sub-tableaux that come after it. */
  ghost function PushedRotations(subs: seq<SubTableau>, n: nat): (rs: seq<Rotation>)
    requires AllValid(subs, n)
    ensures AllNormal(rs, n)
  {
    if |subs| == 0 then []
    else
      var rest := PushedRotations(subs[1..], n);
      match subs[0]
      case Clifford(_) => rest
      case Rotations(rs) =>
        assert SubValid(subs[0], n);
        var c := TotalClifford(subs[1..], n);
        assert forall i :: 0 <= i < |rs| ==> ConjRotationAll(c, rs[i]).Normal(n);
        ConjRotations(c, rs) + rest
  }

  /** One total Clifford followed by the pushed rotations has the meaning of the whole tableau. */
  lemma {:induction false} CollapsedMeaning(subs: seq<SubTableau>, n: nat)
    requires AllValid(subs, n)
    ensures Equivalent(n, Items(subs, n), Gates(TotalClifford(subs, n)) + Rots(PushedRotations(subs, n)))
  {
    if |subs| == 0 {
      assert Gates(TotalClifford(subs, n)) + Rots(PushedRotations(subs, n)) == [];
      EquivalentReflexive(n, []);
    } else {
      var rest := subs[1..];
      assert SubValid(subs[0], n);
      var c, p := TotalClifford(rest, n), PushedRotations(rest, n);
      CollapsedMeaning(rest, n);
      EquivalentAfter(n, SubItems(subs[0], n), Items(rest, n), Gates(c) + Rots(p));
      match subs[0]
      case Clifford(rows) =>
        GatesConcat(CircuitOf(n, rows), c);
        assert Gates(CircuitOf(n, rows)) + (Gates(c) + Rots(p)) == Gates(CircuitOf(n, rows) + c) + Rots(p);
      case Rotations(rs) =>
        PushRotations(n, rs, c);
        EquivalentBefore(n, Rots(rs) + Gates(c), Gates(c) + Rots(ConjRotations(c, rs)), Rots(p));
        RotsConcat(ConjRotations(c, rs), p);
        assert Rots(rs) + (Gates(c) + Rots(p)) == Rots(rs) + Gates(c) + Rots(p);
        assert Gates(c) + Rots(ConjRotations(c, rs)) + Rots(p) == Gates(c) + Rots(ConjRotations(c, rs) + p);
        EquivalentTransitive(n, Items(subs, n), Rots(rs) + (Gates(c) + Rots(p)),
                             Gates(c) + Rots(ConjRotations(c, rs) + p));
    }
  }

  predicate HasRotations(subs: seq<SubTableau>) { exists i :: 0 <= i < |subs| && subs[i].Rotations? }

  /** All rotation lists of the given sub-tableaux, joined. */
  function JoinRotations(subs: seq<SubTableau>): seq<Rotation> {
    if |subs| == 0 then []
    else
      var rest := JoinRotations(subs[1..]);
      match subs[0]
      case Clifford(_) => rest
      case Rotations(rs) => rs + rest
  }

  /** The Clifford and rotation part of a collapsed tableau. */
  function Collapsed(rows: seq<Pauli>, rs: seq<Rotation>, some: bool): seq<SubTableau> {
    if some then [Clifford(rows), Rotations(rs)] else [Clifford(rows)]
  }

  lemma SameConjRotations(n: nat, a: seq<Op>, b: seq<Op>, rs: seq<Rotation>)
    requires AllFit(a, n) && AllFit(b, n) && AllNormal(rs, n)
    requires TableauOf(n, a) == TableauOf(n, b)
    ensures ConjRotations(a, rs) == ConjRotations(b, rs)
  {
    forall i | 0 <= i < |rs| ensures ConjRotationAll(a, rs[i]) == ConjRotationAll(b, rs[i]) {
      TableauDetermines(n, a, b, rs[i].p);
    }
  }

  lemma ConjRowsSame(n: nat, a: seq<Op>, b: seq<Op>, rows: seq<Pauli>)
    requires AllFit(a, n) && AllFit(b, n) && Shaped(rows, n)
    requires TableauOf(n, a) == TableauOf(n, b)
    ensures ConjRows(a, rows) == ConjRows(b, rows)
  {
    forall i | 0 <= i < |rows| ensures ConjAll(a, rows[i]) == ConjAll(b, rows[i]) {
      TableauDetermines(n, a, b, rows[i]);
    }
  }

  lemma TailValid(subs: seq<SubTableau>, n: nat, i: nat)
    requires AllValid(subs, n) && i <= |subs|
    ensures AllValid(subs[i..], n)
  {
    forall j | 0 <= j < |subs[i..]| ensures SubValid(subs[i..][j], n) {
      assert SubValid(subs[i + j], n);
    }
  }

  lemma Unfold(subs: seq<SubTableau>, n: nat, i: nat)
    requires AllValid(subs, n) && i < |subs|
    ensures AllValid(subs[i..], n) && AllValid(subs[i + 1..], n) && SubValid(subs[i], n)
    ensures subs[i].Clifford? ==>
              && TotalClifford(subs[i..], n) == CircuitOf(n, subs[i].rows) + TotalClifford(subs[i + 1..], n)
              && PushedRotations(subs[i..], n) == PushedRotations(subs[i + 1..], n)
    ensures subs[i].Rotations? ==>
              && TotalClifford(subs[i..], n) == TotalClifford(subs[i + 1..], n)
              && PushedRotations(subs[i..], n)
                 == ConjRotations(TotalClifford(subs[i + 1..], n), subs[i].rs) + PushedRotations(subs[i + 1..], n)
  {
    TailValid(subs, n, i);
    TailValid(subs, n, i + 1);
    assert SubValid(subs[i], n);
    assert subs[i..][1..] == subs[i + 1..];
  }

  lemma JoinCons(s: SubTableau, rest: seq<SubTableau>)
    ensures JoinRotations([s] + rest) == (if s.Rotations? then s.rs else []) + JoinRotations(rest)
  {
    assert ([s] + rest)[1..] == rest;
  }

  predicate SameKinds(a: seq<SubTableau>, b: seq<SubTableau>) {
    |a| == |b| && forall j :: 0 <= j < |a| ==> a[j].Rotations? == b[j].Rotations?
  }

  lemma PushedNormal(n: nat, ops: seq<Op>, rs: seq<Rotation>)
    requires AllFit(ops, n) && AllNormal(rs, n)
    ensures AllNormal(ConjRotations(ops, rs), n)
  {
    forall j | 0 <= j < |rs| ensures ConjRotations(ops, rs)[j].Normal(n) { ConjRotationNormal(ops, rs[j], n); }
  }

  /** The gates are the Cliffords from sub-tableau i on, and the rotations from there on have been pushed past those behind them. */
  ghost predicate Pushed(was: seq<SubTableau>, subs: seq<SubTableau>, n: nat, i: nat, gates: seq<Op>) {
    && i <= |subs| == |was| && AllValid(was, n) && AllValid(subs, n) && AllValid(was[i..], n)
    && AllFit(gates, n) && TableauOf(n, gates) == TableauOf(n, TotalClifford(was[i..], n))
    && (forall j :: 0 <= j < |subs| ==> subs[j].Clifford? == was[j].Clifford?)
    && subs[..i] == was[..i]
    && (i < |subs| && subs[i].Clifford? ==> subs[i] == Clifford(TableauOf(n, TotalClifford(was[i..], n))))
    && JoinRotations(subs[i..]) == PushedRotations(was[i..], n)
  }

  lemma PushStarts(was: seq<SubTableau>, n: nat)
    requires AllValid(was, n)
    ensures Pushed(was, was, n, |was|, [])
  {
    hide TableauOf;
    assert was[|was|..] == [];
  }

  lemma PushedFacts(was: seq<SubTableau>, subs: seq<SubTableau>, n: nat, i: nat, gates: seq<Op>)
    requires Pushed(was, subs, n, i + 1, gates)
    ensures i < |subs| == |was| && AllValid(subs, n) && SubValid(subs[i], n) && subs[i] == was[i] && AllValid(was[i + 1..], n)
    ensures AllFit(gates, n) && TableauOf(n, gates) == TableauOf(n, TotalClifford(was[i + 1..], n))
  {
    hide TableauOf;
    assert SubValid(subs[i], n);
    assert subs[..i + 1][i] == was[..i + 1][i];
  }

  lemma PushedNext(was: seq<SubTableau>, subs: seq<SubTableau>, n: nat, i: nat, gates: seq<Op>, s: SubTableau, gates': seq<Op>)
    requires Pushed(was, subs, n, i + 1, gates) && i < |was| == |subs| && AllValid(was[i + 1..], n) && SubValid(s, n) && SubValid(subs[i], n)
    requires AllFit(gates', n) && s.Clifford? == subs[i].Clifford?
    requires s.Clifford? ==>
               s.rows == TableauOf(n, CircuitOf(n, subs[i].rows) + TotalClifford(was[i + 1..], n)) == TableauOf(n, gates')
    requires s.Rotations? ==> s.rs == ConjRotations(TotalClifford(was[i + 1..], n), subs[i].rs) && gates' == gates
    ensures Pushed(was, subs[i := s], n, i, gates')
  {
    hide TableauOf, SubValid, ConjRotations, Reachable;
    var result := subs[i := s];
    PushedFacts(was, subs, n, i, gates);
    Unfold(was, n, i);
    assert result[i..] == [s] + subs[i + 1..];
    assert result[..i] == was[..i] by { assert subs[..i] == subs[..i + 1][..i]; }
    JoinCons(s, subs[i + 1..]);
  }

  lemma PushEnds(was: seq<SubTableau>, subs: seq<SubTableau>, n: nat, gates: seq<Op>)
    requires Pushed(was, subs, n, 0, gates) && |was| > 0 && was[0].Clifford?
    ensures |subs| == |was| && AllValid(subs, n) && forall j :: 0 <= j < |subs| ==> subs[j].Clifford? == was[j].Clifford?
    ensures subs[0] == Clifford(TableauOf(n, TotalClifford(was, n)))
    ensures JoinRotations(subs) == PushedRotations(was, n)
  {
    hide TableauOf;
    assert was[0..] == was && subs[0..] == subs;
  }

  /** Puts the gates collected so far behind a Clifford; the result is synthesized again. */
  method Absorb(n: nat, rows: seq<Pauli>, gates: seq<Op>, ghost c: seq<Op>) returns (rows': seq<Pauli>, gates': seq<Op>)
    requires Reachable(n, rows) && AllFit(gates, n) && AllFit(c, n) && TableauOf(n, gates) == TableauOf(n, c)
    ensures rows' == TableauOf(n, CircuitOf(n, rows) + c) && Reachable(n, rows')
    ensures AllFit(gates', n) && TableauOf(n, gates') == rows'
  {
    hide ConjAll;
    var st := new StabilizerTableau.Copy(n, rows);
    ReachableIsSymplectic(n, rows);
    st.ApplyAll(gates);
    ConjRowsSame(n, gates, c, rows);
    TableauConcat(n, CircuitOf(n, rows), c);
    SymplecticPreserved(gates, rows, n);
    rows' := st.rows;
    gates' := HOptSynthesis.Synthesize(n, rows', HOptSynthesis.Star);
  }

  class Tableau {
    const n: nat
    var subs: seq<SubTableau>

    ghost predicate Valid()
      reads this
    {
      AllValid(subs, n)
    }

    constructor (n: nat)
      ensures this.n == n && subs == [Clifford(Identity(n))]
      ensures Valid()
    {
      this.n := n;
      subs := [Clifford(Identity(n))];
      new;
      IdentityReachable(n);
    }

    /**
     Walks the sub-tableaux from the last to the first: every rotation is conjugated by
     the Cliffords behind it, and every Clifford takes over all of them.
     */
    method PushCliffords()
      requires Valid() && |subs| > 0 && subs[0].Clifford?
      modifies this
      ensures |subs| == |old(subs)| && Valid()
      ensures forall j :: 0 <= j < |subs| ==> subs[j].Clifford? == old(subs)[j].Clifford?
      ensures subs[0] == Clifford(TableauOf(n, TotalClifford(old(subs), n)))
      ensures JoinRotations(subs) == PushedRotations(old(subs), n)
    {
      hide TableauOf, Reachable, ConjRotations, Pushed;
      ghost var was := subs;
      var gates: seq<Op> := [];
      var i := |subs|;
      PushStarts(was, n);
      while i > 0
        invariant 0 <= i <= |subs| && Pushed(was, subs, n, i, gates)
      {
        i := i - 1;
        PushedFacts(was, subs, n, i, gates);
        ghost var before := subs;
        ghost var c := TotalClifford(was[i + 1..], n);
        ghost var behind := gates;
        if subs[i].Clifford? {
          var rows;
          rows, gates := Absorb(n, subs[i].rows, gates, c);
          subs := subs[i := Clifford(rows)];
        } else {
          var rs := subs[i].rs;
          PushedNormal(n, gates, rs);
          SameConjRotations(n, gates, c, rs);
          subs := subs[i := Rotations(ConjRotations(gates, rs))];
        }
        PushedNext(was, before, n, i, behind, subs[i], gates);
      }
      PushEnds(was, subs, n, gates);
    }

    /** One Clifford followed by at most one list of rotations, with the same meaning. */
    method Collapse()
      requires Valid()
      modifies this
      ensures Valid()
      ensures |old(subs)| == 0 ==> subs == []
      ensures |old(subs)| > 0 ==>
                subs == Collapsed(TableauOf(n, TotalClifford(old(subs), n)), PushedRotations(old(subs), n), HasRotations(old(subs)))
      ensures Equivalent(n, Items(old(subs), n), Items(subs, n))
    {
      ghost var was := subs;
      if |subs| == 0 {
        EquivalentReflexive(n, Items(subs, n));
        return;
      }
      if subs[0].Rotations? {
        IdentityReachable(n);
        IdentityInFront(was, n);
        subs := [Clifford(Identity(n))] + subs;
      }
      CollapseIsWhole(was, subs, n);
      if |subs| <= 1 {
        OnlyClifford(subs, n);
        CollapsedIsEquivalent(was, subs, n);
        return;
      }
      PushCliffords();
      var first := subs[0];
      var lists := WithoutCliffords(subs[1..]);
      JoinCons(first, subs[1..]);
      assert [first] + subs[1..] == subs;
      if |lists| == 0 {
        subs := [first];
        assert JoinRotations(lists) == [];
        CollapsedIsEquivalent(was, subs, n);
        return;
      }
      var all := lists[0].rs;
      for j := 1 to |lists|
        invariant all == JoinRotations(lists[..j])
      {
        JoinSnoc(lists[..j], lists[j]);
        assert lists[..j + 1] == lists[..j] + [lists[j]];
        all := all + lists[j].rs;
      }
      assert lists[..|lists|] == lists;
      subs := [first, Rotations(all)];
      CollapsedIsEquivalent(was, subs, n);
    }

    /**
     Merges and absorbs rotations until their number no longer falls.  The meaning is
     kept, and at the end no rotation is trivial or Clifford-angled, and between any two
     about the same axis there is one that anticommutes with them.
     */
    method MergeRotations()
      requires Valid()
      modifies this
      ensures Valid()
      ensures Equivalent(n, Items(old(subs), n), Items(subs, n))
      ensures |subs| <= 2
      ensures |subs| > 0 ==> subs[0].Clifford?
      ensures |subs| == 2 ==>
                && subs[1].Rotations? && AllNormal(subs[1].rs, n)
                && |subs[1].rs| <= |PushedRotations(old(subs), n)|
                && (forall i :: 0 <= i < |subs[1].rs| ==> !Trivial(subs[1].rs[i]) && !CliffordAngle(subs[1].rs[i]))
                && AllSeparated(subs[1].rs, n)
    {
      ghost var was := subs;
      Collapse();
      if |subs| <= 1 { return; }
      ghost var mid := subs;
      assert SubValid(subs[0], n) && SubValid(subs[1], n);
      var clifford := new StabilizerTableau.Copy(n, subs[0].rows);
      var list := new RotationList(subs[1].rs);
      ghost var circuit := CircuitOf(n, subs[0].rows);
      ghost var prog := Gates(circuit) + Rots(list.rs);
      PairItems(subs, n);
      EquivalentReflexive(n, prog);
      var before := |list.rs| + 1;
      while |list.rs| < before
        invariant clifford.n == n && fresh(clifford) && fresh(list) && clifford.rows == TableauOf(n, circuit)
        invariant AllFit(circuit, n) && AllNormal(list.rs, n)
        invariant Equivalent(n, prog, Gates(circuit) + Rots(list.rs))
        invariant |list.rs| <= before && |list.rs| <= |mid[1].rs|
        invariant subs == mid
        invariant |list.rs| == before ==>
                    && (forall i :: 0 <= i < |list.rs| ==> !Trivial(list.rs[i]) && !CliffordAngle(list.rs[i]))
                    && AllSeparated(list.rs, n)
        decreases before
      {
        before := |list.rs|;
        ghost var r0, c0 := list.rs, circuit;
        list.MergeRotations(n);
        EquivalentAfter(n, Gates(c0), Rots(r0), Rots(list.rs));
        EquivalentTransitive(n, prog, Gates(c0) + Rots(r0), Gates(c0) + Rots(list.rs));
        ghost var r1 := list.rs;
        circuit := AbsorbCliffordRotations(clifford, list, circuit);
        EquivalentTransitive(n, prog, Gates(c0) + Rots(r1), Gates(circuit) + Rots(list.rs));
      }
      subs := [Clifford(clifford.rows), Rotations(list.rs)];
      assert Reachable(n, clifford.rows);
      assert SubValid(subs[0], n) && SubValid(subs[1], n);
      PairItems(subs, n);
      SameTableauSameMeaning(n, circuit, CircuitOf(n, clifford.rows));
      EquivalentBefore(n, Gates(circuit), Gates(CircuitOf(n, clifford.rows)), Rots(list.rs));
      EquivalentTransitive(n, prog, Gates(circuit) + Rots(list.rs), Items(subs, n));
      EquivalentTransitive(n, Items(was, n), Items(mid, n), Items(subs, n));
    }

    /**
     Appends h, s or cx: the gate is pushed back through the rotations at the end into the
     last Clifford.  Without any Clifford the gate ends up in front of the program.
     */
    method ApplyGate(op: Op)
      requires Valid() && op.Basic() && op.Fits(n)
      modifies this
      ensures Valid() && subs == Appended(old(subs), op)
      ensures SameKinds(subs, old(subs)) && (HasClifford(subs) <==> HasClifford(old(subs)))
      ensures RotationCount(subs) == RotationCount(old(subs))
      ensures HasClifford(old(subs)) ==> Equivalent(n, Items(old(subs), n) + [Gate(op)], Items(subs, n))
      ensures !HasClifford(old(subs)) ==> Equivalent(n, Items(old(subs), n) + [Gate(op)], [Gate(op)] + Items(subs, n))
    {
      hide Equivalent, Items, ConjRotations, ConjEach, SubValid, HasClifford, Appending, Appended, SameKinds;
      ghost var was := subs;
      AppendedCount(was, op);
      AppendedMeaning(was, n, op);
      assert [] + Items(Appended(was, op), n) == Items(Appended(was, op), n);
      var i := |subs|;
      AppendingEnds(was, op);
      while i > 0
        invariant 0 <= i <= |subs| && Appending(was, subs, op, i)
      {
        i := i - 1;
        AppendingStep(was, subs, op, i);
        var st := subs[i];
        if st.Clifford? {
          ValidAt(was, n, i);
          var tableau := new StabilizerTableau.Copy(n, st.rows);
          tableau.Apply(op);
          subs := subs[i := Clifford(tableau.rows)];
          return;
        }
        subs := subs[i := Rotations(ConjRotations([op], st.rs))];
      }
      AppendingDone(was, subs, op);
    }

    /** Reverses the program: sub-tableaux in reverse order, Cliffords inverted, phases negated. */
    method AdjointInPlace()
      requires Valid()
      modifies this
      ensures Valid()
      ensures Equivalent(n, Items(old(subs), n) + Items(subs, n), [])
      ensures Equivalent(n, Items(subs, n) + Items(old(subs), n), [])
    {
      ghost var was := subs;
      var result: seq<SubTableau> := [];
      EquivalentReflexive(n, []);
      for i := 0 to |subs|
        invariant subs == was && AllValid(result, n) && AllValid(was[..i], n) && AllValid(was, n)
        invariant Equivalent(n, Items(was[..i], n) + Items(result, n), [])
        invariant Equivalent(n, Items(result, n) + Items(was[..i], n), [])
      {
        assert SubValid(subs[i], n);
        var inv := AdjointSub(subs[i], n);
        AdjointStep(was[..i], result, subs[i], inv, n);
        assert was[..i + 1] == was[..i] + [was[i]];
        result := [inv] + result;
      }
      assert was[..|was|] == was;
      subs := result;
    }
  }

  predicate HasClifford(subs: seq<SubTableau>) { exists i :: 0 <= i < |subs| && subs[i].Clifford? }

  lemma {:induction false} ItemsConcat(a: seq<SubTableau>, b: seq<SubTableau>, n: nat)
    requires AllValid(a, n) && AllValid(b, n)
    ensures AllValid(a + b, n)
    ensures Items(a + b, n) == Items(a, n) + Items(b, n)
  {
    hide SubItems, SubValid;
    forall j | 0 <= j < |a + b| ensures SubValid((a + b)[j], n) {
      if j < |a| { assert SubValid(a[j], n); } else { assert SubValid(b[j - |a|], n); }
    }
    if |a| == 0 {
      assert a + b == b;
    } else {
      TailValid(a, n, 1);
      ItemsConcat(a[1..], b, n);
      assert (a + b)[1..] == a[1..] + b;
    }
  }

  lemma ItemsOne(s: SubTableau, n: nat)
    requires SubValid(s, n)
    ensures AllValid([s], n) && Items([s], n) == SubItems(s, n)
  {
    assert [s][1..] == [];
    assert Items([s], n) == SubItems(s, n) + Items([s][1..], n);
  }

  lemma PartsValid(subs: seq<SubTableau>, n: nat, i: nat)
    requires AllValid(subs, n) && i <= |subs|
    ensures AllValid(subs[..i], n) && AllValid(subs[i..], n)
    ensures Items(subs, n) == Items(subs[..i], n) + Items(subs[i..], n)
  {
    hide SubItems, Reachable, AllNormal;
    forall j | 0 <= j < i ensures SubValid(subs[..i][j], n) {
      assert SubValid(subs[j], n);
    }
    TailValid(subs, n, i);
    ItemsConcat(subs[..i], subs[i..], n);
    assert subs[..i] + subs[i..] == subs;
  }

  /** The program around sub-tableau i. */
  lemma Around(subs: seq<SubTableau>, n: nat, i: nat)
    requires AllValid(subs, n) && i < |subs|
    ensures AllValid(subs[..i], n) && AllValid(subs[i + 1..], n) && SubValid(subs[i], n)
    ensures AllValid(subs[..i + 1], n) && Items(subs[..i + 1], n) == Items(subs[..i], n) + SubItems(subs[i], n)
    ensures AllValid(subs[i..], n) && Items(subs[i..], n) == SubItems(subs[i], n) + Items(subs[i + 1..], n)
  {
    PartsValid(subs, n, i);
    PartsValid(subs, n, i + 1);
    assert SubValid(subs[i], n);
    ItemsOne(subs[i], n);
    ItemsConcat(subs[..i], [subs[i]], n);
    ItemsConcat([subs[i]], subs[i + 1..], n);
    assert subs[..i + 1] == subs[..i] + [subs[i]];
    assert subs[i..] == [subs[i]] + subs[i + 1..];
  }

  // ---------- appending a gate ----------

  /** The gate conjugates the rotations at the end and is taken into the last Clifford. */
  function Appended(subs: seq<SubTableau>, op: Op): (r: seq<SubTableau>)
    ensures |r| == |subs|
  {
    if |subs| == 0 then []
    else
      var k := |subs| - 1;
      match subs[k]
      case Clifford(rows) => subs[..k] + [Clifford(ConjEach(op, rows))]
      case Rotations(rs) => Appended(subs[..k], op) + [Rotations(ConjRotations([op], rs))]
  }

  /** The number of rotations of a tableau. */
  function RotationCount(subs: seq<SubTableau>): nat {
    if |subs| == 0 then 0 else RotationCount(subs[..|subs| - 1]) + SubCount(subs[|subs| - 1])
  }

  function SubCount(sub: SubTableau): nat { if sub.Rotations? then |sub.rs| else 0 }

  lemma CountSnoc(subs: seq<SubTableau>, sub: SubTableau)
    ensures RotationCount(subs + [sub]) == RotationCount(subs) + SubCount(sub)
  {
    assert (subs + [sub])[..|subs|] == subs;
  }

  /** Pushing a gate back changes rotations, not their number. */
  lemma {:induction false} AppendedCount(subs: seq<SubTableau>, op: Op)
    ensures RotationCount(Appended(subs, op)) == RotationCount(subs)
  {
    if |subs| > 0 {
      var k := |subs| - 1;
      if subs[k].Clifford? {
        CountSnoc(subs[..k], Clifford(ConjEach(op, subs[k].rows)));
      } else {
        AppendedCount(subs[..k], op);
        CountSnoc(Appended(subs[..k], op), Rotations(ConjRotations([op], subs[k].rs)));
      }
    }
  }

  lemma AppendedSnoc(init: seq<SubTableau>, s: SubTableau, op: Op)
    ensures s.Clifford? ==> Appended(init + [s], op) == init + [Clifford(ConjEach(op, s.rows))]
    ensures s.Rotations? ==> Appended(init + [s], op) == Appended(init, op) + [Rotations(ConjRotations([op], s.rs))]
  {
    assert (init + [s])[..|init|] == init;
  }

  /** The sub-tableaux from i on are done, those before are as they were. */
  predicate Appending(was: seq<SubTableau>, subs: seq<SubTableau>, op: Op, i: nat) {
    && i <= |subs| == |was| && subs[..i] == was[..i]
    && Appended(was, op) == Appended(was[..i], op) + subs[i..]
  }

  lemma AppendingEnds(was: seq<SubTableau>, op: Op)
    ensures Appending(was, was, op, |was|)
  {
    assert was[..|was|] == was;
  }

  lemma AppendingStep(was: seq<SubTableau>, subs: seq<SubTableau>, op: Op, i: nat)
    requires Appending(was, subs, op, i + 1)
    ensures i < |subs| == |was| && subs[i] == was[i]
    ensures subs[i].Clifford? ==> Appended(was, op) == subs[i := Clifford(ConjEach(op, subs[i].rows))]
    ensures subs[i].Rotations? ==> Appending(was, subs[i := Rotations(ConjRotations([op], subs[i].rs))], op, i)
  {
    hide ConjEach, ConjRotations;
    assert was[..i + 1][i] == subs[..i + 1][i];
    var init, s := was[..i], was[i];
    assert was[..i + 1] == init + [s] && subs[..i] == subs[..i + 1][..i] == init;
    AppendedSnoc(init, s, op);
    if s.Clifford? {
      var t := Clifford(ConjEach(op, s.rows));
      assert subs[i := t] == init + [t] + subs[i + 1..];
    } else {
      var t := Rotations(ConjRotations([op], s.rs));
      assert subs[i := t][i..] == [t] + subs[i + 1..];
    }
  }

  lemma AppendingDone(was: seq<SubTableau>, subs: seq<SubTableau>, op: Op)
    requires Appending(was, subs, op, 0)
    ensures subs == Appended(was, op)
  {
    assert [] + subs[0..] == subs;
  }

  lemma ValidAt(subs: seq<SubTableau>, n: nat, i: nat)
    requires AllValid(subs, n) && i < |subs|
    ensures SubValid(subs[i], n) && (subs[i].Clifford? ==> Shaped(subs[i].rows, n))
  {
    assert SubValid(subs[i], n);
    if subs[i].Clifford? { ReachableIsSymplectic(n, subs[i].rows); }
  }

  lemma ItemsSnoc(init: seq<SubTableau>, s: SubTableau, n: nat)
    requires AllValid(init, n) && SubValid(s, n)
    ensures AllValid(init + [s], n) && Items(init + [s], n) == Items(init, n) + SubItems(s, n)
  {
    ItemsOne(s, n);
    ItemsConcat(init, [s], n);
  }

  lemma KindsSnoc(a: seq<SubTableau>, b: seq<SubTableau>, s: SubTableau, t: SubTableau)
    requires SameKinds(a, b) && s.Rotations? == t.Rotations?
    ensures SameKinds(a + [s], b + [t])
  {
  }

  lemma CliffordSnoc(init: seq<SubTableau>, s: SubTableau)
    ensures HasClifford(init + [s]) <==> HasClifford(init) || s.Clifford?
  {
    assert (init + [s])[|init|] == s;
    assert forall i :: 0 <= i < |init| ==> (init + [s])[i] == init[i];
  }

  /** A Clifford takes the gate in. */
  lemma CliffordTakes(n: nat, rows: seq<Pauli>, op: Op)
    requires Reachable(n, rows) && op.Fits(n)
    ensures Reachable(n, ConjEach(op, rows))
    ensures Equivalent(n, SubItems(Clifford(rows), n) + [Gate(op)], SubItems(Clifford(ConjEach(op, rows)), n))
  {
    var c := CircuitOf(n, rows);
    ConjRowsSnoc(c, op, Identity(n));
    assert AllFit(c + [op], n) && TableauOf(n, c + [op]) == ConjEach(op, rows);
    SameTableauSameMeaning(n, c + [op], CircuitOf(n, ConjEach(op, rows)));
    GatesConcat(c, [op]);
    assert Gates([op]) == [Gate(op)];
  }

  lemma AppendToClifford(init: seq<SubTableau>, rows: seq<Pauli>, n: nat, op: Op)
    requires AllValid(init, n) && Reachable(n, rows) && op.Fits(n)
    ensures
      var was, subs := init + [Clifford(rows)], init + [Clifford(ConjEach(op, rows))];
      && AllValid(was, n) && AllValid(subs, n) && SameKinds(subs, was) && HasClifford(was) && HasClifford(subs)
      && Equivalent(n, Items(was, n) + [Gate(op)], Items(subs, n))
  {
    hide Reachable, Equivalent, Items, ConjEach;
    var s, t := Clifford(rows), Clifford(ConjEach(op, rows));
    CliffordTakes(n, rows, op);
    ItemsSnoc(init, s, n);
    ItemsSnoc(init, t, n);
    KindsSnoc(init, init, t, s);
    CliffordSnoc(init, s);
    CliffordSnoc(init, t);
    EquivalentAfter(n, Items(init, n), SubItems(s, n) + [Gate(op)], SubItems(t, n));
    assert Items(init, n) + (SubItems(s, n) + [Gate(op)]) == Items(init + [s], n) + [Gate(op)];
  }

  /** The gate passes a list of rotations at the end; what it does to the rest is done to the whole. */
  lemma AppendToRotations(init: seq<SubTableau>, done: seq<SubTableau>, front: seq<Item>, rs: seq<Rotation>, n: nat, op: Op)
    requires AllValid(init, n) && AllValid(done, n) && AllNormal(rs, n) && op.Fits(n)
    requires Equivalent(n, Items(init, n) + [Gate(op)], front + Items(done, n))
    ensures AllNormal(ConjRotations([op], rs), n)
    ensures
      var was, subs := init + [Rotations(rs)], done + [Rotations(ConjRotations([op], rs))];
      AllValid(was, n) && AllValid(subs, n) && Equivalent(n, Items(was, n) + [Gate(op)], front + Items(subs, n))
  {
    hide Equivalent, Items, ConjRotations, AllNormal;
    var moved := ConjRotations([op], rs);
    var x, r, m := Items(init, n), Rots(rs), Rots(moved);
    PushedNormal(n, [op], rs);
    ItemsSnoc(init, Rotations(rs), n);
    ItemsSnoc(done, Rotations(moved), n);
    PushRotations(n, rs, [op]);
    assert Gates([op]) == [Gate(op)];
    EquivalentAfter(n, x, r + [Gate(op)], [Gate(op)] + m);
    EquivalentBefore(n, x + [Gate(op)], front + Items(done, n), m);
    assert x + (r + [Gate(op)]) == x + r + [Gate(op)];
    assert x + ([Gate(op)] + m) == x + [Gate(op)] + m;
    assert front + Items(done, n) + m == front + (Items(done, n) + m);
    EquivalentTransitive(n, x + r + [Gate(op)], x + [Gate(op)] + m, front + (Items(done, n) + m));
  }

  /** With a Clifford the gate is appended; without one it ends up in front of the conjugated program. */
  lemma {:induction false} AppendedMeaning(subs: seq<SubTableau>, n: nat, op: Op)
    requires AllValid(subs, n) && op.Fits(n)
    ensures AllValid(Appended(subs, op), n) && SameKinds(Appended(subs, op), subs)
    ensures HasClifford(Appended(subs, op)) <==> HasClifford(subs)
    ensures Equivalent(n, Items(subs, n) + [Gate(op)], (if HasClifford(subs) then [] else [Gate(op)]) + Items(Appended(subs, op), n))
  {
    hide Equivalent, Reachable, AllNormal, ConjRotations, ConjEach;
    if |subs| == 0 {
      assert !HasClifford(subs) && Appended(subs, op) == [] && Items(subs, n) == [];
      assert [] + [Gate(op)] == [Gate(op)] == [Gate(op)] + [];
      EquivalentReflexive(n, [Gate(op)]);
    } else {
      var k := |subs| - 1;
      var init, s := subs[..k], subs[k];
      assert subs == init + [s];
      PartsValid(subs, n, k);
      ValidAt(subs, n, k);
      AppendedSnoc(init, s, op);
      CliffordSnoc(init, s);
      if s.Clifford? {
        AppendToClifford(init, s.rows, n, op);
        assert [] + Items(Appended(subs, op), n) == Items(Appended(subs, op), n);
      } else {
        AppendedMeaning(init, n, op);
        var t := Rotations(ConjRotations([op], s.rs));
        AppendToRotations(init, Appended(init, op), if HasClifford(init) then [] else [Gate(op)], s.rs, n, op);
        KindsSnoc(Appended(init, op), init, t, s);
        CliffordSnoc(Appended(init, op), t);
      }
    }
  }

  // ---------- a gate in front of the rotations is not a gate at the end ----------

  /** A product that the inverse of the gate takes to a different axis. */
  function Moving(op: Op, n: nat): Pauli
    requires op.Basic() && op.Fits(n)
  {
    match op
    case H(q) => Pauli(ZLetters(n, q), false)
    case S(q) => Pauli(XLetters(n, q), false)
    case CX(c, t) => Pauli(ZLetters(n, t), false)
  }

  lemma GateMoves(op: Op, n: nat)
    requires op.Basic() && op.Fits(n)
    ensures Conj(AdjointOp(op), Moving(op, n)).ls != Moving(op, n).ls
  {
    match op
    case H(q) => assert Conj(AdjointOp(op), Moving(op, n)).ls[q] == LX;
    case S(q) => assert Conj(AdjointOp(op), Moving(op, n)).ls[q] == LY;
    case CX(c, t) => assert Conj(AdjointOp(op), Moving(op, n)).ls[c] == LZ;
  }

  lemma GateIsNotNothing(k: Trig, n: nat, op: Op)
    requires Lawful(k) && op.Basic() && op.Fits(n)
    ensures !Equivalent(n, [Gate(op)], [])
  {
    var l := Moving(op, n);
    var f := Indicator(l);
    IndicatorOdd(l);
    GateMoves(op, n);
    ExpectOne(k, Gate(op), f, l);
    assert Expect(k, [], f, l) == 1.0;
    assert !Agree(k, [Gate(op)], [], f, l);
  }

  /** A program followed by its adjoint can be cancelled. */
  lemma CancelRight(n: nat, a: seq<Item>, b: seq<Item>, r: seq<Item>, inv: seq<Item>)
    requires Equivalent(n, a + r, b + r) && Equivalent(n, r + inv, [])
    ensures Equivalent(n, a, b)
  {
    EquivalentBefore(n, a + r, b + r, inv);
    EquivalentAfter(n, a, r + inv, []);
    EquivalentAfter(n, b, r + inv, []);
    assert a + r + inv == a + (r + inv) && b + r + inv == b + (r + inv);
    assert a + [] == a && b + [] == b;
    EquivalentSymmetric(n, a + (r + inv), a);
    EquivalentTransitive(n, a, a + r + inv, b + r + inv);
    EquivalentTransitive(n, a, b + r + inv, b);
  }

  /** Without a Clifford the program is one list of rotations. */
  lemma {:induction false} OnlyRotations(subs: seq<SubTableau>, n: nat)
    requires AllValid(subs, n) && !HasClifford(subs)
    ensures AllNormal(JoinRotations(subs), n) && Items(subs, n) == Rots(JoinRotations(subs))
  {
    hide AllNormal;
    if |subs| == 0 {
      NoneNormal(n);
    } else {
      TailValid(subs, n, 1);
      assert SubValid(subs[0], n);
      assert !HasClifford(subs[1..]);
      OnlyRotations(subs[1..], n);
      RotsConcat(subs[0].rs, JoinRotations(subs[1..]));
      NormalConcat(subs[0].rs, JoinRotations(subs[1..]), n);
    }
  }

  lemma NoneNormal(n: nat)
    ensures AllNormal([], n) && Rots([]) == []
  {
  }

  lemma NormalConcat(a: seq<Rotation>, b: seq<Rotation>, n: nat)
    requires AllNormal(a, n) && AllNormal(b, n)
    ensures AllNormal(a + b, n)
  {
  }

  /**
   An appended gate has its meaning exactly when some sub-tableau is a Clifford: a
   tableau of rotations alone loses the gate.
   */
  lemma GateKeptIffClifford(k: Trig, n: nat, subs: seq<SubTableau>, op: Op)
    requires Lawful(k) && AllValid(subs, n) && op.Basic() && op.Fits(n)
    ensures AllValid(Appended(subs, op), n)
    ensures Equivalent(n, Items(subs, n) + [Gate(op)], Items(Appended(subs, op), n)) <==> HasClifford(subs)
  {
    hide Equivalent, Lawful;
    AppendedMeaning(subs, n, op);
    var before, after := Items(subs, n) + [Gate(op)], Items(Appended(subs, op), n);
    assert [] + after == after;
    if !HasClifford(subs) && Equivalent(n, before, after) {
      EquivalentSymmetric(n, before, [Gate(op)] + after);
      EquivalentTransitive(n, [Gate(op)] + after, before, after);
      OnlyRotations(Appended(subs, op), n);
      var rs := JoinRotations(Appended(subs, op));
      RotationsInverse(n, rs);
      CancelRight(n, [Gate(op)], [], after, Rots(AdjointRotations(rs)));
      GateIsNotNothing(k, n, op);
    }
  }

  /** A single rotation about Z: appending h turns it into one about X, and the h itself is lost. */
  lemma GateIsLost(k: Trig, angle: real)
    requires Lawful(k) && -1.0 < angle <= 1.0
    ensures
      var subs := [Rotations([Rotation(Pauli([LZ], false), angle)])];
      var after := Appended(subs, H(0));
      && after == [Rotations([Rotation(Pauli([LX], false), angle)])]
      && AllValid(subs, 1) && AllValid(after, 1)
      && !Equivalent(1, Items(subs, 1) + [Gate(H(0))], Items(after, 1))
  {
    var r := Rotation(Pauli([LZ], false), angle);
    var subs := [Rotations([r])];
    assert AllNormal([r], 1) && SubValid(subs[0], 1);
    ConjAllOne(H(0), r.p);
    assert ConjH(r.p, 0).ls == [LX];
    assert ConjRotations([H(0)], [r]) == [Rotation(Pauli([LX], false), angle)];
    assert subs[..0] == [];
    GateKeptIffClifford(k, 1, subs, H(0));
  }

  // ---------- adjoints ----------

  /** The inverse tableau: the adjoint of a synthesized circuit, applied to the identity. */
  method AdjointTableau(n: nat, rows: seq<Pauli>) returns (r: seq<Pauli>)
    requires Symplectic(rows, n)
    ensures forall ops :: AllFit(ops, n) && TableauOf(n, ops) == rows ==> r == TableauOf(n, Adjoint(ops))
    ensures Reachable(n, r) && Reachable(n, rows)
  {
    var ops := HOptSynthesis.Synthesize(n, rows, HOptSynthesis.Star);
    var t := new StabilizerTableau(n);
    t.ApplyAll(Adjoint(ops));
    r := t.rows;
    AdjointFits(ops, n);
    assert r == TableauOf(n, Adjoint(ops));
    forall other | AllFit(other, n) && TableauOf(n, other) == rows ensures r == TableauOf(n, Adjoint(other)) {
      forall i | 0 <= i < 2 * n ensures ConjAll(Adjoint(ops), Generator(n, i)) == ConjAll(Adjoint(other), Generator(n, i)) {
        AdjointDetermined(n, ops, other, Generator(n, i));
      }
    }
  }

  /** Appending the inverse tableau's circuit to the tableau gives the identity, and the other way round. */
  lemma AdjointTableauInverts(n: nat, ops: seq<Op>, back: seq<Op>)
    requires AllFit(ops, n) && AllFit(back, n) && TableauOf(n, back) == TableauOf(n, Adjoint(ops))
    ensures TableauOf(n, ops + back) == Identity(n) && TableauOf(n, back + ops) == Identity(n)
  {
    AdjointFits(ops, n);
    forall i | 0 <= i < 2 * n
      ensures ConjAll(ops + back, Generator(n, i)) == Generator(n, i)
      ensures ConjAll(back + ops, Generator(n, i)) == Generator(n, i)
    {
      var g := Generator(n, i);
      ConjAllConcat(ops, back, g);
      ConjAllConcat(back, ops, g);
      TableauDetermines(n, back, Adjoint(ops), ConjAll(ops, g));
      TableauDetermines(n, back, Adjoint(ops), g);
      AdjointAllCancels(ops, g);
      AllAdjointCancels(ops, g);
    }
  }

  function AdjointRotations(rs: seq<Rotation>): (r: seq<Rotation>)
    ensures |r| == |rs|
    ensures forall i :: 0 <= i < |rs| ==> r[i] == rs[|rs| - 1 - i].(phase := Normalize(-rs[|rs| - 1 - i].phase))
  {
    seq(|rs|, i requires 0 <= i < |rs| => rs[|rs| - 1 - i].(phase := Normalize(-rs[|rs| - 1 - i].phase)))
  }

  /** The adjoint of one sub-tableau is its two-sided inverse. */
  method AdjointSub(s: SubTableau, n: nat) returns (r: SubTableau)
    requires SubValid(s, n)
    ensures SubValid(r, n)
    ensures Equivalent(n, SubItems(s, n) + SubItems(r, n), [])
    ensures Equivalent(n, SubItems(r, n) + SubItems(s, n), [])
  {
    if s.Clifford? {
      ReachableIsSymplectic(n, s.rows);
      var rows := AdjointTableau(n, s.rows);
      r := Clifford(rows);
      ghost var c, d := CircuitOf(n, s.rows), CircuitOf(n, rows);
      AdjointTableauInverts(n, c, d);
      ConjRowsNone(Identity(n));
      SameTableauSameMeaning(n, c + d, []);
      SameTableauSameMeaning(n, d + c, []);
      GatesConcat(c, d);
      GatesConcat(d, c);
      assert Gates([]) == [];
    } else {
      r := Rotations(AdjointRotations(s.rs));
      RotationsInverse(n, s.rs);
    }
  }

  lemma NormalizeCancels(a: real)
    requires -1.0 < a <= 1.0
    ensures Normalize(a + Normalize(-a)) == 0.0
  {
    var b := Normalize(-a);
    var m :| Turns(b, -a, m);
    assert Turns(0.0, a + b, -m);
    NormalizeUnique(a + b, 0.0, -m);
  }

  lemma FuseToNothing(n: nat, p: Pauli, a: real, b: real)
    requires |p.ls| == n && Normalize(a + b) == 0.0
    ensures Equivalent(n, [Rot(p, a), Rot(p, b)], [])
  {
    FuseRotations(n, p, a, b);
    NormalizeRotation(n, p, a + b);
    DropRotation(n, p, 0.0);
    EquivalentTransitive(n, [Rot(p, a), Rot(p, b)], [Rot(p, a + b)], [Rot(p, 0.0)]);
    EquivalentTransitive(n, [Rot(p, a), Rot(p, b)], [Rot(p, 0.0)], []);
  }

  lemma InversePair(n: nat, p: Pauli, a: real)
    requires |p.ls| == n && -1.0 < a <= 1.0
    ensures Equivalent(n, [Rot(p, a), Rot(p, Normalize(-a))], [])
    ensures Equivalent(n, [Rot(p, Normalize(-a)), Rot(p, a)], [])
  {
    NormalizeCancels(a);
    FuseToNothing(n, p, a, Normalize(-a));
    assert a + Normalize(-a) == Normalize(-a) + a;
    FuseToNothing(n, p, Normalize(-a), a);
  }

  /** Two programs with inverses: their sequence is inverted by the inverses in reverse order. */
  lemma InverseOfSequence(n: nat, a: seq<Item>, b: seq<Item>, ai: seq<Item>, bi: seq<Item>)
    requires Equivalent(n, a + ai, []) && Equivalent(n, b + bi, [])
    ensures Equivalent(n, a + b + (bi + ai), [])
  {
    EquivalentWithin(n, a, b + bi, [], ai);
    assert a + (b + bi) + ai == a + b + (bi + ai);
    assert a + [] + ai == a + ai;
    EquivalentTransitive(n, a + b + (bi + ai), a + ai, []);
  }

  lemma {:induction false} RotationsInverse(n: nat, rs: seq<Rotation>)
    requires AllNormal(rs, n)
    ensures AllNormal(AdjointRotations(rs), n)
    ensures Equivalent(n, Rots(rs) + Rots(AdjointRotations(rs)), [])
    ensures Equivalent(n, Rots(AdjointRotations(rs)) + Rots(rs), [])
  {
    hide Equivalent, Normalize;
    if |rs| == 0 {
      assert Rots(rs) + Rots(AdjointRotations(rs)) == [] == Rots(AdjointRotations(rs)) + Rots(rs);
      EquivalentReflexive(n, []);
    } else {
      var k := |rs| - 1;
      var init, last := rs[..k], rs[k];
      var back := last.(phase := Normalize(-last.phase));
      var A, Ai := Rots(init), Rots(AdjointRotations(init));
      RotationsInverse(n, init);
      InversePair(n, last.p, last.phase);
      assert [Item1(last)] + [Item1(back)] == [Item1(last), Item1(back)];
      assert [Item1(back)] + [Item1(last)] == [Item1(back), Item1(last)];
      InverseOfSequence(n, A, [Item1(last)], Ai, [Item1(back)]);
      InverseOfSequence(n, [Item1(back)], Ai, [Item1(last)], A);
      assert AdjointRotations(rs) == [back] + AdjointRotations(init);
      assert Rots(rs) == A + [Item1(last)];
      assert Rots(AdjointRotations(rs)) == [Item1(back)] + Ai;
    }
  }

  lemma AdjointStep(a: seq<SubTableau>, result: seq<SubTableau>, s: SubTableau, inv: SubTableau, n: nat)
    requires AllValid(a, n) && AllValid(result, n) && SubValid(s, n) && SubValid(inv, n)
    requires Equivalent(n, Items(a, n) + Items(result, n), []) && Equivalent(n, Items(result, n) + Items(a, n), [])
    requires Equivalent(n, SubItems(s, n) + SubItems(inv, n), []) && Equivalent(n, SubItems(inv, n) + SubItems(s, n), [])
    ensures AllValid(a + [s], n) && AllValid([inv] + result, n)
    ensures Equivalent(n, Items(a + [s], n) + Items([inv] + result, n), [])
    ensures Equivalent(n, Items([inv] + result, n) + Items(a + [s], n), [])
  {
    ItemsOne(s, n);
    ItemsOne(inv, n);
    ItemsConcat(a, [s], n);
    ItemsConcat([inv], result, n);
    InverseOfSequence(n, Items(a, n), SubItems(s, n), Items(result, n), SubItems(inv, n));
    InverseOfSequence(n, SubItems(inv, n), Items(result, n), SubItems(s, n), Items(a, n));
  }

  /** The sub-tableaux that are lists of rotations. */
  method WithoutCliffords(subs: seq<SubTableau>) returns (lists: seq<SubTableau>)
    ensures forall j :: 0 <= j < |lists| ==> lists[j].Rotations?
    ensures JoinRotations(lists) == JoinRotations(subs)
    ensures |lists| > 0 <==> HasRotations(subs)
  {
    lists := [];
    for i := 0 to |subs|
      invariant forall j :: 0 <= j < |lists| ==> lists[j].Rotations?
      invariant JoinRotations(lists) == JoinRotations(subs[..i])
      invariant |lists| > 0 <==> HasRotations(subs[..i])
    {
      assert subs[..i + 1] == subs[..i] + [subs[i]];
      JoinSnoc(subs[..i], subs[i]);
      if subs[i].Rotations? {
        JoinSnoc(lists, subs[i]);
        lists := lists + [subs[i]];
        assert subs[..i + 1][i].Rotations?;
      } else if HasRotations(subs[..i]) {
        var j :| 0 <= j < i && subs[..i][j].Rotations?;
        assert subs[..i + 1][j].Rotations?;
      }
    }
    assert subs[..|subs|] == subs;
  }

  lemma {:induction false} JoinSnoc(subs: seq<SubTableau>, s: SubTableau)
    ensures JoinRotations(subs + [s]) == JoinRotations(subs) + if s.Rotations? then s.rs else []
  {
    if |subs| == 0 {
      assert subs + [s] == [s] && [s][1..] == [];
    } else {
      assert (subs + [s])[1..] == subs[1..] + [s];
      JoinSnoc(subs[1..], s);
    }
  }

  lemma IdentityInFront(subs: seq<SubTableau>, n: nat)
    requires AllValid(subs, n)
    ensures AllValid([Clifford(Identity(n))] + subs, n)
    ensures TableauOf(n, TotalClifford([Clifford(Identity(n))] + subs, n)) == TableauOf(n, TotalClifford(subs, n))
    ensures PushedRotations([Clifford(Identity(n))] + subs, n) == PushedRotations(subs, n)
    ensures HasRotations([Clifford(Identity(n))] + subs) == HasRotations(subs)
  {
    var longer := [Clifford(Identity(n))] + subs;
    IdentityReachable(n);
    assert forall j :: 0 <= j < |subs| ==> longer[j + 1] == subs[j];
    forall j | 0 <= j < |longer| ensures SubValid(longer[j], n) {
      if j > 0 { assert SubValid(subs[j - 1], n); }
    }
    assert longer[1..] == subs;
    TableauConcat(n, CircuitOf(n, Identity(n)), TotalClifford(subs, n));
  }

  /** The two tableaux have the same total Clifford and the same pushed rotations. */
  ghost predicate SameCollapse(a: seq<SubTableau>, b: seq<SubTableau>, n: nat) {
    && AllValid(a, n) && AllValid(b, n)
    && TableauOf(n, TotalClifford(a, n)) == TableauOf(n, TotalClifford(b, n))
    && PushedRotations(a, n) == PushedRotations(b, n)
    && HasRotations(a) == HasRotations(b)
  }

  lemma CollapseIsWhole(a: seq<SubTableau>, b: seq<SubTableau>, n: nat)
    requires AllValid(a, n)
    requires b == a || b == [Clifford(Identity(n))] + a
    ensures SameCollapse(a, b, n)
  {
    if b != a { IdentityInFront(a, n); }
  }

  lemma OnlyClifford(subs: seq<SubTableau>, n: nat)
    requires AllValid(subs, n) && |subs| == 1 && subs[0].Clifford?
    ensures subs == Collapsed(TableauOf(n, TotalClifford(subs, n)), PushedRotations(subs, n), false)
    ensures !HasRotations(subs)
  {
    assert SubValid(subs[0], n);
    assert TotalClifford(subs, n) == CircuitOf(n, subs[0].rows) + [];
    assert CircuitOf(n, subs[0].rows) + [] == CircuitOf(n, subs[0].rows);
  }

  /** The program of a Clifford and a list of rotations. */
  lemma PairItems(subs: seq<SubTableau>, n: nat)
    requires AllValid(subs, n) && |subs| == 2 && subs[0].Clifford? && subs[1].Rotations?
    requires SubValid(subs[0], n)
    ensures Items(subs, n) == Gates(CircuitOf(n, subs[0].rows)) + Rots(subs[1].rs)
  {
    TailValid(subs, n, 1);
    TailValid(subs, n, 2);
    assert subs[1..][0] == subs[1] && subs[1..][1..] == [];
    assert Items(subs[1..], n) == Rots(subs[1].rs) + [];
  }

  lemma CollapsedIsEquivalent(was: seq<SubTableau>, subs: seq<SubTableau>, n: nat)
    requires AllValid(was, n) && |was| > 0
    requires subs == Collapsed(TableauOf(n, TotalClifford(was, n)), PushedRotations(was, n), HasRotations(was))
    ensures AllValid(subs, n)
    ensures Equivalent(n, Items(was, n), Items(subs, n))
  {
    var c, p := TotalClifford(was, n), PushedRotations(was, n);
    var rows := TableauOf(n, c);
    assert Reachable(n, rows);
    forall j | 0 <= j < |subs| ensures SubValid(subs[j], n) {
    }
    CollapsedMeaning(was, n);
    SameTableauSameMeaning(n, c, CircuitOf(n, rows));
    EquivalentBefore(n, Gates(c), Gates(CircuitOf(n, rows)), Rots(p));
    if HasRotations(was) {
      PairItems(subs, n);
    } else {
      NoPushed(was, n);
      assert Items(subs, n) == Gates(CircuitOf(n, rows)) + [] == Gates(CircuitOf(n, rows)) + Rots(p);
    }
    EquivalentTransitive(n, Items(was, n), Gates(c) + Rots(p), Items(subs, n));
  }

  lemma {:induction false} NoPushed(subs: seq<SubTableau>, n: nat)
    requires AllValid(subs, n) && !HasRotations(subs)
    ensures PushedRotations(subs, n) == []
  {
    if |subs| > 0 {
      TailValid(subs, n, 1);
      forall j | 0 <= j < |subs[1..]| ensures subs[1..][j].Clifford? {
        assert subs[j + 1].Clifford?;
      }
      NoPushed(subs[1..], n);
    }
  }

  lemma IdentityReachable(n: nat)
    ensures Reachable(n, Identity(n))
    ensures SubValid(Clifford(Identity(n)), n)
  {
    ConjRowsNone(Identity(n));
    assert AllFit([], n) && TableauOf(n, []) == Identity(n);
  }
}
