/**
 The passes over whole tableaux: removing identities, and making all rotations proper.
 */
module TableauPasses {
  import opened PauliAlgebra
  import opened CliffordOps
  import opened StabilizerTableaux
  import opened ProgramSemantics
  import opened PauliRotations
  import opened TableauOptimization
  import opened Tableaux
  import opened TableauProperization
  import HOptSynthesis

  // ---------- replacing sub-tableaux ----------

  /** Sub-tableau i may be replaced by one of the same meaning. */
  lemma Replaced(subs: seq<SubTableau>, n: nat, i: nat, s: SubTableau)
    requires AllValid(subs, n) && i < |subs| && SubValid(s, n) && SubValid(subs[i], n)
    requires Equivalent(n, SubItems(subs[i], n), SubItems(s, n))
    ensures AllValid(subs[i := s], n) && Equivalent(n, Items(subs, n), Items(subs[i := s], n))
  {
    hide Equivalent, Items, SubItems;
    var subs' := subs[i := s];
    assert AllValid(subs', n);
    Around(subs, n, i);
    Around(subs', n, i);
    PartsValid(subs, n, i);
    PartsValid(subs', n, i);
    assert subs'[..i] == subs[..i] && subs'[i + 1..] == subs[i + 1..];
    var a, b := Items(subs[..i], n), Items(subs[i + 1..], n);
    EquivalentWithin(n, a, SubItems(subs[i], n), SubItems(s, n), b);
    assert a + SubItems(subs[i], n) + b == a + (SubItems(subs[i], n) + b);
    assert a + SubItems(s, n) + b == a + (SubItems(s, n) + b);
  }

  /** Two neighbours may be replaced by two that together have the same meaning. */
  lemma ReplacedTwo(subs: seq<SubTableau>, n: nat, i: nat, s: SubTableau, t: SubTableau)
    requires AllValid(subs, n) && i + 1 < |subs| && SubValid(s, n) && SubValid(t, n) && SubValid(subs[i], n) && SubValid(subs[i + 1], n)
    requires Equivalent(n, SubItems(subs[i], n) + SubItems(subs[i + 1], n), SubItems(s, n) + SubItems(t, n))
    ensures AllValid(subs[i := s][i + 1 := t], n) && Equivalent(n, Items(subs, n), Items(subs[i := s][i + 1 := t], n))
  {
    hide Equivalent, Items, SubItems;
    var subs' := subs[i := s][i + 1 := t];
    assert AllValid(subs', n);
    AroundTwo(subs, n, i);
    AroundTwo(subs', n, i);
    assert subs'[..i] == subs[..i] && subs'[i + 2..] == subs[i + 2..];
    EquivalentWithin(n, Items(subs[..i], n), SubItems(subs[i], n) + SubItems(subs[i + 1], n), SubItems(s, n) + SubItems(t, n), Items(subs[i + 2..], n));
  }

  lemma AroundTwo(subs: seq<SubTableau>, n: nat, i: nat)
    requires AllValid(subs, n) && i + 1 < |subs|
    ensures AllValid(subs[..i], n) && AllValid(subs[i + 2..], n) && SubValid(subs[i], n) && SubValid(subs[i + 1], n)
    ensures Items(subs, n) == Items(subs[..i], n) + (SubItems(subs[i], n) + SubItems(subs[i + 1], n)) + Items(subs[i + 2..], n)
  {
    hide Items, SubItems;
    Around(subs, n, i);
    Around(subs, n, i + 1);
    PartsValid(subs, n, i);
  }

  // ---------- erasing ----------

  /** An identity Clifford or an empty list. */
  predicate Idle(s: SubTableau, n: nat) {
    match s
    case Clifford(rows) => rows == Identity(n)
    case Rotations(rs) => rs == []
  }

  function WithoutIdle(subs: seq<SubTableau>, n: nat): (r: seq<SubTableau>)
    ensures forall i :: 0 <= i < |r| ==> !Idle(r[i], n)
  {
    if |subs| == 0 then []
    else
      var init := WithoutIdle(subs[..|subs| - 1], n);
      if Idle(subs[|subs| - 1], n) then init else init + [subs[|subs| - 1]]
  }

  lemma IdleMeansNothing(s: SubTableau, n: nat)
    requires SubValid(s, n) && Idle(s, n)
    ensures Equivalent(n, SubItems(s, n), [])
  {
    if s.Clifford? {
      ConjRowsNone(Identity(n));
      SameTableauSameMeaning(n, CircuitOf(n, s.rows), []);
      assert Gates([]) == [];
    } else {
      assert Rots([]) == [];
      EquivalentReflexive(n, []);
    }
  }

  lemma {:induction false} WithoutIdleMeaning(subs: seq<SubTableau>, n: nat)
    requires AllValid(subs, n)
    ensures AllValid(WithoutIdle(subs, n), n)
    ensures Equivalent(n, Items(subs, n), Items(WithoutIdle(subs, n), n))
    ensures JoinRotations(WithoutIdle(subs, n)) == JoinRotations(subs)
  {
    hide Equivalent, Items, SubItems, SubValid;
    if |subs| == 0 {
      EquivalentReflexive(n, Items(subs, n));
    } else {
      var k := |subs| - 1;
      var init, s := subs[..k], subs[k];
      PartsValid(subs, n, k);
      ValidAt(subs, n, k);
      assert subs == init + [s];
      WithoutIdleMeaning(init, n);
      ItemsSnoc(init, s, n);
      JoinSnoc(init, s);
      EquivalentBefore(n, Items(init, n), Items(WithoutIdle(init, n), n), SubItems(s, n));
      if Idle(s, n) {
        IdleMeansNothing(s, n);
        var kept := Items(WithoutIdle(init, n), n);
        EquivalentAfter(n, kept, SubItems(s, n), []);
        assert kept + [] == kept;
        EquivalentTransitive(n, Items(subs, n), kept + SubItems(s, n), kept);
      } else {
        ItemsSnoc(WithoutIdle(init, n), s, n);
        JoinSnoc(WithoutIdle(init, n), s);
      }
    }
  }

  /** Erases identity Cliffords and empty lists. */
  method EraseIdle(subs: seq<SubTableau>, n: nat) returns (r: seq<SubTableau>)
    ensures r == WithoutIdle(subs, n)
  {
    r := [];
    for i := 0 to |subs|
      invariant r == WithoutIdle(subs[..i], n)
    {
      assert subs[..i + 1][..i] == subs[..i];
      if !Idle(subs[i], n) {
        r := r + [subs[i]];
      }
    }
    assert subs[..|subs|] == subs;
  }

  // ---------- removing identities ----------

  lemma {:induction false} KeptConcat(a: seq<Rotation>, b: seq<Rotation>)
    ensures Kept(a + b) == Kept(a) + Kept(b)
  {
    if |b| == 0 {
      assert a + b == a;
    } else {
      assert (a + b)[..|a + b| - 1] == a + b[..|b| - 1];
      KeptConcat(a, b[..|b| - 1]);
    }
  }

  /** Lists cleaned up to the i-th sub-tableau. */
  ghost predicate Cleaned(was: seq<SubTableau>, subs: seq<SubTableau>, n: nat, i: nat) {
    && i <= |was| == |subs| && AllValid(was, n) && AllValid(subs, n) && subs[i..] == was[i..]
    && Equivalent(n, Items(was, n), Items(subs, n))
    && JoinRotations(subs[..i]) == Kept(JoinRotations(was[..i]))
  }

  lemma CleanedNext(was: seq<SubTableau>, subs: seq<SubTableau>, n: nat, i: nat, s: SubTableau)
    requires Cleaned(was, subs, n, i) && i < |was| && SubValid(subs[i], n)
    requires s == if subs[i].Rotations? then Rotations(Kept(subs[i].rs)) else subs[i]
    ensures SubValid(s, n) && Cleaned(was, subs[i := s], n, i + 1)
  {
    hide Equivalent, Items;
    var r := subs[i];
    if r.Rotations? {
      KeptMeaning(n, r.rs);
    } else {
      EquivalentReflexive(n, SubItems(r, n));
    }
    Replaced(subs, n, i, s);
    EquivalentTransitive(n, Items(was, n), Items(subs, n), Items(subs[i := s], n));
    assert was[i] == was[i..][0] == subs[i..][0] == r;
    assert was[i + 1..] == was[i..][1..] && subs[i := s][i + 1..] == subs[i..][1..];
    assert was[..i + 1] == was[..i] + [r] && subs[i := s][..i + 1] == subs[..i] + [s];
    JoinSnoc(was[..i], r);
    JoinSnoc(subs[..i], s);
    var more := if r.Rotations? then r.rs else [];
    KeptConcat(JoinRotations(was[..i]), more);
    assert JoinRotations(subs[i := s][..i + 1]) == Kept(JoinRotations(was[..i])) + Kept(more);
  }

  /** The program of two neighbouring Cliffords is moved into the first one. */
  lemma CliffordsMerged(n: nat, a: seq<Pauli>, b: seq<Pauli>, rows: seq<Pauli>)
    requires Reachable(n, a) && Reachable(n, b) && AllFit(CircuitOf(n, a) + CircuitOf(n, b), n)
    requires rows == TableauOf(n, CircuitOf(n, a) + CircuitOf(n, b))
    ensures Reachable(n, rows) && SubValid(Clifford(rows), n) && SubValid(Clifford(Identity(n)), n)
    ensures Equivalent(n, Gates(CircuitOf(n, a)) + Gates(CircuitOf(n, b)),
                       SubItems(Clifford(rows), n) + SubItems(Clifford(Identity(n)), n))
  {
    hide Equivalent;
    var c, d := CircuitOf(n, a), CircuitOf(n, b);
    assert Reachable(n, rows);
    IdentityReachable(n);
    var e, none := Gates(CircuitOf(n, rows)), SubItems(Clifford(Identity(n)), n);
    SameTableauSameMeaning(n, c + d, CircuitOf(n, rows));
    GatesConcat(c, d);
    IdleMeansNothing(Clifford(Identity(n)), n);
    EquivalentSymmetric(n, none, []);
    EquivalentAfter(n, e, [], none);
    assert e + [] == e;
    EquivalentTransitive(n, Gates(c) + Gates(d), e, e + none);
  }

  /** Appends a Clifford to a Clifford: the second one is synthesized. */
  method ApplyClifford(n: nat, a: seq<Pauli>, b: seq<Pauli>) returns (rows: seq<Pauli>)
    requires Reachable(n, a) && Reachable(n, b)
    ensures AllFit(CircuitOf(n, a) + CircuitOf(n, b), n) && rows == TableauOf(n, CircuitOf(n, a) + CircuitOf(n, b))
  {
    hide ConjAll;
    ReachableIsSymplectic(n, a);
    ReachableIsSymplectic(n, b);
    var gates := HOptSynthesis.Synthesize(n, b, HOptSynthesis.Star);
    var st := new StabilizerTableau.Copy(n, a);
    st.ApplyAll(gates);
    ConjRowsSame(n, gates, CircuitOf(n, b), a);
    TableauConcat(n, CircuitOf(n, a), CircuitOf(n, b));
    rows := st.rows;
  }

  /** No list is empty. */
  predicate NoEmptyList(subs: seq<SubTableau>) { forall i :: 0 <= i < |subs| && subs[i].Rotations? ==> subs[i].rs != [] }

  ghost predicate SameProgram(was: seq<SubTableau>, subs: seq<SubTableau>, n: nat) {
    && AllValid(was, n) && AllValid(subs, n) && Equivalent(n, Items(was, n), Items(subs, n))
    && JoinRotations(subs) == JoinRotations(was) && NoEmptyList(subs)
  }

  lemma SameListsJoin(a: seq<SubTableau>, b: seq<SubTableau>)
    requires |a| == |b| && forall i :: 0 <= i < |a| ==> a[i] == b[i] || (a[i].Clifford? && b[i].Clifford?)
    ensures JoinRotations(a) == JoinRotations(b)
  {
    if |a| > 0 { SameListsJoin(a[1..], b[1..]); }
  }

  lemma MergedPair(was: seq<SubTableau>, subs: seq<SubTableau>, n: nat, i: nat, rows: seq<Pauli>)
    requires SameProgram(was, subs, n) && i + 1 < |subs| && subs[i].Clifford? && subs[i + 1].Clifford?
    requires Reachable(n, subs[i].rows) && Reachable(n, subs[i + 1].rows)
    requires AllFit(CircuitOf(n, subs[i].rows) + CircuitOf(n, subs[i + 1].rows), n)
    requires rows == TableauOf(n, CircuitOf(n, subs[i].rows) + CircuitOf(n, subs[i + 1].rows))
    ensures SameProgram(was, subs[i := Clifford(rows)][i + 1 := Clifford(Identity(n))], n)
  {
    hide Equivalent, Items, TableauOf;
    var subs' := subs[i := Clifford(rows)][i + 1 := Clifford(Identity(n))];
    CliffordsMerged(n, subs[i].rows, subs[i + 1].rows, rows);
    ReplacedTwo(subs, n, i, Clifford(rows), Clifford(Identity(n)));
    EquivalentTransitive(n, Items(was, n), Items(subs, n), Items(subs', n));
    SameListsJoin(subs, subs');
  }

  /**
   Removes trivial rotations, empty lists and identity Cliffords, and merges neighbouring Cliffords pair by pair.
   The rotations that are left are exactly those that are not trivial, in their order.
   */
  method RemoveIdentities(tableau: Tableau)
    requires tableau.Valid()
    modifies tableau
    ensures tableau.Valid() && Equivalent(tableau.n, Items(old(tableau.subs), tableau.n), Items(tableau.subs, tableau.n))
    ensures JoinRotations(tableau.subs) == Kept(JoinRotations(old(tableau.subs)))
    ensures forall i :: 0 <= i < |tableau.subs| ==> !Idle(tableau.subs[i], tableau.n)
  {
    hide Equivalent, Items, SubItems, JoinRotations, Reachable;
    ghost var n, was := tableau.n, tableau.subs;
    CleanLists(tableau);
    ghost var cleaned := tableau.subs;
    WithoutIdleMeaning(cleaned, n);
    tableau.subs := EraseIdle(tableau.subs, tableau.n);
    EquivalentTransitive(n, Items(was, n), Items(cleaned, n), Items(tableau.subs, n));
    MergeCliffords(tableau);
    ghost var merged := tableau.subs;
    EquivalentTransitive(n, Items(was, n), Items(WithoutIdle(cleaned, n), n), Items(merged, n));
    WithoutIdleMeaning(merged, n);
    tableau.subs := EraseIdle(tableau.subs, tableau.n);
    EquivalentTransitive(n, Items(was, n), Items(merged, n), Items(tableau.subs, n));
  }

  /** Removes trivial rotations from all lists. */
  method CleanLists(tableau: Tableau)
    requires tableau.Valid()
    modifies tableau
    ensures tableau.Valid() && Equivalent(tableau.n, Items(old(tableau.subs), tableau.n), Items(tableau.subs, tableau.n))
    ensures JoinRotations(tableau.subs) == Kept(JoinRotations(old(tableau.subs)))
  {
    hide Equivalent, Items, SubItems, JoinRotations, Kept;
    ghost var n, was := tableau.n, tableau.subs;
    CleanedNone(was, n);
    for i := 0 to |tableau.subs|
      invariant Cleaned(was, tableau.subs, n, i)
    {
      ghost var before := tableau.subs;
      ValidAt(before, n, i);
      if tableau.subs[i].Rotations? {
        var list := new RotationList(tableau.subs[i].rs);
        list.RemoveIdentities();
        tableau.subs := tableau.subs[i := Rotations(list.rs)];
      }
      CleanedNext(was, before, n, i, tableau.subs[i]);
      assert before[i := tableau.subs[i]] == tableau.subs;
    }
    assert was[..|was|] == was && tableau.subs[..|was|] == tableau.subs;
  }

  lemma CleanedNone(was: seq<SubTableau>, n: nat)
    requires AllValid(was, n)
    ensures Cleaned(was, was, n, 0)
  {
    assert was[..0] == [];
    EquivalentReflexive(n, Items(was, n));
  }

  /** Moves every Clifford into the one just before it, from the first pair to the last. */
  method MergeCliffords(tableau: Tableau)
    requires tableau.Valid() && NoEmptyList(tableau.subs)
    modifies tableau
    ensures SameProgram(old(tableau.subs), tableau.subs, tableau.n)
  {
    hide Equivalent, Items, SubItems, JoinRotations, Reachable, TableauOf, NoEmptyList;
    ghost var n, was := tableau.n, tableau.subs;
    EquivalentReflexive(n, Items(was, n));
    var i := 0;
    while i + 1 < |tableau.subs|
      invariant SameProgram(was, tableau.subs, n)
    {
      ghost var before := tableau.subs;
      if tableau.subs[i].Clifford? && tableau.subs[i + 1].Clifford? {
        ValidAt(before, n, i);
        ValidAt(before, n, i + 1);
        var rows := ApplyClifford(tableau.n, tableau.subs[i].rows, tableau.subs[i + 1].rows);
        MergedPair(was, before, n, i, rows);
        tableau.subs := tableau.subs[i := Clifford(rows)];
        tableau.subs := tableau.subs[i + 1 := Clifford(Identity(tableau.n))];
      }
      i := i + 1;
    }
  }

  // ---------- making all rotations proper ----------

  /** A Clifford comes first, and in front of every list. */
  predicate Alternating(subs: seq<SubTableau>) {
    forall i :: 0 <= i < |subs| && subs[i].Rotations? ==> i > 0 && subs[i - 1].Clifford?
  }

  /** Neighbours of one kind are joined: the program up to the i-th sub-tableau. */
  ghost predicate Joined(was: seq<SubTableau>, joined: seq<SubTableau>, n: nat, i: nat) {
    && 1 <= i <= |was| && AllValid(was, n) && AllValid(was[..i], n) && AllValid(joined, n) && |joined| > 0
    && Alternating(joined) && Equivalent(n, Items(was[..i], n), Items(joined, n))
    && JoinRotations(joined) == JoinRotations(was[..i])
  }

  /** Takes one more sub-tableau into the joined ones. */
  method JoinOne(n: nat, joined: seq<SubTableau>, s: SubTableau) returns (r: seq<SubTableau>)
    requires AllValid(joined, n) && SubValid(s, n) && |joined| > 0 && Alternating(joined)
    ensures AllValid(r, n) && |r| > 0 && Alternating(r)
    ensures Equivalent(n, Items(joined, n) + SubItems(s, n), Items(r, n))
    ensures JoinRotations(r) == JoinRotations(joined) + if s.Rotations? then s.rs else []
  {
    hide Equivalent, Items, SubItems, JoinRotations, Reachable, AllNormal, TableauOf;
    var k := |joined| - 1;
    ghost var init, last := joined[..k], joined[k];
    assert joined == init + [last];
    ValidAt(joined, n, k);
    PartsValid(joined, n, k);
    JoinSnoc(init, last);
    ItemsSnoc(init, last, n);
    if joined[k].Clifford? && s.Clifford? {
      var rows := ApplyClifford(n, joined[k].rows, s.rows);
      r := joined[..k] + [Clifford(rows)];
      CliffordsJoined(n, init, last.rows, s.rows, rows);
      JoinSnoc(init, Clifford(rows));
    } else if joined[k].Rotations? && s.Rotations? {
      r := joined[..k] + [Rotations(joined[k].rs + s.rs)];
      ListsJoined(n, init, last.rs, s.rs);
      JoinSnoc(init, Rotations(last.rs + s.rs));
      assert JoinRotations(init) + (last.rs + s.rs) == JoinRotations(init) + last.rs + s.rs;
    } else {
      r := joined + [s];
      ItemsSnoc(joined, s, n);
      JoinSnoc(joined, s);
      EquivalentReflexive(n, Items(r, n));
    }
  }

  lemma CliffordsJoined(n: nat, init: seq<SubTableau>, a: seq<Pauli>, b: seq<Pauli>, rows: seq<Pauli>)
    requires AllValid(init, n) && Reachable(n, a) && Reachable(n, b) && AllFit(CircuitOf(n, a) + CircuitOf(n, b), n)
    requires rows == TableauOf(n, CircuitOf(n, a) + CircuitOf(n, b))
    ensures SubValid(Clifford(a), n) && SubValid(Clifford(b), n) && AllValid(init + [Clifford(a)], n) && AllValid(init + [Clifford(rows)], n)
    ensures Equivalent(n, Items(init + [Clifford(a)], n) + SubItems(Clifford(b), n), Items(init + [Clifford(rows)], n))
  {
    hide Equivalent, Items;
    var c, d := CircuitOf(n, a), CircuitOf(n, b);
    assert Reachable(n, rows);
    assert SubValid(Clifford(a), n) && SubValid(Clifford(rows), n);
    ItemsSnoc(init, Clifford(a), n);
    ItemsSnoc(init, Clifford(rows), n);
    SameTableauSameMeaning(n, c + d, CircuitOf(n, rows));
    GatesConcat(c, d);
    EquivalentAfter(n, Items(init, n), Gates(c) + Gates(d), Gates(CircuitOf(n, rows)));
    assert Items(init, n) + (Gates(c) + Gates(d)) == Items(init, n) + Gates(c) + Gates(d);
  }

  lemma ListsJoined(n: nat, init: seq<SubTableau>, a: seq<Rotation>, b: seq<Rotation>)
    requires AllValid(init, n) && AllNormal(a, n) && AllNormal(b, n)
    ensures SubValid(Rotations(a), n) && SubValid(Rotations(b), n) && AllValid(init + [Rotations(a)], n) && AllValid(init + [Rotations(a + b)], n)
    ensures Equivalent(n, Items(init + [Rotations(a)], n) + SubItems(Rotations(b), n), Items(init + [Rotations(a + b)], n))
  {
    hide Equivalent, Items;
    NormalConcat(a, b, n);
    ItemsSnoc(init, Rotations(a), n);
    ItemsSnoc(init, Rotations(a + b), n);
    RotsConcat(a, b);
    assert Items(init, n) + (Rots(a) + Rots(b)) == Items(init, n) + Rots(a) + Rots(b);
    EquivalentReflexive(n, Items(init + [Rotations(a + b)], n));
  }

  lemma JoinedNext(was: seq<SubTableau>, joined: seq<SubTableau>, n: nat, i: nat, r: seq<SubTableau>)
    requires Joined(was, joined, n, i) && i < |was| && SubValid(was[i], n)
    requires AllValid(r, n) && |r| > 0 && Alternating(r) && Equivalent(n, Items(joined, n) + SubItems(was[i], n), Items(r, n))
    requires JoinRotations(r) == JoinRotations(joined) + if was[i].Rotations? then was[i].rs else []
    ensures Joined(was, r, n, i + 1)
  {
    hide Equivalent, Items, SubItems;
    assert was[..i + 1] == was[..i] + [was[i]];
    ItemsSnoc(was[..i], was[i], n);
    JoinSnoc(was[..i], was[i]);
    EquivalentBefore(n, Items(was[..i], n), Items(joined, n), SubItems(was[i], n));
    EquivalentTransitive(n, Items(was[..i + 1], n), Items(joined, n) + SubItems(was[i], n), Items(r, n));
  }

  /** Joins neighbours of one kind. */
  method JoinNeighbours(n: nat, subs: seq<SubTableau>) returns (joined: seq<SubTableau>)
    requires AllValid(subs, n) && |subs| > 0 && subs[0].Clifford?
    ensures AllValid(joined, n) && |joined| > 0 && Alternating(joined) && Equivalent(n, Items(subs, n), Items(joined, n))
    ensures JoinRotations(joined) == JoinRotations(subs)
  {
    hide Equivalent, Items, SubItems, JoinRotations, SubValid;
    joined := [subs[0]];
    ValidAt(subs, n, 0);
    assert subs[..1] == [subs[0]];
    EquivalentReflexive(n, Items([subs[0]], n)) by { ItemsOne(subs[0], n); }
    ItemsOne(subs[0], n);
    for i := 1 to |subs|
      invariant Joined(subs, joined, n, i)
    {
      ValidAt(subs, n, i);
      ghost var before := joined;
      joined := JoinOne(n, joined, subs[i]);
      JoinedNext(subs, before, n, i, joined);
    }
    assert subs[..|subs|] == subs;
  }

  predicate AllProper(rs: seq<Rotation>) { forall i :: 0 <= i < |rs| ==> Proper(rs[i].phase) }

  /** The lists in front of the i-th sub-tableau are proper, and no list has grown. */
  ghost predicate Properized(was: seq<SubTableau>, subs: seq<SubTableau>, n: nat, i: nat) {
    && 1 <= i <= |subs| == |was| && AllValid(was, n) && AllValid(subs, n) && Equivalent(n, Items(was, n), Items(subs, n))
    && Alternating(subs) && subs[i..] == was[i..]
    && AllProper(JoinRotations(subs[..i])) && |JoinRotations(subs[..i])| <= |JoinRotations(was[..i])|
  }

  /** The list behind a Clifford is made proper, and the Clifford takes the rest. */
  method ProperizePair(n: nat, rows: seq<Pauli>, rs: seq<Rotation>) returns (rows': seq<Pauli>, rs': seq<Rotation>)
    requires Reachable(n, rows) && AllNormal(rs, n)
    ensures Reachable(n, rows') && AllNormal(rs', n) && SubValid(Clifford(rows), n) && SubValid(Clifford(rows'), n)
    ensures SubValid(Rotations(rs), n) && SubValid(Rotations(rs'), n)
    ensures Equivalent(n, SubItems(Clifford(rows), n) + SubItems(Rotations(rs), n), SubItems(Clifford(rows'), n) + SubItems(Rotations(rs'), n))
    ensures AllProper(rs') && |rs'| <= |rs|
  {
    hide Equivalent;
    var clifford := new StabilizerTableau.Copy(n, rows);
    var list := new RotationList(rs);
    ghost var c := Properize(clifford, list, CircuitOf(n, rows));
    rows', rs' := clifford.rows, list.rs;
    assert Reachable(n, rows');
    SameTableauSameMeaning(n, c, CircuitOf(n, rows'));
    EquivalentBefore(n, Gates(c), Gates(CircuitOf(n, rows')), Rots(rs'));
    EquivalentTransitive(n, Gates(CircuitOf(n, rows)) + Rots(rs), Gates(c) + Rots(rs'), Gates(CircuitOf(n, rows')) + Rots(rs'));
  }

  lemma ProperizedNext(was: seq<SubTableau>, subs: seq<SubTableau>, n: nat, i: nat, s: SubTableau, t: SubTableau)
    requires Properized(was, subs, n, i) && i < |subs| && subs[i].Rotations? && i > 0 && subs[i - 1].Clifford?
    requires SubValid(subs[i - 1], n) && SubValid(subs[i], n) && SubValid(s, n) && SubValid(t, n) && s.Clifford? && t.Rotations?
    requires Equivalent(n, SubItems(subs[i - 1], n) + SubItems(subs[i], n), SubItems(s, n) + SubItems(t, n))
    requires AllProper(t.rs) && |t.rs| <= |subs[i].rs|
    ensures Properized(was, subs[i - 1 := s][i := t], n, i + 1)
  {
    hide Equivalent, Items, SubItems, JoinRotations, SubValid;
    var r := subs[i - 1 := s][i := t];
    ReplacedTwo(subs, n, i - 1, s, t);
    EquivalentTransitive(n, Items(was, n), Items(subs, n), Items(r, n));
    assert subs[i] == subs[i..][0] == was[i];
    assert r[i + 1..] == subs[i..][1..] && was[i + 1..] == was[i..][1..];
    assert was[..i + 1] == was[..i] + [was[i]] && r[..i + 1] == r[..i] + [t];
    JoinSnoc(was[..i], was[i]);
    JoinSnoc(r[..i], t);
    SameListsJoin(subs[..i], r[..i]);
  }

  lemma ProperizedPast(was: seq<SubTableau>, subs: seq<SubTableau>, n: nat, i: nat)
    requires Properized(was, subs, n, i) && i < |subs| && subs[i].Clifford?
    ensures Properized(was, subs, n, i + 1)
  {
    hide Equivalent, Items, JoinRotations;
    assert subs[i] == subs[i..][0] == was[i];
    assert subs[i + 1..] == subs[i..][1..] && was[i + 1..] == was[i..][1..];
    assert was[..i + 1] == was[..i] + [was[i]] && subs[..i + 1] == subs[..i] + [was[i]];
    JoinSnoc(was[..i], was[i]);
    JoinSnoc(subs[..i], was[i]);
  }

  /** Makes the lists proper one after the other, each with the Clifford in front of it. */
  method ProperizeLists(n: nat, was: seq<SubTableau>) returns (subs: seq<SubTableau>)
    requires AllValid(was, n) && |was| > 0 && Alternating(was)
    ensures Properized(was, subs, n, |was|)
  {
    hide Equivalent, Items, SubItems, JoinRotations, Properized, Reachable, AllNormal;
    subs := was;
    var last := 0;
    ProperizedNone(was, n);
    for i := 1 to |subs|
      invariant |subs| == |was| && Properized(was, subs, n, i) && last < i && (subs[i - 1].Clifford? ==> last == i - 1)
    {
      ProperizedFacts(was, subs, n, i);
      if subs[i].Clifford? {
        last := i;
        ProperizedPast(was, subs, n, i);
      } else {
        ghost var before := subs;
        var rows, rs := ProperizePair(n, subs[last].rows, subs[i].rs);
        ProperizedNext(was, before, n, i, Clifford(rows), Rotations(rs));
        subs := subs[last := Clifford(rows)];
        subs := subs[i := Rotations(rs)];
      }
    }
  }

  lemma ProperizedNone(was: seq<SubTableau>, n: nat)
    requires AllValid(was, n) && |was| > 0 && Alternating(was)
    ensures Properized(was, was, n, 1)
  {
    hide Equivalent, Items;
    EquivalentReflexive(n, Items(was, n));
    assert was[..1] == [] + [was[0]];
    JoinSnoc([], was[0]);
  }

  lemma ProperizedFacts(was: seq<SubTableau>, subs: seq<SubTableau>, n: nat, i: nat)
    requires Properized(was, subs, n, i) && i < |subs|
    ensures AllValid(subs, n) && SubValid(subs[i], n) && SubValid(subs[i - 1], n)
    ensures subs[i].Rotations? ==> subs[i - 1].Clifford?
  {
    hide Equivalent, Items;
    assert SubValid(subs[i], n) && SubValid(subs[i - 1], n);
  }

  lemma KeptProper(rs: seq<Rotation>)
    requires AllProper(rs)
    ensures AllProper(Kept(rs)) && forall i :: 0 <= i < |Kept(rs)| ==> !Trivial(Kept(rs)[i])
  {
    forall i | 0 <= i < |Kept(rs)| ensures Proper(Kept(rs)[i].phase) {
      assert Kept(rs)[i] in rs;
    }
  }

  /**
   Makes all rotations of a tableau proper: none turns by a quarter or more, none is trivial, and there are not more
   than before.
   */
  method ProperizeTableau(tableau: Tableau)
    requires tableau.Valid()
    modifies tableau
    ensures tableau.Valid() && Equivalent(tableau.n, Items(old(tableau.subs), tableau.n), Items(tableau.subs, tableau.n))
    ensures AllProper(JoinRotations(tableau.subs)) && |JoinRotations(tableau.subs)| <= |JoinRotations(old(tableau.subs))|
    ensures forall i :: 0 <= i < |JoinRotations(tableau.subs)| ==> !Trivial(JoinRotations(tableau.subs)[i])
    ensures forall i :: 0 <= i < |tableau.subs| ==> !Idle(tableau.subs[i], tableau.n)
  {
    hide Equivalent, Items, SubItems, JoinRotations, Reachable, Kept;
    ghost var n, was := tableau.n, tableau.subs;
    EquivalentReflexive(n, Items(was, n));
    if |tableau.subs| == 0 {
      NothingJoined(tableau.subs);
      return;
    }
    if tableau.subs[0].Rotations? {
      CliffordInFront(was, n);
      tableau.subs := [Clifford(Identity(tableau.n))] + tableau.subs;
    }
    ghost var full := tableau.subs;
    tableau.subs := JoinNeighbours(tableau.n, tableau.subs);
    EquivalentTransitive(n, Items(was, n), Items(full, n), Items(tableau.subs, n));
    ghost var joined := tableau.subs;
    tableau.subs := ProperizeLists(tableau.n, tableau.subs);
    ghost var proper := tableau.subs;
    assert joined[..|joined|] == joined && proper[..|joined|] == proper;
    EquivalentTransitive(n, Items(was, n), Items(joined, n), Items(proper, n));
    KeptProper(JoinRotations(proper));
    RemoveIdentities(tableau);
    EquivalentTransitive(n, Items(was, n), Items(proper, n), Items(tableau.subs, n));
  }

  lemma NothingJoined(subs: seq<SubTableau>)
    requires |subs| == 0
    ensures JoinRotations(subs) == []
  {
  }

  /** An identity in front changes nothing. */
  lemma CliffordInFront(subs: seq<SubTableau>, n: nat)
    requires AllValid(subs, n)
    ensures
      var longer := [Clifford(Identity(n))] + subs;
      AllValid(longer, n) && Equivalent(n, Items(subs, n), Items(longer, n)) && JoinRotations(longer) == JoinRotations(subs)
  {
    hide Equivalent, Items, SubItems;
    var c := Clifford(Identity(n));
    IdentityReachable(n);
    ItemsOne(c, n);
    ItemsConcat([c], subs, n);
    JoinCons(c, subs);
    IdleMeansNothing(c, n);
    EquivalentSymmetric(n, SubItems(c, n), []);
    EquivalentBefore(n, [], SubItems(c, n), Items(subs, n));
    assert [] + Items(subs, n) == Items(subs, n);
    assert [] + JoinRotations(subs) == JoinRotations(subs);
  }
}
