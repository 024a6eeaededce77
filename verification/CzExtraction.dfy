/**
 Extraction of CZ gates from a symmetric matrix of edges: rows that share more than two
 ones are combined by CX first.  The emitted gates add the quadratic form of the matrix to
 the phase and leave the bits as they are.
 */
module CzExtraction {
  import opened Sequences

  datatype TwoQubitGate = CXGate(control: nat, target: nat) | CZGate(a: nat, b: nat)

  /** A basis state: the bits, and whether the sign has been flipped. */
  datatype State = State(x: seq<bool>, sign: bool)

  predicate Fits(g: TwoQubitGate, n: nat) {
    match g
    case CXGate(c, t) => c < n && t < n && c != t
    case CZGate(a, b) => a < n && b < n && a != b
  }

  predicate AllFit(gs: seq<TwoQubitGate>, n: nat) { forall i :: 0 <= i < |gs| ==> Fits(gs[i], n) }

  function Apply(g: TwoQubitGate, s: State): State
    requires Fits(g, |s.x|)
  {
    match g
    case CXGate(c, t) => State(s.x[t := s.x[t] != s.x[c]], s.sign)
    case CZGate(a, b) => State(s.x, s.sign != (s.x[a] && s.x[b]))
  }

  function Run(gs: seq<TwoQubitGate>, s: State): (r: State)
    requires AllFit(gs, |s.x|)
    ensures |r.x| == |s.x|
  {
    if |gs| == 0 then s else Apply(gs[|gs| - 1], Run(gs[..|gs| - 1], s))
  }

  lemma RunSnoc(gs: seq<TwoQubitGate>, g: TwoQubitGate, s: State)
    requires AllFit(gs, |s.x|) && Fits(g, |s.x|)
    ensures AllFit(gs + [g], |s.x|) && Run(gs + [g], s) == Apply(g, Run(gs, s))
  {
    assert (gs + [g])[..|gs|] == gs;
  }

  // ---------- matrices and their forms ----------

  predicate Square(m: seq<seq<bool>>) { forall i :: 0 <= i < |m| ==> |m[i]| == |m| }

  /** An undirected graph without loops. */
  predicate Graph(m: seq<seq<bool>>) {
    && Square(m)
    && (forall i, j :: 0 <= i < |m| && 0 <= j < |m| ==> m[i][j] == m[j][i])
    && forall i :: 0 <= i < |m| ==> !m[i][i]
  }

  /** The sum of x[j] over the first k ones of a row, modulo 2. */
  function RowForm(row: seq<bool>, x: seq<bool>, k: nat): bool
    requires k <= |row| && k <= |x|
  {
    if k == 0 then false else RowForm(row, x, k - 1) != (row[k - 1] && x[k - 1])
  }

  /** The sum of x[i] x[j] over all edges below row k, modulo 2. */
  function Form(m: seq<seq<bool>>, x: seq<bool>, k: nat): bool
    requires Square(m) && k <= |m| == |x|
  {
    if k == 0 then false else Form(m, x, k - 1) != (x[k - 1] && RowForm(m[k - 1], x, k - 1))
  }

  function RowCount(row: seq<bool>, k: nat): nat
    requires k <= |row|
  {
    if k == 0 then 0 else RowCount(row, k - 1) + if row[k - 1] then 1 else 0
  }

  /** The number of edges below row k. */
  function Edges(m: seq<seq<bool>>, k: nat): nat
    requires Square(m) && k <= |m|
  {
    if k == 0 then 0 else Edges(m, k - 1) + RowCount(m[k - 1], k - 1)
  }

  /** The matrix without the edge between a and b. */
  function Without(m: seq<seq<bool>>, a: nat, b: nat): seq<seq<bool>>
    requires Square(m) && a < |m| && b < |m| && a != b
  {
    m[a := m[a][b := false]][b := m[b][a := false]]
  }

  lemma WithoutIsGraph(m: seq<seq<bool>>, a: nat, b: nat)
    requires Graph(m) && a < |m| && b < |m| && a != b
    ensures Graph(Without(m, a, b))
    ensures forall i, j :: 0 <= i < |m| && 0 <= j < |m| ==>
      Without(m, a, b)[i][j] == (m[i][j] && !(i == a && j == b) && !(i == b && j == a))
  {
  }

  lemma {:induction false} RowWithout(row: seq<bool>, x: seq<bool>, k: nat, b: nat)
    requires k <= |row| == |x| && b < |row|
    ensures RowForm(row[b := false], x, k) == (RowForm(row, x, k) != (b < k && row[b] && x[b]))
    ensures RowCount(row[b := false], k) == RowCount(row, k) - if b < k && row[b] then 1 else 0
  {
    if k > 0 { RowWithout(row, x, k - 1, b); }
  }

  /** Removing an edge takes its product out of the form, and one edge out of the count. */
  lemma {:induction false} FormWithout(m: seq<seq<bool>>, x: seq<bool>, k: nat, a: nat, b: nat)
    requires Graph(m) && k <= |m| == |x| && b < a < |m|
    ensures Square(Without(m, a, b))
    ensures Form(Without(m, a, b), x, k) == (Form(m, x, k) != (a < k && m[a][b] && x[a] && x[b]))
    ensures Edges(Without(m, a, b), k) == Edges(m, k) - if a < k && m[a][b] then 1 else 0
  {
    if k > 0 {
      FormWithout(m, x, k - 1, a, b);
      if k - 1 == a {
        RowWithout(m[a], x, a, b);
      } else if k - 1 == b {
        RowWithout(m[b], x, b, a);
      }
    }
  }

  lemma RemoveEdge(m: seq<seq<bool>>, x: seq<bool>, a: nat, b: nat)
    requires Graph(m) && |x| == |m| && a < |m| && b < |m| && a != b
    ensures Graph(Without(m, a, b))
    ensures Form(Without(m, a, b), x, |m|) == (Form(m, x, |m|) != (m[a][b] && x[a] && x[b]))
    ensures Edges(Without(m, a, b), |m|) == Edges(m, |m|) - if m[a][b] then 1 else 0
  {
    WithoutIsGraph(m, a, b);
    if b < a {
      FormWithout(m, x, |m|, a, b);
    } else {
      FormWithout(m, x, |m|, b, a);
      assert Without(m, a, b) == Without(m, b, a);
    }
  }

  lemma {:induction false} NoEdges(m: seq<seq<bool>>, x: seq<bool>, k: nat)
    requires Square(m) && k <= |m| == |x| && forall i, j :: 0 <= j < i < |m| ==> !m[i][j]
    ensures !Form(m, x, k) && Edges(m, k) == 0
  {
    if k > 0 {
      NoEdges(m, x, k - 1);
      NoOnes(m[k - 1], x, k - 1);
    }
  }

  lemma {:induction false} NoOnes(row: seq<bool>, x: seq<bool>, k: nat)
    requires k <= |row| && k <= |x| && forall j :: 0 <= j < k ==> !row[j]
    ensures !RowForm(row, x, k) && RowCount(row, k) == 0
  {
    if k > 0 { NoOnes(row, x, k - 1); }
  }

  // ---------- the invariant of the extraction ----------

  predicate EmitsAt(m0: seq<seq<bool>>, m: seq<seq<bool>>, gates: seq<TwoQubitGate>, s: State)
    requires Square(m0) && Square(m) && |m0| == |m| == |s.x| && AllFit(gates, |m|)
  {
    Run(gates, s) == State(s.x, s.sign != (Form(m0, s.x, |m0|) != Form(m, s.x, |m|)))
  }

  /** The gates leave every state's bits as they are and add the form of the edges removed so far. */
  ghost predicate Emits(m0: seq<seq<bool>>, m: seq<seq<bool>>, gates: seq<TwoQubitGate>) {
    && Graph(m0) && Graph(m) && |m0| == |m| && AllFit(gates, |m|)
    && forall s: State :: |s.x| == |m| ==> EmitsAt(m0, m, gates, s)
  }

  lemma EmitsNothing(m: seq<seq<bool>>)
    requires Graph(m)
    ensures Emits(m, m, [])
  {
  }

  /** A CZ for one edge. */
  lemma EmitCZ(m0: seq<seq<bool>>, m: seq<seq<bool>>, gates: seq<TwoQubitGate>, a: nat, b: nat)
    requires Emits(m0, m, gates) && a < |m| && b < |m| && a != b && m[a][b]
    ensures Graph(Without(m, a, b)) && Emits(m0, Without(m, a, b), gates + [CZGate(a, b)])
    ensures Edges(Without(m, a, b), |m|) == Edges(m, |m|) - 1
  {
    hide Form, Run, Edges;
    var m', g := Without(m, a, b), CZGate(a, b);
    WithoutIsGraph(m, a, b);
    RemoveEdge(m, seq(|m|, i => false), a, b);
    AppendFits(gates, g, |m|);
    forall s: State | |s.x| == |m| ensures EmitsAt(m0, m', gates + [g], s) {
      assert EmitsAt(m0, m, gates, s);
      EmitCZAt(m0, m, gates, a, b, s);
    }
  }

  lemma EmitCZAt(m0: seq<seq<bool>>, m: seq<seq<bool>>, gates: seq<TwoQubitGate>, a: nat, b: nat, s: State)
    requires Graph(m0) && Graph(m) && |m0| == |m| == |s.x| && AllFit(gates, |m|) && a < |m| && b < |m| && a != b && m[a][b]
    requires EmitsAt(m0, m, gates, s)
    ensures Graph(Without(m, a, b)) && |Without(m, a, b)| == |m| && AllFit(gates + [CZGate(a, b)], |m|)
    ensures EmitsAt(m0, Without(m, a, b), gates + [CZGate(a, b)], s)
  {
    WithoutIsGraph(m, a, b);
    hide Form, Run, Without;
    AppendFits(gates, CZGate(a, b), |m|);
    RunSnoc(gates, CZGate(a, b), s);
    RemoveEdge(m, s.x, a, b);
  }

  // ---------- one group: CX, CZs, CX ----------

  predicate CommonsOk(m: seq<seq<bool>>, i: nat, j: nat, commons: seq<nat>) {
    && Square(m) && i < |m| && j < |m| && i != j
    && (forall t :: 0 <= t < |commons| ==> commons[t] < |m| && commons[t] != i && commons[t] != j && m[i][commons[t]] && m[j][commons[t]])
    && forall s, t :: 0 <= s < t < |commons| ==> commons[s] != commons[t]
  }

  predicate InGroupAt(m0: seq<seq<bool>>, m: seq<seq<bool>>, gates: seq<TwoQubitGate>, i: nat, j: nat, s: State)
    requires Square(m0) && Square(m) && |m0| == |m| == |s.x| && AllFit(gates, |m|) && i < |m| && j < |m|
  {
    Run(gates, s) == State(s.x[j := s.x[j] != s.x[i]], s.sign != (Form(m0, s.x, |m0|) != Form(m, s.x, |m|)))
  }

  /** Inside a group the target bit holds the sum of both bits. */
  ghost predicate InGroup(m0: seq<seq<bool>>, m: seq<seq<bool>>, gates: seq<TwoQubitGate>, i: nat, j: nat) {
    && Graph(m0) && Graph(m) && |m0| == |m| && AllFit(gates, |m|) && i < |m| && j < |m| && i != j
    && forall s: State :: |s.x| == |m| ==> InGroupAt(m0, m, gates, i, j, s)
  }

  lemma AppendFits(gates: seq<TwoQubitGate>, g: TwoQubitGate, n: nat)
    requires AllFit(gates, n) && Fits(g, n)
    ensures AllFit(gates + [g], n)
  {
  }

  lemma StartAt(m0: seq<seq<bool>>, m: seq<seq<bool>>, gates: seq<TwoQubitGate>, i: nat, j: nat, s: State)
    requires Square(m0) && Square(m) && |m0| == |m| == |s.x| && AllFit(gates, |m|) && AllFit(gates + [CXGate(i, j)], |m|)
    requires i < |m| && j < |m| && i != j && EmitsAt(m0, m, gates, s)
    ensures InGroupAt(m0, m, gates + [CXGate(i, j)], i, j, s)
  {
    RunSnoc(gates, CXGate(i, j), s);
  }

  lemma EndAt(m0: seq<seq<bool>>, m: seq<seq<bool>>, gates: seq<TwoQubitGate>, i: nat, j: nat, s: State)
    requires Square(m0) && Square(m) && |m0| == |m| == |s.x| && AllFit(gates, |m|) && AllFit(gates + [CXGate(i, j)], |m|)
    requires i < |m| && j < |m| && i != j && InGroupAt(m0, m, gates, i, j, s)
    ensures EmitsAt(m0, m, gates + [CXGate(i, j)], s)
  {
    RunSnoc(gates, CXGate(i, j), s);
    assert s.x[j := s.x[j] != s.x[i]][j := s.x[j]] == s.x;
  }

  lemma GroupStarts(m0: seq<seq<bool>>, m: seq<seq<bool>>, gates: seq<TwoQubitGate>, i: nat, j: nat)
    requires Emits(m0, m, gates) && i < |m| && j < |m| && i != j
    ensures InGroup(m0, m, gates + [CXGate(i, j)], i, j)
  {
    AppendFits(gates, CXGate(i, j), |m|);
    forall s: State | |s.x| == |m| ensures InGroupAt(m0, m, gates + [CXGate(i, j)], i, j, s) {
      assert EmitsAt(m0, m, gates, s);
      StartAt(m0, m, gates, i, j, s);
    }
  }

  lemma GroupEnds(m0: seq<seq<bool>>, m: seq<seq<bool>>, gates: seq<TwoQubitGate>, i: nat, j: nat)
    requires InGroup(m0, m, gates, i, j)
    ensures Emits(m0, m, gates + [CXGate(i, j)])
  {
    AppendFits(gates, CXGate(i, j), |m|);
    forall s: State | |s.x| == |m| ensures EmitsAt(m0, m, gates + [CXGate(i, j)], s) {
      assert InGroupAt(m0, m, gates, i, j, s);
      EndAt(m0, m, gates, i, j, s);
    }
  }

  /** One CZ inside the group stands for both edges of a common neighbour. */
  lemma GroupCZ(m0: seq<seq<bool>>, m: seq<seq<bool>>, gates: seq<TwoQubitGate>, i: nat, j: nat, c: nat)
    requires InGroup(m0, m, gates, i, j) && c < |m| && c != i && c != j && m[i][c] && m[j][c]
    ensures Graph(Without(m, i, c)) && Graph(Without(Without(m, i, c), j, c))
    ensures InGroup(m0, Without(Without(m, i, c), j, c), gates + [CZGate(j, c)], i, j)
    ensures Edges(Without(Without(m, i, c), j, c), |m|) == Edges(m, |m|) - 2
  {
    hide Edges, Form, Run, Without;
    var g := CZGate(j, c);
    var none := seq(|m|, k => false);
    GroupGraphs(m, i, j, c);
    var m1 := Without(m, i, c);
    RemoveEdge(m, none, i, c);
    RemoveEdge(m1, none, j, c);
    AppendFits(gates, g, |m|);
    forall s: State | |s.x| == |m| ensures InGroupAt(m0, Without(m1, j, c), gates + [g], i, j, s) {
      assert InGroupAt(m0, m, gates, i, j, s);
      GroupCZAt(m0, m, gates, i, j, c, s);
    }
  }

  lemma GroupGraphs(m: seq<seq<bool>>, i: nat, j: nat, c: nat)
    requires Graph(m) && i < |m| && j < |m| && c < |m| && c != i && c != j && i != j && m[j][c]
    ensures Graph(Without(m, i, c)) && Without(m, i, c)[j][c] && Graph(Without(Without(m, i, c), j, c))
    ensures |Without(m, i, c)| == |Without(Without(m, i, c), j, c)| == |m|
  {
    WithoutIsGraph(m, i, c);
    WithoutIsGraph(Without(m, i, c), j, c);
  }

  lemma GroupCZAt(m0: seq<seq<bool>>, m: seq<seq<bool>>, gates: seq<TwoQubitGate>, i: nat, j: nat, c: nat, s: State)
    requires Graph(m0) && Graph(m) && |m0| == |m| == |s.x| && AllFit(gates, |m|)
    requires i < |m| && j < |m| && i != j && c < |m| && c != i && c != j && m[i][c] && m[j][c]
    requires InGroupAt(m0, m, gates, i, j, s)
    ensures Graph(Without(m, i, c)) && Graph(Without(Without(m, i, c), j, c)) && AllFit(gates + [CZGate(j, c)], |m|)
    ensures InGroupAt(m0, Without(Without(m, i, c), j, c), gates + [CZGate(j, c)], i, j, s)
  {
    GroupGraphs(m, i, j, c);
    hide Form, Run, Without;
    AppendFits(gates, CZGate(j, c), |m|);
    RunSnoc(gates, CZGate(j, c), s);
    RemoveEdge(m, s.x, i, c);
    RemoveEdge(Without(m, i, c), s.x, j, c);
  }

  // ---------- the reversed circuit ----------

  lemma ReversedFit(gs: seq<TwoQubitGate>, n: nat)
    requires AllFit(gs, n)
    ensures AllFit(Reversed(gs), n)
  {
  }

  lemma {:induction false} RunAfter(a: seq<TwoQubitGate>, b: seq<TwoQubitGate>, s: State)
    requires AllFit(a, |s.x|) && AllFit(b, |s.x|)
    ensures AllFit(a + b, |s.x|) && Run(a + b, s) == Run(b, Run(a, s))
  {
    if |b| == 0 {
      assert a + b == a;
    } else {
      assert (a + b)[..|a + b| - 1] == a + b[..|b| - 1];
      RunAfter(a, b[..|b| - 1], s);
    }
  }

  /** Every gate undoes itself, so the reversed gates undo the circuit. */
  lemma {:induction false} ReversedUndoes(gs: seq<TwoQubitGate>, s: State)
    requires AllFit(gs, |s.x|)
    ensures AllFit(Reversed(gs), |s.x|) && Run(Reversed(gs), Run(gs, s)) == s
  {
    hide Apply;
    ReversedFit(gs, |s.x|);
    if |gs| > 0 {
      var k := |gs| - 1;
      var g, t := gs[k], Run(gs[..k], s);
      ReversedFit(gs[..k], |s.x|);
      assert Reversed(gs) == [g] + Reversed(gs[..k]);
      RunAfter([g], Reversed(gs[..k]), Run(gs, s));
      RunSnoc([], g, Run(gs, s));
      assert [] + [g] == [g];
      ApplyTwice(g, t);
      ReversedUndoes(gs[..k], s);
    }
  }

  lemma ApplyTwice(g: TwoQubitGate, t: State)
    requires Fits(g, |t.x|)
    ensures Apply(g, Apply(g, t)) == t
  {
    if g.CXGate? { assert t.x[g.target := t.x[g.target] != t.x[g.control]][g.target := t.x[g.target]] == t.x; }
  }

  /** Prepending the gates one by one reverses them; the reversed circuit adds the same form. */
  lemma PrependedEmits(m0: seq<seq<bool>>, m: seq<seq<bool>>, gates: seq<TwoQubitGate>)
    requires Emits(m0, m, gates)
    ensures Emits(m0, m, Reversed(gates))
  {
    ReversedFit(gates, |m|);
    forall s: State | |s.x| == |m| ensures EmitsAt(m0, m, Reversed(gates), s) {
      var t := State(s.x, s.sign != (Form(m0, s.x, |m0|) != Form(m, s.x, |m|)));
      assert EmitsAt(m0, m, gates, t);
      ReversedUndoes(gates, t);
    }
  }

  // ---------- the extraction ----------

  /** The columns below k in which both rows have a one. */
  function Common(m: seq<seq<bool>>, i: nat, j: nat, k: nat): (r: seq<nat>)
    requires Square(m) && i < |m| && j < |m| && k <= |m|
  {
    if k == 0 then [] else Common(m, i, j, k - 1) + if m[i][k - 1] && m[j][k - 1] then [k - 1] else []
  }

  predicate Ascending(r: seq<nat>) { forall s, t :: 0 <= s < t < |r| ==> r[s] < r[t] }

  /** Every common column is listed exactly once. */
  lemma {:induction false} CommonMembers(m: seq<seq<bool>>, i: nat, j: nat, k: nat)
    requires Square(m) && i < |m| && j < |m| && k <= |m|
    ensures forall c: nat :: c in Common(m, i, j, k) <==> c < k && m[i][c] && m[j][c]
    ensures Ascending(Common(m, i, j, k))
  {
    if k > 0 {
      CommonMembers(m, i, j, k - 1);
      var before := Common(m, i, j, k - 1);
      forall s | 0 <= s < |before| ensures before[s] < k - 1 { assert before[s] in before; }
      assert m[i][k - 1] && m[j][k - 1] ==> Common(m, i, j, k)[|before|] == k - 1;
      forall c: nat ensures c in Common(m, i, j, k) <==> c < k && m[i][c] && m[j][c] {
        assert c < k <==> c < k - 1 || c == k - 1;
      }
      var r := Common(m, i, j, k);
      assert r == before || r == before + [k - 1];
      assert Ascending(r);
    }
  }

  lemma CommonsAreOk(m: seq<seq<bool>>, i: nat, j: nat)
    requires Graph(m) && i < |m| && j < |m| && i != j
    ensures CommonsOk(m, i, j, Common(m, i, j, |m|)) && CommonsOk(m, j, i, Common(m, i, j, |m|))
  {
    CommonMembers(m, i, j, |m|);
    var r := Common(m, i, j, |m|);
    forall t | 0 <= t < |r| ensures r[t] < |m| && m[i][r[t]] && m[j][r[t]] { assert r[t] in r; }
  }

  /** The pair (p, q) comes before the rows i and j. */
  predicate Earlier(p: nat, q: nat, i: nat, j: nat) {
    var a, b := if i < j then i else j, if i < j then j else i;
    p < a || (p == a && q < b)
  }

  /** The row with more ones is i; among equals it is the upper one. */
  predicate FullerFirst(m: seq<seq<bool>>, i: nat, j: nat)
    requires Square(m) && i < |m| && j < |m|
  {
    RowCount(m[i], |m|) >= RowCount(m[j], |m|) && (RowCount(m[i], |m|) == RowCount(m[j], |m|) ==> i < j)
  }

  /** The first best pair of rows among those looked at, the fuller one first. */
  predicate Best(m: seq<seq<bool>>, i: nat, j: nat, commons: seq<nat>)
    requires Square(m)
  {
    |commons| > 0 ==>
      && CommonsOk(m, i, j, commons) && FullerFirst(m, i, j)
      && forall p, q :: 0 <= p < q < |m| && Earlier(p, q, i, j) ==> NotMore(m, p, q, |commons| - 1)
  }

  predicate NotMore(m: seq<seq<bool>>, a: nat, b: nat, size: int)
    requires Square(m) && a < |m| && b < |m|
  {
    |Common(m, a, b, |m|)| <= size
  }

  /** Of the edges of start, those from pair (i, j) on are left. */
  predicate LeftFrom(start: seq<seq<bool>>, m: seq<seq<bool>>, i: nat, j: nat) {
    && Graph(start) && Graph(m) && |m| == |start|
    && forall a, b :: 0 <= a < b < |m| ==> m[a][b] == (start[a][b] && (a > i || (a == i && b >= j)))
  }

  lemma LeftNext(start: seq<seq<bool>>, m: seq<seq<bool>>, i: nat, j: nat)
    requires LeftFrom(start, m, i, j) && i < j < |m|
    ensures LeftFrom(start, Without(m, i, j), i, j + 1)
  {
    WithoutIsGraph(m, i, j);
  }

  predicate NoneLeft(m: seq<seq<bool>>) {
    Square(m) && forall i, j :: 0 <= i < |m| && 0 <= j < |m| ==> !m[i][j]
  }

  lemma NothingLeft(start: seq<seq<bool>>, m: seq<seq<bool>>)
    requires LeftFrom(start, m, |m|, |m| + 1)
    ensures NoneLeft(m) && Edges(m, |m|) == 0
  {
    forall i, j | 0 <= i < |m| && 0 <= j < |m| ensures !m[i][j] {
      assert m[i][j] == m[j][i];
    }
    NoEdges(m, seq(|m|, k => false), |m|);
  }

  // ---------- the groups ----------

  datatype Group = Group(i: nat, j: nat, commons: seq<nat>)

  function CZs(j: nat, commons: seq<nat>): seq<TwoQubitGate> { seq(|commons|, t requires 0 <= t < |commons| => CZGate(j, commons[t])) }

  /** A CX, one CZ for every common column, and the CX again. */
  function GroupGates(g: Group): seq<TwoQubitGate> {
    [CXGate(g.i, g.j)] + CZs(g.j, g.commons) + [CXGate(g.i, g.j)]
  }

  function AllGroupGates(groups: seq<Group>): seq<TwoQubitGate> {
    if |groups| == 0 then [] else AllGroupGates(groups[..|groups| - 1]) + GroupGates(groups[|groups| - 1])
  }

  function TotalSaved(groups: seq<Group>): int {
    if |groups| == 0 then 0 else TotalSaved(groups[..|groups| - 1]) + |groups[|groups| - 1].commons| - 2
  }

  predicate Touches(g: Group, a: nat, b: nat) { (a == g.i || a == g.j) && b in g.commons }

  /** The common columns have been taken out of both rows, and nothing else. */
  predicate CutOut(m: seq<seq<bool>>, g: Group, m': seq<seq<bool>>) {
    && Square(m) && Square(m') && |m'| == |m|
    && forall a, b :: 0 <= a < |m| && 0 <= b < |m| ==> m'[a][b] == (m[a][b] && !Touches(g, a, b) && !Touches(g, b, a))
  }

  predicate AtMost(m: seq<seq<bool>>, size: nat)
    requires Square(m)
  {
    forall a, b :: 0 <= a < b < |m| ==> NotMore(m, a, b, size)
  }

  /** The group takes out the first largest overlap, which is larger than two. */
  predicate GreedyStep(m: seq<seq<bool>>, g: Group, m': seq<seq<bool>>) {
    Graph(m) && |g.commons| > 2 && AtMost(m, |g.commons|) && Best(m, g.i, g.j, g.commons) && CutOut(m, g, m')
  }

  /** The groups taken out one after the other, with the matrices in between. */
  datatype Reduction = Reduction(groups: seq<Group>, matrices: seq<seq<seq<bool>>>)

  /** Every group of the reduction is the best one at its time. */
  predicate Greedy(m: seq<seq<bool>>, r: Reduction) {
    && |r.matrices| == |r.groups| + 1 && r.matrices[0] == m
    && forall k :: 0 <= k < |r.groups| ==> GreedyStep(r.matrices[k], r.groups[k], r.matrices[k + 1])
  }

  function Rest(r: Reduction): seq<seq<bool>>
    requires |r.matrices| > 0
  {
    r.matrices[|r.matrices| - 1]
  }

  function Further(r: Reduction, g: Group, m': seq<seq<bool>>): Reduction { Reduction(r.groups + [g], r.matrices + [m']) }

  lemma GreedyGrows(m: seq<seq<bool>>, r: Reduction, g: Group, m': seq<seq<bool>>)
    requires Greedy(m, r) && GreedyStep(Rest(r), g, m')
    ensures Greedy(m, Further(r, g, m')) && Rest(Further(r, g, m')) == m'
    ensures AllGroupGates(r.groups + [g]) == AllGroupGates(r.groups) + GroupGates(g)
    ensures TotalSaved(r.groups + [g]) == TotalSaved(r.groups) + |g.commons| - 2
  {
    assert (r.groups + [g])[..|r.groups|] == r.groups;
  }

  lemma CutStarts(m: seq<seq<bool>>, i: nat, j: nat)
    requires Square(m)
    ensures CutOut(m, Group(i, j, []), m)
  {
  }

  lemma CutNext(m: seq<seq<bool>>, i: nat, j: nat, commons: seq<nat>, t: nat, m': seq<seq<bool>>)
    requires Graph(m) && Graph(m') && t < |commons| && CutOut(m, Group(i, j, commons[..t]), m')
    requires i < |m| && j < |m| && i != j && commons[t] < |m| && commons[t] != i && commons[t] != j
    ensures Graph(Without(m', i, commons[t]))
    ensures CutOut(m, Group(i, j, commons[..t + 1]), Without(Without(m', i, commons[t]), j, commons[t]))
  {
    var c := commons[t];
    assert commons[..t + 1] == commons[..t] + [c];
    WithoutIsGraph(m', i, c);
    WithoutIsGraph(Without(m', i, c), j, c);
  }

  lemma BestIsOk(m: seq<seq<bool>>, i: nat, j: nat, commons: seq<nat>)
    requires Square(m) && Best(m, i, j, commons) && |commons| > 0
    ensures CommonsOk(m, i, j, commons)
  {
  }

  lemma GroupLength(g: Group)
    ensures |GroupGates(g)| == |g.commons| + 2
  {
  }

  lemma FewerToo(m: seq<seq<bool>>, size: nat)
    requires Square(m) && AtMost(m, size) && size <= 2
    ensures AtMost(m, 2)
  {
    forall a, b | 0 <= a < b < |m| ensures NotMore(m, a, b, 2) {
      assert NotMore(m, a, b, size);
    }
  }

  class Extractor {
    var biadjacency: seq<seq<bool>>
    var gates: seq<TwoQubitGate>

    constructor (m: seq<seq<bool>>)
      ensures biadjacency == m && gates == []
    {
      biadjacency, gates := m, [];
    }

    /** The common ones of two rows, and how many ones each of them has. */
    method Overlap(i: nat, j: nat) returns (commons: seq<nat>, onesI: nat, onesJ: nat)
      requires Square(biadjacency) && i < |biadjacency| && j < |biadjacency|
      ensures commons == Common(biadjacency, i, j, |biadjacency|)
      ensures onesI == RowCount(biadjacency[i], |biadjacency|) && onesJ == RowCount(biadjacency[j], |biadjacency|)
    {
      commons, onesI, onesJ := [], 0, 0;
      var m := biadjacency;
      for k := 0 to |m|
        invariant commons == Common(m, i, j, k)
        invariant onesI == RowCount(m[i], k) && onesJ == RowCount(m[j], k)
      {
        onesI := onesI + if m[i][k] then 1 else 0;
        onesJ := onesJ + if m[j][k] then 1 else 0;
        commons := commons + if m[i][k] && m[j][k] then [k] else [];
      }
    }

    /** Two rows with the most common ones, the one with more ones first. */
    method MaxOverlap() returns (i: nat, j: nat, commons: seq<nat>)
      requires Graph(biadjacency)
      ensures AtMost(biadjacency, |commons|)
      ensures Best(biadjacency, i, j, commons)
    {
      i, j, commons := 0, 0, [];
      var m := biadjacency;
      for a := 0 to |m|
        invariant forall p, q :: 0 <= p < q < |m| && p < a ==> NotMore(m, p, q, |commons|)
        invariant Best(m, i, j, commons)
      {
        for b := a + 1 to |m|
          invariant forall p, q :: 0 <= p < q < |m| && (p < a || (p == a && q < b)) ==> NotMore(m, p, q, |commons|)
          invariant Best(m, i, j, commons)
        {
          var indices, onesA, onesB := Overlap(a, b);
          ghost var size := |commons|;
          if |indices| > |commons| {
            CommonsAreOk(m, a, b);
            commons := indices;
            if onesA < onesB {
              i, j := b, a;
            } else {
              i, j := a, b;
            }
            forall p, q | 0 <= p < q < |m| && Earlier(p, q, i, j) ensures NotMore(m, p, q, |commons| - 1) {
              assert NotMore(m, p, q, size);
            }
          }
          forall p, q | 0 <= p < q < |m| && (p < a || (p == a && q < b + 1)) ensures NotMore(m, p, q, |commons|) {
            assert q != b || p != a ==> NotMore(m, p, q, size);
          }
        }
      }
    }

    /** Takes the common ones out of two rows by a CX, one CZ for each, and the CX again. */
    method Combine(i: nat, j: nat, commons: seq<nat>, ghost m0: seq<seq<bool>>)
      requires Emits(m0, biadjacency, gates) && CommonsOk(biadjacency, i, j, commons)
      modifies this
      ensures Emits(m0, biadjacency, gates) && |biadjacency| == |old(biadjacency)|
      ensures gates == old(gates) + GroupGates(Group(i, j, commons))
      ensures CutOut(old(biadjacency), Group(i, j, commons), biadjacency)
      ensures Edges(biadjacency, |m0|) == Edges(old(biadjacency), |m0|) - 2 * |commons|
    {
      hide InGroup, CutOut, Emits, Edges, Graph;
      ghost var m := biadjacency;
      CutStarts(m, i, j);
      GroupStarts(m0, m, gates, i, j);
      gates := gates + [CXGate(i, j)];
      for t := 0 to |commons|
        invariant InGroup(m0, biadjacency, gates, i, j) && CutOut(m, Group(i, j, commons[..t]), biadjacency)
        invariant StillThere(biadjacency, i, j, commons, t) && |biadjacency| == |m0| == |m|
        invariant gates == old(gates) + [CXGate(i, j)] + CZs(j, commons[..t])
        invariant Edges(biadjacency, |m0|) == Edges(m, |m0|) - 2 * t
      {
        CombineOne(i, j, commons, t, m0, m);
      }
      assert commons[..|commons|] == commons;
      GroupEnds(m0, biadjacency, gates, i, j);
      gates := gates + [CXGate(i, j)];
    }

    /** The CZ for one common column, which leaves both rows. */
    method CombineOne(i: nat, j: nat, commons: seq<nat>, t: nat, ghost m0: seq<seq<bool>>, ghost m: seq<seq<bool>>)
      requires CommonsOk(m, i, j, commons) && t < |commons| && Graph(m) && |m0| == |m|
      requires InGroup(m0, biadjacency, gates, i, j) && CutOut(m, Group(i, j, commons[..t]), biadjacency)
      requires StillThere(biadjacency, i, j, commons, t)
      modifies this
      ensures InGroup(m0, biadjacency, gates, i, j) && CutOut(m, Group(i, j, commons[..t + 1]), biadjacency)
      ensures StillThere(biadjacency, i, j, commons, t + 1)
      ensures gates == old(gates) + [CZGate(j, commons[t])] && |biadjacency| == |m0|
      ensures Edges(biadjacency, |m0|) == Edges(old(biadjacency), |m0|) - 2
    {
      hide Edges, CutOut;
      var c := commons[t];
      GroupCZ(m0, biadjacency, gates, i, j, c);
      StillCommon(biadjacency, i, j, commons, t);
      CutNext(m, i, j, commons, t, biadjacency);
      gates := gates + [CZGate(j, c)];
      ClearEdge(i, c);
      ClearEdge(j, c);
    }

    method ClearEdge(a: nat, b: nat)
      requires Square(biadjacency) && a < |biadjacency| && b < |biadjacency| && a != b
      modifies `biadjacency
      ensures biadjacency == Without(old(biadjacency), a, b)
    {
      biadjacency := biadjacency[a := biadjacency[a][b := false]];
      biadjacency := biadjacency[b := biadjacency[b][a := false]];
    }

    /**
     While two rows share more than two ones, the best pair is combined; every time two-qubit gates are saved.
     */
    method ReduceCzs(ghost m0: seq<seq<bool>>) returns (saved: nat, ghost r: Reduction)
      requires Emits(m0, biadjacency, gates)
      modifies this
      ensures Emits(m0, biadjacency, gates)
      ensures |gates| + Edges(biadjacency, |m0|) + saved == |old(gates)| + Edges(old(biadjacency), |m0|)
      ensures Greedy(old(biadjacency), r) && Rest(r) == biadjacency && AtMost(biadjacency, 2)
      ensures gates == old(gates) + AllGroupGates(r.groups) && saved == TotalSaved(r.groups)
    {
      hide Best, CutOut, GroupGates, Edges;
      saved := 0;
      r := Reduction([], [biadjacency]);
      var i, j, commons := MaxOverlap();
      while |commons| > 2
        invariant Emits(m0, biadjacency, gates)
        invariant |gates| + Edges(biadjacency, |m0|) + saved == |old(gates)| + Edges(old(biadjacency), |m0|)
        invariant Best(biadjacency, i, j, commons) && AtMost(biadjacency, |commons|)
        invariant Greedy(old(biadjacency), r) && Rest(r) == biadjacency
        invariant gates == old(gates) + AllGroupGates(r.groups) && saved == TotalSaved(r.groups)
        decreases Edges(biadjacency, |biadjacency|)
      {
        saved := saved + (|commons| - 2);
        ghost var g := Group(i, j, commons);
        BestIsOk(biadjacency, i, j, commons);
        Combine(i, j, commons, m0);
        GroupLength(g);
        GreedyGrows(old(biadjacency), r, g, biadjacency);
        r := Further(r, g, biadjacency);
        i, j, commons := MaxOverlap();
      }
      FewerToo(biadjacency, |commons|);
    }

    /** One CZ for every remaining edge. */
    method RemainingCzs(ghost m0: seq<seq<bool>>) returns (ghost m: seq<seq<bool>>)
      requires Emits(m0, biadjacency, gates)
      modifies `gates
      ensures Emits(m0, m, gates) && NoneLeft(m)
      ensures |gates| == |old(gates)| + Edges(biadjacency, |m0|) && old(gates) <= gates
      ensures forall k :: |old(gates)| <= k < |gates| ==> gates[k].CZGate?
    {
      ghost var start, n := biadjacency, |biadjacency|;
      m := biadjacency;
      for i := 0 to |biadjacency|
        invariant Emits(m0, m, gates) && |m| == n && old(gates) <= gates
        invariant forall k :: |old(gates)| <= k < |gates| ==> gates[k].CZGate?
        invariant LeftFrom(start, m, i, i + 1)
        invariant |gates| + Edges(m, n) == |old(gates)| + Edges(start, n)
      {
        for j := i + 1 to |biadjacency|
          invariant Emits(m0, m, gates) && |m| == n && old(gates) <= gates
          invariant forall k :: |old(gates)| <= k < |gates| ==> gates[k].CZGate?
          invariant LeftFrom(start, m, i, j)
          invariant |gates| + Edges(m, n) == |old(gates)| + Edges(start, n)
        {
          if biadjacency[i][j] {
            EmitCZ(m0, m, gates, i, j);
            LeftNext(start, m, i, j);
            gates := gates + [CZGate(i, j)];
            m := Without(m, i, j);
          }
        }
      }
      NothingLeft(start, m);
    }

    /**
     Extracts all edges of the matrix: the gates, run in order or prepended one by one, add its quadratic form to
     the phase, and there are as many gates as edges less the ones saved.  With the reduction the gates start with the
     groups of greedily chosen overlaps until none is larger than two; the others are one CZ for every edge left.
     */
    method ExtractCzs(reduce: bool) returns (saved: nat, ghost r: Reduction)
      requires Graph(biadjacency) && gates == []
      modifies this
      ensures Adds(old(biadjacency), gates) && Adds(old(biadjacency), Reversed(gates))
      ensures |gates| + saved == Edges(old(biadjacency), |old(biadjacency)|)
      ensures Greedy(old(biadjacency), r) && Square(Rest(r)) && saved == TotalSaved(r.groups)
      ensures if reduce then AtMost(Rest(r), 2) else r.groups == []
      ensures AllGroupGates(r.groups) <= gates
      ensures forall k :: |AllGroupGates(r.groups)| <= k < |gates| ==> gates[k].CZGate?
    {
      hide AtMost, Edges, Greedy;
      ghost var m0 := biadjacency;
      EmitsNothing(m0);
      saved, r := 0, Reduction([], [m0]);
      assert Greedy(m0, r) by { NothingTaken(m0); }
      if reduce {
        saved, r := ReduceCzs(m0);
      }
      ghost var m := RemainingCzs(m0);
      PrependedEmits(m0, m, gates);
      EmitsAll(m0, m, gates);
      EmitsAll(m0, m, Reversed(gates));
      biadjacency := [];
    }
  }

  lemma NothingTaken(m: seq<seq<bool>>)
    ensures Greedy(m, Reduction([], [m]))
  {
  }

  predicate AddsAt(m: seq<seq<bool>>, gates: seq<TwoQubitGate>, s: State)
    requires Square(m) && |s.x| == |m| && AllFit(gates, |m|)
  {
    Run(gates, s) == State(s.x, s.sign != Form(m, s.x, |m|))
  }

  /** The gates keep the bits of every state and add the whole form to its phase. */
  ghost predicate Adds(m: seq<seq<bool>>, gates: seq<TwoQubitGate>) {
    Square(m) && AllFit(gates, |m|) && forall s: State :: |s.x| == |m| ==> AddsAt(m, gates, s)
  }

  lemma EmitsAll(m0: seq<seq<bool>>, m: seq<seq<bool>>, gates: seq<TwoQubitGate>)
    requires Emits(m0, m, gates) && NoneLeft(m)
    ensures Adds(m0, gates)
  {
    forall s: State | |s.x| == |m0| ensures AddsAt(m0, gates, s) {
      assert EmitsAt(m0, m, gates, s);
      NoEdges(m, s.x, |m|);
    }
  }

  /** From the t-th on the columns are still common to both rows. */
  predicate StillThere(m: seq<seq<bool>>, i: nat, j: nat, commons: seq<nat>, t: nat) {
    && Square(m) && i < |m| && j < |m|
    && forall u :: t <= u < |commons| ==> commons[u] < |m| && m[i][commons[u]] && m[j][commons[u]]
  }

  lemma StillCommon(m: seq<seq<bool>>, i: nat, j: nat, commons: seq<nat>, t: nat)
    requires Graph(m) && i < |m| && j < |m| && i != j && t < |commons|
    requires forall u :: 0 <= u < |commons| ==> commons[u] < |m| && commons[u] != i && commons[u] != j
    requires forall s, u :: 0 <= s < u < |commons| ==> commons[s] != commons[u]
    requires StillThere(m, i, j, commons, t)
    ensures Graph(Without(m, i, commons[t]))
    ensures StillThere(Without(Without(m, i, commons[t]), j, commons[t]), i, j, commons, t + 1)
  {
    WithoutIsGraph(m, i, commons[t]);
    WithoutIsGraph(Without(m, i, commons[t]), j, commons[t]);
  }
}
