/**
 The stabilizer tableau as a mutable object: 2n rows, stabilizers first, changed in
 place by appended and prepended gates.
 */
module StabilizerTableaux {
  import opened PauliAlgebra
  import opened CliffordOps
  import opened CliffordTableaux

  function ConjEach(op: Op, rows: seq<Pauli>): (r: seq<Pauli>)
    ensures |r| == |rows|
    ensures forall i :: 0 <= i < |rows| ==> r[i] == Conj(op, rows[i])
  {
    seq(|rows|, i requires 0 <= i < |rows| => Conj(op, rows[i]))
  }

  lemma ConjRowsSnoc(ops: seq<Op>, op: Op, rows: seq<Pauli>)
    ensures ConjRows(ops + [op], rows) == ConjEach(op, ConjRows(ops, rows))
  {
    assert (ops + [op])[..|ops|] == ops;
  }

  lemma ConjRowsNone(rows: seq<Pauli>)
    ensures ConjRows([], rows) == rows
  {
  }

  /** Where the rows before are the tableau of a circuit, those after are the tableau of the operator followed by it. */
  ghost predicate FirstOf(n: nat, op: Op, before: seq<Pauli>, after: seq<Pauli>) {
    forall ops :: AllFit(ops, n) && before == TableauOf(n, ops) ==> after == TableauOf(n, [op] + ops)
  }

  lemma PrependBasicFirst(n: nat, op: Op, rows: seq<Pauli>)
    requires op.Basic() && op.Fits(n) && Shaped(rows, n)
    ensures FirstOf(n, op, rows, PrependBasic(rows, n, op))
  {
    forall ops | AllFit(ops, n) && rows == TableauOf(n, ops)
      ensures PrependBasic(rows, n, op) == TableauOf(n, [op] + ops)
    {
      PrependBasicIsFirst(n, op, ops);
    }
  }

  lemma ScriptFirst(n: nat, op: Op, rows: seq<Pauli>)
    requires op.Fits(n) && Shaped(rows, n)
    ensures FirstOf(n, op, rows, PrependAll(rows, n, PrependScript(op)))
  {
    forall ops | AllFit(ops, n) && rows == TableauOf(n, ops)
      ensures PrependAll(rows, n, PrependScript(op)) == TableauOf(n, [op] + ops)
    {
      PrependIsFirst(n, op, ops);
    }
  }

  class StabilizerTableau {
    const n: nat
    var rows: seq<Pauli>

    /** The tableau of the empty circuit. */
    constructor (n: nat)
      ensures this.n == n && rows == Identity(n)
    {
      this.n := n;
      rows := Identity(n);
    }

    constructor Copy(n: nat, rows: seq<Pauli>)
      ensures this.n == n && this.rows == rows
    {
      this.n := n;
      this.rows := rows;
    }

    method ApplyH(q: nat)
      requires Shaped(rows, n)
      modifies this
      ensures rows == ConjEach(H(q), old(rows))
    {
      if q >= n { return; }
      for i := 0 to |rows|
        invariant |rows| == |old(rows)|
        invariant forall j :: 0 <= j < i ==> rows[j] == ConjH(old(rows)[j], q)
        invariant forall j :: i <= j < |rows| ==> rows[j] == old(rows)[j]
      {
        rows := rows[i := ConjH(rows[i], q)];
      }
    }

    method ApplyS(q: nat)
      requires Shaped(rows, n)
      modifies this
      ensures rows == ConjEach(S(q), old(rows))
    {
      if q >= n { return; }
      for i := 0 to |rows|
        invariant |rows| == |old(rows)|
        invariant forall j :: 0 <= j < i ==> rows[j] == ConjS(old(rows)[j], q)
        invariant forall j :: i <= j < |rows| ==> rows[j] == old(rows)[j]
      {
        rows := rows[i := ConjS(rows[i], q)];
      }
    }

    method ApplyCX(c: nat, t: nat)
      requires Shaped(rows, n)
      modifies this
      ensures rows == ConjEach(CX(c, t), old(rows))
    {
      if c >= n || t >= n { return; }
      for i := 0 to |rows|
        invariant |rows| == |old(rows)|
        invariant forall j :: 0 <= j < i ==> rows[j] == ConjCX(old(rows)[j], c, t)
        invariant forall j :: i <= j < |rows| ==> rows[j] == old(rows)[j]
      {
        rows := rows[i := ConjCX(rows[i], c, t)];
      }
    }

    /** Appends one operator, the derived ones through the gates they are made of. */
    method Apply(op: Op)
      requires Shaped(rows, n)
      modifies this
      ensures rows == ConjEach(op, old(rows))
      decreases op.Rank(), 1
    {
      hide ConjH, ConjS, ConjCX;
      match op
      case H(q) => ApplyH(q);
      case S(q) => ApplyS(q);
      case Sdg(q) => ApplyS(q); ApplyS(q); ApplyS(q);
      case Z(q) => ApplyS(q); ApplyS(q);
      case V(q) => ApplyH(q); ApplyS(q); ApplyH(q);
      case Vdg(q) => ApplyH(q); Apply(Sdg(q)); ApplyH(q);
      case X(q) => ApplyH(q); Apply(Z(q)); ApplyH(q);
      case Y(q) => Apply(X(q)); Apply(Z(q));
      case _ => ApplyPair(op);
    }

    method ApplyPair(op: Op)
      requires Shaped(rows, n) && (op.CX? || op.CZ? || op.Swap? || op.Ecr?)
      modifies this
      ensures rows == ConjEach(op, old(rows))
      decreases op.Rank(), 0
    {
      hide ConjH, ConjS, ConjCX, ConjX, ConjV;
      match op
      case CX(c, t) => ApplyCX(c, t);
      case CZ(c, t) => ApplyH(t); ApplyCX(c, t); ApplyH(t);
      case Swap(a, b) => ApplyCX(a, b); ApplyCX(b, a); ApplyCX(a, b);
      case Ecr(c, t) => ApplyCX(c, t); ApplyS(c); Apply(X(c)); Apply(V(t));
    }

    method ApplyAll(ops: seq<Op>)
      requires Shaped(rows, n)
      modifies this
      ensures rows == ConjRows(ops, old(rows))
    {
      for i := 0 to |ops|
        invariant rows == ConjRows(ops[..i], old(rows))
      {
        Apply(ops[i]);
        ConjRowsSnoc(ops[..i], ops[i], old(rows));
        assert ops[..i + 1] == ops[..i] + [ops[i]];
      }
      assert ops[..|ops|] == ops;
    }

    /** Exchanges two rows; on the tableau of a circuit this puts h first. */
    method PrependHGate(q: nat)
      requires Shaped(rows, n)
      modifies this
      ensures rows == PrependH(old(rows), n, q)
      ensures q < n ==> FirstOf(n, H(q), old(rows), rows)
    {
      if q >= n { return; }
      rows := rows[q := rows[n + q]][n + q := rows[q]];
      PrependBasicFirst(n, H(q), old(rows));
    }

    /** Overwrites one row by a product; on the tableau of a circuit this puts s first. */
    method PrependSGate(q: nat)
      requires Shaped(rows, n)
      modifies this
      ensures rows == PrependS(old(rows), n, q)
      ensures q < n ==> FirstOf(n, S(q), old(rows), rows)
    {
      if q >= n { return; }
      rows := rows[n + q := Mul(rows[q], rows[n + q])];
      PrependBasicFirst(n, S(q), old(rows));
    }

    /** Overwrites two rows by products; on the tableau of a circuit this puts the cx first. */
    method PrependCXGate(c: nat, t: nat)
      requires Shaped(rows, n)
      modifies this
      ensures rows == PrependCX(old(rows), n, c, t)
      ensures c < n && t < n && c != t ==> FirstOf(n, CX(c, t), old(rows), rows)
    {
      if c >= n || t >= n { return; }
      rows := rows[t := Mul(rows[c], rows[t])];
      rows := rows[n + c := Mul(rows[n + t], rows[n + c])];
      if c != t { PrependBasicFirst(n, CX(c, t), old(rows)); }
    }

    /** Prepends one operator: on the tableau of a circuit this is the tableau of the operator followed by the circuit. */
    method Prepend(op: Op)
      requires Shaped(rows, n)
      modifies this
      ensures rows == PrependAll(old(rows), n, PrependScript(op))
      ensures op.Fits(n) ==> FirstOf(n, op, old(rows), rows)
    {
      hide FirstOf, PrependScript, PrependH, PrependS, PrependCX;
      var script := PrependScript(op);
      for i := 0 to |script|
        invariant rows == PrependAll(old(rows), n, script[..i])
      {
        match script[i] {
          case H(q) => PrependHGate(q);
          case S(q) => PrependSGate(q);
          case CX(c, t) => PrependCXGate(c, t);
        }
        assert script[..i + 1][..i] == script[..i];
      }
      assert script[..|script|] == script;
      if op.Fits(n) {
        ScriptFirst(n, op, old(rows));
      }
    }
  }

  // ---------- recording appended gates ----------

  predicate DiagonalStabilizers(rows: seq<Pauli>, n: nat) {
    Shaped(rows, n) && forall i, j :: 0 <= i < n && 0 <= j < n ==> !rows[i].ls[j].x
  }

  predicate NoH(ops: seq<Op>) { forall i :: 0 <= i < |ops| ==> !ops[i].H? }

  /** A working copy of a tableau together with the gates applied to it so far. */
  class Recorder {
    const copy: StabilizerTableau
    var ops: seq<Op>
    ghost const start: seq<Pauli>

    ghost predicate Valid()
      reads this, copy
    {
      && Symplectic(start, copy.n)
      && AllFit(ops, copy.n)
      && copy.rows == ConjRows(ops, start)
      && Symplectic(copy.rows, copy.n)
      && (DiagonalStabilizers(start, copy.n) ==> DiagonalStabilizers(copy.rows, copy.n) && NoH(ops))
    }

    constructor (n: nat, rows: seq<Pauli>)
      requires Symplectic(rows, n)
      ensures Valid() && fresh(copy) && start == rows && copy.n == n && copy.rows == rows && ops == []
    {
      copy := new StabilizerTableau.Copy(n, rows);
      ops := [];
      start := rows;
      new;
      ConjRowsNone(rows);
    }

    /** Applies a gate to the copy and records it. */
    method Add(op: Op)
      requires Valid() && op.Fits(copy.n)
      requires op.H? || op.S? || op.CX? || op.X? || op.Z?
      requires op.H? ==> !DiagonalStabilizers(copy.rows, copy.n)
      modifies this, copy
      ensures Valid()
      ensures ops == old(ops) + [op]
      ensures copy.rows == ConjEach(op, old(copy.rows))
    {
      ConjRowsSnoc(ops, op, start);
      SymplecticPreserved(ops + [op], start, copy.n);
      if DiagonalStabilizers(copy.rows, copy.n) {
        DiagonalPreserved(op, copy.rows, copy.n);
      }
      copy.Apply(op);
      ops := ops + [op];
    }
  }

  lemma DiagonalPreserved(op: Op, rows: seq<Pauli>, n: nat)
    requires DiagonalStabilizers(rows, n)
    requires op.S? || op.CX? || op.X? || op.Z?
    ensures DiagonalStabilizers(ConjEach(op, rows), n)
  {
    forall i, j | 0 <= i < n && 0 <= j < n ensures !ConjEach(op, rows)[i].ls[j].x {
      match op
      case X(q) => if q < n { XForm(rows[i], q); }
      case _ =>
    }
  }
}
