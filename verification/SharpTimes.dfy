/**
 Operations without idle time: every one starts at the moment one of its qubits becomes free.
 Together with the rule that operations on one qubit do not overlap, none could start earlier.
 */
module SharpTimes {
  import opened TimedReplay

  /** The qubit becomes free at the given time: it was occupied until then, or an operation on it ends then. */
  predicate FreedAt(occupied: seq<nat>, ops: seq<Operation>, q: nat, time: nat) {
    (q < |occupied| && occupied[q] == time) || exists i :: 0 <= i < |ops| && EndsOn(ops[i], q, time)
  }

  predicate EndsOn(op: Operation, q: nat, time: nat) { q in op.Qubits() && op.end == time }

  /** The operation starts when one of its qubits becomes free. */
  predicate StartsSharp(occupied: seq<nat>, ops: seq<Operation>, op: Operation) {
    exists k :: 0 <= k < |op.Qubits()| && FreedAt(occupied, ops, op.Qubits()[k], op.start)
  }

  predicate Sharp(occupied: seq<nat>, ops: seq<Operation>) {
    forall i :: 0 <= i < |ops| ==> StartsSharp(occupied, ops, ops[i])
  }

  lemma FreedMore(occupied: seq<nat>, ops: seq<Operation>, all: seq<Operation>, q: nat, time: nat)
    requires FreedAt(occupied, ops, q, time) && forall op :: op in ops ==> op in all
    ensures FreedAt(occupied, all, q, time)
  {
    if i :| 0 <= i < |ops| && EndsOn(ops[i], q, time) {
      assert ops[i] in all;
    }
  }

  /** Being sharp does not depend on the order of the list. */
  lemma SharpAnyOrder(occupied: seq<nat>, ops: seq<Operation>, ops': seq<Operation>)
    requires Sharp(occupied, ops) && multiset(ops') == multiset(ops)
    ensures Sharp(occupied, ops')
  {
    forall op ensures op in ops <==> op in ops' {
      assert op in multiset(ops) <==> op in multiset(ops');
    }
    forall i | 0 <= i < |ops'| ensures StartsSharp(occupied, ops', ops'[i]) {
      assert ops'[i] in ops;
      var j :| 0 <= j < |ops| && ops[j] == ops'[i];
      assert StartsSharp(occupied, ops, ops[j]);
      var k :| 0 <= k < |ops[j].Qubits()| && FreedAt(occupied, ops, ops[j].Qubits()[k], ops[j].start);
      FreedMore(occupied, ops, ops', ops[j].Qubits()[k], ops[j].start);
    }
  }

  /** A qubit is busy until the last operation on it ends. */
  lemma {:induction false} BusyUntil(s: Sim, ops: seq<Operation>, q: nat)
    requires SimOk(s, |s.map_|) && AllFit(ops, |s.map_|) && q < |s.map_|
    ensures FreedAt(s.busy, ops, q, Run(s, ops).busy[q])
  {
    if |ops| > 0 {
      var k := |ops| - 1;
      BusyUntil(s, ops[..k], q);
      if q in ops[k].Qubits() {
        assert EndsOn(ops[k], q, Run(s, ops).busy[q]);
      } else {
        FreedMore(s.busy, ops[..k], ops, q, Run(s, ops[..k]).busy[q]);
      }
    }
  }

  lemma FreedEarlier(s: Sim, ops: seq<Operation>, more: seq<Operation>, q: nat, time: nat)
    requires SimOk(s, |s.map_|) && AllFit(ops, |s.map_|) && FreedAt(Run(s, ops).busy, more, q, time)
    ensures FreedAt(s.busy, ops + more, q, time)
  {
    if q < |s.map_| && Run(s, ops).busy[q] == time {
      BusyUntil(s, ops, q);
      FreedMore(s.busy, ops, ops + more, q, time);
    } else {
      var i :| 0 <= i < |more| && EndsOn(more[i], q, time);
      assert (ops + more)[|ops| + i] == more[i];
    }
  }

  /** Operations that are sharp after those before them make the whole list sharp. */
  lemma SharpGrows(s: Sim, ops: seq<Operation>, more: seq<Operation>)
    requires SimOk(s, |s.map_|) && AllFit(ops, |s.map_|)
    requires Sharp(s.busy, ops) && Sharp(Run(s, ops).busy, more)
    ensures Sharp(s.busy, ops + more)
  {
    var all := ops + more;
    forall i | 0 <= i < |all| ensures StartsSharp(s.busy, all, all[i]) {
      if i < |ops| {
        assert StartsSharp(s.busy, ops, ops[i]);
        var k :| 0 <= k < |ops[i].Qubits()| && FreedAt(s.busy, ops, ops[i].Qubits()[k], ops[i].start);
        FreedMore(s.busy, ops, all, ops[i].Qubits()[k], ops[i].start);
      } else {
        var op := more[i - |ops|];
        assert StartsSharp(Run(s, ops).busy, more, op);
        var k :| 0 <= k < |op.Qubits()| && FreedAt(Run(s, ops).busy, more, op.Qubits()[k], op.start);
        FreedEarlier(s, ops, more, op.Qubits()[k], op.start);
      }
    }
  }
}
