/** Facts about sequences and sets that several modules need. */
module Sequences {

  predicate Distinct(s: seq<nat>) { forall i, j :: 0 <= i < j < |s| ==> s[i] != s[j] }

  function Reversed<T>(s: seq<T>): (r: seq<T>)
    ensures |r| == |s| && forall k :: 0 <= k < |s| ==> r[k] == s[|s| - 1 - k]
  {
    seq(|s|, k requires 0 <= k < |s| => s[|s| - 1 - k])
  }

  lemma InReversed<T>(s: seq<T>, x: T)
    ensures x in Reversed(s) <==> x in s
  {
    if x in s {
      var k :| 0 <= k < |s| && s[k] == x;
      assert Reversed(s)[|s| - 1 - k] == x;
    }
  }

  lemma MultisetWithout<T>(s: seq<T>, i: nat)
    requires i < |s|
    ensures multiset(s) == multiset(s[..i] + s[i + 1..]) + multiset{s[i]}
  {
    assert s == s[..i] + [s[i]] + s[i + 1..];
  }

  /** Where the last element of b stands in a, and what is left of both. */
  lemma Locate<T>(a: seq<T>, b: seq<T>) returns (i: nat)
    requires |b| > 0 && multiset(a) == multiset(b)
    ensures i < |a| && a[i] == b[|b| - 1]
    ensures multiset(a[..i] + a[i + 1..]) == multiset(b[..|b| - 1])
  {
    var k := |b| - 1;
    assert b == b[..k] + [b[k]];
    assert b[k] in multiset(a);
    i :| 0 <= i < |a| && a[i] == b[k];
    MultisetWithout(a, i);
    assert multiset(b) == multiset(b[..k]) + multiset{b[k]};
    assert multiset(a[..i] + a[i + 1..]) == multiset(a) - multiset{b[k]};
    assert multiset(b[..k]) == multiset(b) - multiset{b[k]};
  }

  lemma {:induction false} SubsetSize<T>(a: set<T>, b: set<T>)
    requires a <= b
    ensures |a| <= |b| && (|a| == |b| ==> a == b)
  {
    if a != {} {
      var x :| x in a;
      SubsetSize(a - {x}, b - {x});
      assert a == a - {x} + {x} && b == b - {x} + {x};
    }
  }

  /** A sequence without repetitions is no longer than a set that holds all its members. */
  lemma {:induction false} DistinctBound(s: seq<nat>, vs: set<nat>)
    requires Distinct(s) && forall x :: x in s ==> x in vs
    ensures |s| <= |vs|
  {
    if |s| > 0 {
      var k := |s| - 1;
      assert s[k] !in s[..k];
      DistinctBound(s[..k], vs - {s[k]});
    }
  }
}
