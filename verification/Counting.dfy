/** Queues without repetition, and how long they can get. */
module Counting {
  import opened KernelSpec

  predicate Distinct(q: seq<nat>) {
    forall i, j :: 0 <= i < j < |q| ==> q[i] != q[j]
  }

  function Below(n: nat): (r: set<nat>)
    ensures |r| == n
    ensures forall x: nat :: x in r <==> x < n
  {
    if n == 0 then {} else
      var r := Below(n - 1);
      assert n - 1 !in r;
      r + {n - 1}
  }

  function Elements(q: seq<nat>): (r: set<nat>)
    ensures forall x: nat :: x in r <==> x in q
  {
    set x | x in q
  }

  lemma {:induction false} DistinctSize(q: seq<nat>)
    requires Distinct(q)
    ensures |Elements(q)| == |q|
  {
    if q != [] {
      var init := q[..|q| - 1];
      DistinctSize(init);
      assert Elements(q) == Elements(init) + {q[|q| - 1]};
    }
  }

  lemma {:induction false} SubsetSize(a: set<nat>, b: set<nat>)
    requires a <= b
    ensures |a| <= |b|
    ensures a != b ==> |a| < |b|
  {
    if a != {} {
      var x :| x in a;
      SubsetSize(a - {x}, b - {x});
    }
  }

  /** A queue of distinct indices below `n` that misses `k` is shorter than `n`. */
  lemma Pigeonhole(q: seq<nat>, n: nat, k: nat)
    requires Distinct(q)
    requires forall x :: x in q ==> x < n
    requires k < n && k !in q
    ensures |q| < n
  {
    DistinctSize(q);
    SubsetSize(Elements(q), Below(n));
    assert k in Below(n) && k !in Elements(q);
  }

  lemma {:induction false} RemoveAllMembers(q: seq<nat>, x: nat)
    ensures forall y :: y in RemoveAll(q, x) <==> y in q && y != x
    ensures Distinct(q) ==> Distinct(RemoveAll(q, x))
    ensures |RemoveAll(q, x)| <= |q|
  {
    if q != [] {
      var init := q[..|q| - 1];
      RemoveAllMembers(init, x);
      assert forall y :: y in q <==> y in init || y == q[|q| - 1];
      var rest := RemoveAll(init, x);
      if Distinct(q) && q[|q| - 1] != x {
        assert q[|q| - 1] !in init;
        assert Distinct(rest) && q[|q| - 1] !in rest;
        assert Distinct(rest + [q[|q| - 1]]);
      }
    }
  }

  lemma {:induction false} RemoveAllAbsent(q: seq<nat>, x: nat)
    requires x !in q
    ensures RemoveAll(q, x) == q
  {
    if q != [] {
      RemoveAllAbsent(q[..|q| - 1], x);
      assert q == q[..|q| - 1] + [q[|q| - 1]];
    }
  }

  lemma SwapRemoveMembers(q: seq<nat>, pos: nat)
    requires pos < |q| && Distinct(q)
    ensures Distinct(SwapRemove(q, pos))
    ensures forall y :: y in SwapRemove(q, pos) <==> y in q && y != q[pos]
  {
    var r := SwapRemove(q, pos);
    forall y | y in q && y != q[pos] ensures y in r {
      var k :| 0 <= k < |q| && q[k] == y;
      assert r[if k == |q| - 1 then pos else k] == y;
    }
    forall y | y in r ensures y in q && y != q[pos] {
      var k :| 0 <= k < |r| && r[k] == y;
    }
  }

  lemma {:induction false} SwapPurgeMembers(q: seq<nat>, x: nat, pos: nat)
    requires Distinct(q) && forall k :: 0 <= k < pos && k < |q| ==> q[k] != x
    ensures Distinct(SwapPurge(q, x, pos))
    ensures forall y :: y in SwapPurge(q, x, pos) <==> y in q && y != x
    ensures |SwapPurge(q, x, pos)| <= |q|
    decreases |q| - pos
  {
    if pos < |q| {
      if q[pos] == x {
        SwapRemoveMembers(q, pos);
        SwapPurgeMembers(SwapRemove(q, pos), x, pos);
      } else {
        SwapPurgeMembers(q, x, pos + 1);
      }
    }
  }

  /** Swap-removal leaves a line alone that does not hold the task. */
  lemma {:induction false} SwapPurgeAbsent(q: seq<nat>, x: nat, pos: nat)
    requires x !in q
    ensures SwapPurge(q, x, pos) == q
    decreases |q| - pos
  {
    if pos < |q| {
      SwapPurgeAbsent(q, x, pos + 1);
    }
  }
}
