/**
 The dependency-forwarding worklist of scripts/gen_handles.py.  Devicetree nodes are named by their dependency ordinals,
 which number the nodes of an acyclic graph so that a node comes after everything it depends on; the root is number 0.
 */
module DeviceGraph {
  const ROOT := 0

  ghost predicate Ordered(depends: seq<set<nat>>) {
    forall n: nat, d: nat :: n < |depends| && d in depends[n] ==> d < n
  }

  /** A step of a dependency path, out of a node that stands for nothing in the application. */
  ghost predicate Link(depends: seq<set<nat>>, used: set<nat>, a: nat, b: nat) {
    a < |depends| && a !in used && a != ROOT && b in depends[a]
  }

  /** A path whose nodes but the last are unused and not the root. */
  ghost predicate Chain(depends: seq<set<nat>>, used: set<nat>, p: seq<nat>) {
    p != [] && forall i :: 0 <= i < |p| - 1 ==> Link(depends, used, p[i], p[i + 1])
  }

  /** `d` is a used node that such a path reaches from a direct dependency of `n`. */
  ghost predicate Requires(depends: seq<set<nat>>, used: set<nat>, n: nat, d: nat) {
    n < |depends| && d in used && exists p: seq<nat> :: Chain(depends, used, p) && p[0] in depends[n] && p[|p| - 1] == d
  }

  // ----- The same by recursion -----

  ghost predicate Via(depends: seq<set<nat>>, used: set<nat>, x: nat, d: nat)
    requires Ordered(depends) && x < |depends|
    decreases x
  {
    if x in used then d == x else x != ROOT && exists y: nat :: y in depends[x] && Via(depends, used, y, d)
  }

  ghost predicate FromAny(depends: seq<set<nat>>, used: set<nat>, work: set<nat>, d: nat)
    requires Ordered(depends) && forall x :: x in work ==> x < |depends|
  {
    exists x: nat :: x in work && Via(depends, used, x, d)
  }

  lemma {:induction false} ViaChain(depends: seq<set<nat>>, used: set<nat>, x: nat, d: nat) returns (p: seq<nat>)
    requires Ordered(depends) && x < |depends| && Via(depends, used, x, d)
    ensures d in used && Chain(depends, used, p) && p[0] == x && p[|p| - 1] == d
    decreases x
  {
    if x in used {
      p := [x];
    } else {
      var y: nat :| y in depends[x] && Via(depends, used, y, d);
      var q := ViaChain(depends, used, y, d);
      p := [x] + q;
      forall i | 0 <= i < |p| - 1 ensures Link(depends, used, p[i], p[i + 1]) {
        if i > 0 {
          assert Link(depends, used, q[i - 1], q[i]);
        }
      }
    }
  }

  lemma {:induction false} ChainVia(depends: seq<set<nat>>, used: set<nat>, p: seq<nat>)
    requires Ordered(depends) && Chain(depends, used, p) && p[0] < |depends| && p[|p| - 1] in used
    ensures Via(depends, used, p[0], p[|p| - 1])
    decreases |p|
  {
    if |p| > 1 {
      assert Link(depends, used, p[0], p[0 + 1]);
      var q := p[1..];
      forall i | 0 <= i < |q| - 1 ensures Link(depends, used, q[i], q[i + 1]) {
        assert Link(depends, used, p[i + 1], p[i + 1 + 1]);
      }
      ChainVia(depends, used, q);
    }
  }

  lemma RequiresIsVia(depends: seq<set<nat>>, used: set<nat>, n: nat, d: nat)
    requires Ordered(depends) && n < |depends|
    ensures Requires(depends, used, n, d) <==> FromAny(depends, used, depends[n], d)
  {
    if Requires(depends, used, n, d) {
      var p: seq<nat> :| Chain(depends, used, p) && p[0] in depends[n] && p[|p| - 1] == d;
      ChainVia(depends, used, p);
    }
    if FromAny(depends, used, depends[n], d) {
      var x: nat :| x in depends[n] && Via(depends, used, x, d);
      var p := ViaChain(depends, used, x, d);
    }
  }

  // ----- Why the worklist runs dry -----

  function Pow2(n: nat): nat { if n == 0 then 1 else 2 * Pow2(n - 1) }

  /** The sum of the powers of two of the members below `n`. */
  function Weight(work: set<nat>, n: nat): nat {
    if n == 0 then 0 else Weight(work, n - 1) + (if n - 1 in work then Pow2(n - 1) else 0)
  }

  lemma {:induction false} WeightBelow(work: set<nat>, n: nat)
    ensures Weight(work, n) < Pow2(n)
  {
    if n > 0 {
      WeightBelow(work, n - 1);
    }
  }

  /** Replacing a node by nodes of lower rank makes the sum smaller, however many they are. */
  lemma {:induction false} WeightDrops(work: set<nat>, x: nat, more: set<nat>, n: nat)
    requires x in work && x < n && forall d :: d in more ==> d < x
    ensures Weight((work - {x}) + more, n) < Weight(work, n)
    decreases n
  {
    if x == n - 1 {
      WeightBelow((work - {x}) + more, n - 1);
    } else {
      WeightDrops(work, x, more, n - 1);
    }
  }

  // ----- The loops -----

  lemma OneRound(depends: seq<set<nat>>, used: set<nat>, before: set<nat>, work: set<nat>, got: set<nat>, found: set<nat>, x: nat, d: nat)
    requires Ordered(depends) && x in before && forall y :: y in before ==> y < |depends|
    requires found == if x in used then got + {x} else got
    requires work == (before - {x}) + (if x !in used && x != ROOT then depends[x] else {})
    ensures forall y :: y in work ==> y < |depends|
    ensures d in found || FromAny(depends, used, work, d) <==> d in got || FromAny(depends, used, before, d)
  {
    if FromAny(depends, used, before, d) {
      var y: nat :| y in before && Via(depends, used, y, d);
      if y == x {
        if x !in used {
          var z: nat :| z in depends[x] && Via(depends, used, z, d);
          assert z in work;
        }
      } else {
        assert y in work;
      }
    }
    if FromAny(depends, used, work, d) {
      var y: nat :| y in work && Via(depends, used, y, d);
      if y !in before {
        assert Via(depends, used, x, d);
      }
    }
  }

  /** Forward the dependencies of one node: whatever the order of taking nodes from the set. */
  method Forward(depends: seq<set<nat>>, used: set<nat>, n: nat) returns (found: set<nat>)
    requires Ordered(depends) && n < |depends|
    ensures forall d: nat :: d in found <==> Requires(depends, used, n, d)
  {
    found := {};
    var work: set<nat> := depends[n];
    while work != {}
      invariant forall x :: x in work ==> x < |depends|
      invariant forall d: nat :: d in found || FromAny(depends, used, work, d) <==> FromAny(depends, used, depends[n], d)
      decreases Weight(work, |depends|)
    {
      var x: nat :| x in work;
      ghost var before, got := work, found;
      WeightDrops(before, x, {}, |depends|);
      WeightDrops(before, x, depends[x], |depends|);
      assert (before - {x}) + {} == before - {x};
      work := work - {x};
      if x in used {
        found := found + {x};
      } else if x != ROOT {
        work := work + depends[x];
      }
      forall d: nat ensures d in found || FromAny(depends, used, work, d) <==> d in got || FromAny(depends, used, before, d) {
        OneRound(depends, used, before, work, got, found, x, d);
      }
    }
    forall d: nat ensures d in found <==> Requires(depends, used, n, d) {
      assert !FromAny(depends, used, {}, d);
      RequiresIsVia(depends, used, n, d);
    }
  }

  /** Every used node gets exactly its required nodes. */
  method ForwardAll(depends: seq<set<nat>>, used: set<nat>) returns (result: map<nat, set<nat>>)
    requires Ordered(depends) && forall n :: n in used ==> n < |depends|
    ensures result.Keys == used
    ensures forall n: nat, d: nat :: n in used ==> (d in result[n] <==> Requires(depends, used, n, d))
  {
    result := map[];
    var todo: set<nat> := used;
    while todo != {}
      invariant todo <= used && result.Keys == used - todo
      invariant forall n: nat, d: nat :: n in result ==> (d in result[n] <==> Requires(depends, used, n, d))
      decreases |todo|
    {
      var n: nat :| n in todo;
      var found := Forward(depends, used, n);
      result := result[n := found];
      todo := todo - {n};
    }
  }
}
