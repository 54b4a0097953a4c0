/** Finite directed graphs on 0..n: Kahn's algorithm as a function, and its three theorems. */
module Digraph {
  import opened Wrappers

  type Arcs = set<(nat, nat)>

  ghost predicate Walk(arcs: Arcs, c: seq<nat>) {
    |c| >= 1 && forall k :: 0 <= k < |c| - 1 ==> (c[k], c[k + 1]) in arcs
  }

  /** A closed walk of at least one arc; a self-loop is one. */
  ghost predicate Cycle(arcs: Arcs, c: seq<nat>) {
    |c| >= 2 && Walk(arcs, c) && c[0] == c[|c| - 1]
  }

  ghost predicate Acyclic(arcs: Arcs) {
    forall c :: !Cycle(arcs, c)
  }

  ghost predicate Within(n: nat, arcs: Arcs) {
    forall a :: a in arcs ==> a.0 < n && a.1 < n
  }

  /** Every arc into a listed node comes from a node listed earlier. */
  ghost predicate Forward(arcs: Arcs, order: seq<nat>) {
    forall a, k :: a in arcs && 0 <= k < |order| && order[k] == a.1 ==> a.0 in order[..k]
  }

  /** A permutation of the nodes along which every arc goes forward. */
  ghost predicate Topological(n: nat, arcs: Arcs, order: seq<nat>) {
    && |order| == n && Distinct(order) && (forall v :: v in order <==> 0 <= v < n)
    && Forward(arcs, order)
  }

  /** `a` comes before `b`, or is `b`, in the lexicographic order. */
  ghost predicate LexLeq(a: seq<nat>, b: seq<nat>) {
    a == b || exists k :: 0 <= k < |a| && k < |b| && a[..k] == b[..k] && a[k] < b[k]
  }

  predicate Ready(n: nat, arcs: Arcs, done: seq<nat>, v: nat) {
    v < n && v !in done && forall a | a in arcs :: a.1 == v ==> a.0 in done
  }

  /** The least ready node from `from` on, or n. */
  function Least(n: nat, arcs: Arcs, done: seq<nat>, from: nat): (v: nat)
    requires from <= n
    ensures from <= v <= n && (v < n ==> Ready(n, arcs, done, v))
    ensures forall u :: from <= u < v ==> !Ready(n, arcs, done, u)
    decreases n - from
  {
    if from == n then n
    else if Ready(n, arcs, done, from) then from
    else Least(n, arcs, done, from + 1)
  }

  ghost predicate Started(n: nat, arcs: Arcs, done: seq<nat>) {
    Distinct(done) && (forall v :: v in done ==> v < n) && Forward(arcs, done)
  }

  /** Repeatedly take the least node all of whose predecessors are taken. */
  function Kahn(n: nat, arcs: Arcs, done: seq<nat>): (order: seq<nat>)
    requires Started(n, arcs, done)
    ensures Started(n, arcs, order) && done <= order && Least(n, arcs, order, 0) == n
    decreases n - |done|
  {
    Pigeonhole(n, done);
    var v := Least(n, arcs, done, 0);
    if v == n then done
    else
      Grow(n, arcs, done, v);
      Pigeonhole(n, done + [v]);
      Kahn(n, arcs, done + [v])
  }

  lemma Grow(n: nat, arcs: Arcs, done: seq<nat>, v: nat)
    requires Started(n, arcs, done) && Ready(n, arcs, done, v)
    ensures Started(n, arcs, done + [v])
  {
    var order := done + [v];
    forall a, k | a in arcs && 0 <= k < |order| && order[k] == a.1 ensures a.0 in order[..k] {
      if k < |done| {
        assert order[..k] == done[..k];
      } else {
        assert order[..k] == done;
      }
    }
  }

  /** Distinct numbers below n are at most n many, and all of them when n many. */
  lemma {:induction false} Pigeonhole(n: nat, s: seq<nat>)
    requires Distinct(s) && forall v :: v in s ==> v < n
    ensures |s| <= n
    ensures |s| == n ==> forall v :: 0 <= v < n ==> v in s
    decreases n
  {
    assert |s| > 0 ==> s[0] in s;
    if n > 0 {
      var m: nat := n - 1;
      if m in s {
        var k :| 0 <= k < |s| && s[k] == m;
        var rest := s[..k] + s[k + 1..];
        forall v | v in rest ensures v < m && v in s {
          var j :| 0 <= j < |rest| && rest[j] == v;
          var l := if j < k then j else j + 1;
          assert v == s[l] && s[l] in s && s[l] != s[k] && m == n - 1;
        }
        Pigeonhole(m, rest);
      } else {
        forall v | v in s ensures v < m {}
        Pigeonhole(m, s);
      }
    }
  }

  // ---------------------------------------------------------------- complete exactly when acyclic

  /** Along a complete order, a walk only moves forward. */
  lemma {:induction false} WalkMovesForward(n: nat, arcs: Arcs, order: seq<nat>, c: seq<nat>, i: nat, j: nat)
    requires Topological(n, arcs, order) && Walk(arcs, c) && |c| >= 2
    requires i < n && j < n && order[i] == c[0] && order[j] == c[|c| - 1]
    ensures i < j
    decreases |c|
  {
    var k :| 0 <= k < |order[..j]| && order[..j][k] == c[|c| - 2] by {
      assert (c[|c| - 2], c[|c| - 1]) in arcs;
    }
    if |c| > 2 {
      WalkMovesForward(n, arcs, order, c[..|c| - 1], i, k);
    }
  }

  lemma OrderedIsAcyclic(n: nat, arcs: Arcs, order: seq<nat>)
    requires Within(n, arcs) && Topological(n, arcs, order)
    ensures Acyclic(arcs)
  {
    forall c ensures !Cycle(arcs, c) {
      if Cycle(arcs, c) {
        assert (c[0], c[1]) in arcs;
        assert c[0] in order;
        var i :| 0 <= i < |order| && order[i] == c[0];
        WalkMovesForward(n, arcs, order, c, i, i);
      }
    }
  }

  /** While nodes are left but none is ready, walks inside the rest can be prolonged backwards. */
  lemma {:induction false} StuckWalk(n: nat, arcs: Arcs, done: seq<nat>, v: nat, length: nat) returns (c: seq<nat>)
    requires Within(n, arcs) && Least(n, arcs, done, 0) == n && v < n && v !in done
    ensures |c| == length + 1 && Walk(arcs, c) && forall k :: 0 <= k < |c| ==> c[k] < n && c[k] !in done
  {
    if length == 0 {
      c := [v];
    } else {
      var rest := StuckWalk(n, arcs, done, v, length - 1);
      assert !Ready(n, arcs, done, rest[0]);
      var a :| a in arcs && a.1 == rest[0] && a.0 !in done;
      c := [a.0] + rest;
    }
  }

  lemma {:induction false} Repeats(n: nat, c: seq<nat>) returns (i: nat, j: nat)
    requires |c| > n && forall k :: 0 <= k < |c| ==> c[k] < n
    ensures i < j < |c| && c[i] == c[j]
  {
    if Distinct(c) {
      Pigeonhole(n, c);
      assert false;
    }
    i, j :| 0 <= i < j < |c| && c[i] == c[j];
  }

  lemma StuckHasCycle(n: nat, arcs: Arcs, done: seq<nat>, v: nat)
    requires Within(n, arcs) && Least(n, arcs, done, 0) == n && v < n && v !in done
    ensures !Acyclic(arcs)
  {
    var c := StuckWalk(n, arcs, done, v, n);
    var i, j := Repeats(n, c);
    assert Cycle(arcs, c[i..j + 1]);
  }

  /** Kahn's order is complete exactly on acyclic graphs, and then it is topological. */
  lemma KahnIsCompleteIffAcyclic(n: nat, arcs: Arcs)
    requires Within(n, arcs)
    ensures var order := Kahn(n, arcs, []);
      && (|order| == n <==> Acyclic(arcs))
      && (|order| == n ==> Topological(n, arcs, order))
  {
    var order := Kahn(n, arcs, []);
    Pigeonhole(n, order);
    if |order| == n {
      OrderedIsAcyclic(n, arcs, order);
    } else {
      Missing(n, order);
      var v :| 0 <= v < n && v !in order;
      StuckHasCycle(n, arcs, order, v);
    }
  }

  lemma {:induction false} Missing(n: nat, s: seq<nat>)
    requires |s| < n
    ensures exists v :: 0 <= v < n && v !in s
  {
    if forall v :: 0 <= v < n ==> v in s {
      var all := seq(n, k requires 0 <= k < n => k);
      var positions := seq(n, k requires 0 <= k < n => Position(s, k));
      forall i, j | 0 <= i < j < n ensures positions[i] != positions[j] {
        assert s[positions[i]] == i && s[positions[j]] == j;
      }
      Pigeonhole(|s|, positions);
      assert false;
    }
  }

  ghost function Position(s: seq<nat>, v: nat): (k: nat)
    requires v in s
    ensures k < |s| && s[k] == v
  {
    var k :| 0 <= k < |s| && s[k] == v;
    k
  }

  // ---------------------------------------------------------------- the lexicographically least

  lemma {:induction false} KahnIsLeast(n: nat, arcs: Arcs, done: seq<nat>, other: seq<nat>)
    requires Started(n, arcs, done) && Topological(n, arcs, other) && done <= other
    ensures LexLeq(Kahn(n, arcs, done), other)
    decreases n - |done|
  {
    Pigeonhole(n, done);
    var v := Least(n, arcs, done, 0);
    if |done| < n {
      var w := other[|done|];
      assert w in other && other[..|done|] == done;
      assert Ready(n, arcs, done, w);
      Grow(n, arcs, done, v);
      Pigeonhole(n, done + [v]);
      if w == v {
        KahnIsLeast(n, arcs, done + [v], other);
      } else {
        var order := Kahn(n, arcs, done + [v]);
        assert order[|done|] == (done + [v])[|done|] == v;
        assert order[..|done|] == done == other[..|done|];
      }
    } else {
      assert forall u :: 0 <= u < n ==> u in done;
    }
  }

  /** Of all topological orders, Kahn's comes first. */
  lemma KahnIsLexicographicallyLeast(n: nat, arcs: Arcs, other: seq<nat>)
    requires Topological(n, arcs, other)
    ensures LexLeq(Kahn(n, arcs, []), other)
  {
    KahnIsLeast(n, arcs, [], other);
  }
}
