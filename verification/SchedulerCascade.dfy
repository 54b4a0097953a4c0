/** The skip cascade (`skip_node`, `deactivate_outgoing`, `deactivate_edge`) computes a least
    fixpoint: it ends on any graph, skips what has to be skipped and nothing else, and what it
    settles does not depend on the order in which edges are listed. */
module SchedulerCascade {
  import opened Wrappers
  import opened Workflow
  import opened SchedulerSpec

  /** Readiness looks at these fields only. */
  ghost predicate SameMarks(s: State, t: State) {
    && s.activations == t.activations && s.fired == t.fired && s.seeds == t.seeds
    && s.tokens == t.tokens && s.freshData == t.freshData
  }

  ghost predicate Blocks(g: Layer, s: State, inactive: set<nat>, i: nat)
    requires Flat(g) && Sized(g, s) && i < |g.nodes|
  {
    Evaluate(g, s.(inactive := inactive), i) == Blocked
  }

  lemma SameReadiness(g: Layer, s: State, t: State, i: nat)
    requires Flat(g) && Sized(g, s) && Sized(g, t) && i < |g.nodes|
    requires SameMarks(s, t) && forall e :: e in g.incoming[i] ==> (e in s.inactive <==> e in t.inactive)
    ensures Evaluate(g, s, i) == Evaluate(g, t, i)
  {
  }

  /** For a node that never ran, more inactive edges never lift a block. */
  lemma BlockedMonotone(g: Layer, s: State, less: set<nat>, more: set<nat>, i: nat)
    requires Flat(g) && Sized(g, s) && i < |g.nodes| && s.activations[i] == 0
    requires less <= more && Blocks(g, s, less, i)
    ensures Blocks(g, s, more, i)
  {
  }

  /** A pair of sets that answers every demand made by deactivating `es` in `s`. */
  ghost predicate Closed(g: Layer, s: State, es: seq<nat>, settled: set<nat>, inactive: set<nat>)
    requires Flat(g) && Sized(g, s)
  {
    && s.settled <= settled && s.inactive <= inactive
    && (forall e :: e in es ==> e in inactive)
    && (forall i, e :: i in settled && i !in s.settled && i < |g.nodes| && e in g.outgoing[i] ==> e in inactive)
    && (forall i :: 0 <= i < |g.nodes| && i !in settled && s.activations[i] == 0 && LostEdge(g, s, inactive, i)
          ==> !Blocks(g, s, inactive, i))
  }

  /** Some edge into `i` became inactive. */
  ghost predicate LostEdge(g: Layer, s: State, inactive: set<nat>, i: nat)
    requires Flat(g) && i < |g.nodes|
  {
    exists e :: e in g.incoming[i] && e in inactive && e !in s.inactive
  }

  // ---------------------------------------------------------------- nothing too much

  /** `t` is on the way from `s`, inside the closed pair. */
  ghost predicate Within(g: Layer, s: State, t: State, settled: set<nat>, inactive: set<nat>) {
    && SameMarks(s, t) && s.settled <= t.settled && s.inactive <= t.inactive
    && t.settled <= settled && t.inactive <= inactive
  }

  lemma {:induction false} AllWithin(g: Layer, s: State, t: State, es: seq<nat>, fs: seq<nat>, settled: set<nat>,
      inactive: set<nat>)
    requires Flat(g) && Sized(g, s) && Sized(g, t) && EdgesOf(g, fs)
    requires Closed(g, s, es, settled, inactive) && Within(g, s, t, settled, inactive)
    requires forall k :: 0 <= k < |fs| ==> fs[k] in inactive
    ensures Within(g, s, DeactivateAll(g, t, fs), settled, inactive)
    decreases |Unsettled(g, t)|, 2, |fs|
  {
    if fs != [] {
      var t1 := DeactivateEdge(g, t, fs[0]);
      EdgeWithin(g, s, t, es, fs[0], settled, inactive);
      SubsetCardinality(Unsettled(g, t1), Unsettled(g, t));
      AllWithin(g, s, t1, es, fs[1..], settled, inactive);
    }
  }

  lemma {:induction false} EdgeWithin(g: Layer, s: State, t: State, es: seq<nat>, f: nat, settled: set<nat>,
      inactive: set<nat>)
    requires Flat(g) && Sized(g, s) && Sized(g, t) && f < |g.edges|
    requires Closed(g, s, es, settled, inactive) && Within(g, s, t, settled, inactive) && f in inactive
    ensures Within(g, s, DeactivateEdge(g, t, f), settled, inactive)
    decreases |Unsettled(g, t)|, 1, 0
  {
    if f !in t.inactive {
      var t1 := t.(inactive := t.inactive + {f});
      var i := g.edges[f].target;
      if i !in t.settled && t.activations[i] == 0 && Evaluate(g, t1, i) == Blocked {
        SameReadiness(g, t1, s.(inactive := t1.inactive), i);
        BlockedMonotone(g, s, t1.inactive, inactive, i);
        assert f in g.incoming[i];
        assert LostEdge(g, s, inactive, i);
        assert i in settled;
        SkipWithin(g, s, t1, es, i, settled, inactive);
      }
    }
  }

  lemma {:induction false} SkipWithin(g: Layer, s: State, t: State, es: seq<nat>, i: nat, settled: set<nat>,
      inactive: set<nat>)
    requires Flat(g) && Sized(g, s) && Sized(g, t) && i < |g.nodes| && i in settled && i !in t.settled
    requires Closed(g, s, es, settled, inactive) && Within(g, s, t, settled, inactive)
    ensures Within(g, s, SkipNode(g, t, i, NoActiveInput), settled, inactive)
    decreases |Unsettled(g, t)|, 0, 0
  {
    var t1 := MarkSkipped(t, i, NoActiveInput);
    assert i in Unsettled(g, t) && i !in Unsettled(g, t1);
    SubsetCardinality(Unsettled(g, t1), Unsettled(g, t));
    forall k | 0 <= k < |Out(g, i)| ensures Out(g, i)[k] in inactive {
      assert Out(g, i)[k] in g.outgoing[i];
    }
    AllWithin(g, s, t1, es, Out(g, i), settled, inactive);
  }

  // ---------------------------------------------------------------- nothing too little

  /** No never-run node that lost an edge since `s` is left blocked, `but` perhaps one. */
  ghost predicate NoneBlocked(g: Layer, s: State, t: State, but: set<nat>)
    requires Flat(g) && Sized(g, t)
  {
    forall i ::
      0 <= i < |g.nodes| && i !in but && i !in t.settled && t.activations[i] == 0 && LostEdge(g, s, t.inactive, i)
      ==> Evaluate(g, t, i) != Blocked
  }

  /** Every node settled on the way from `t` to `u` was never run, lost an edge, blocked, and
      has all its edges inactive. */
  ghost predicate Forced(g: Layer, s: State, t: State, u: State)
    requires Flat(g) && Sized(g, u)
  {
    && t.inactive <= u.inactive && t.settled <= u.settled && SameMarks(t, u)
    && (forall i, e :: i in u.settled && i !in t.settled && i < |g.nodes| && e in g.outgoing[i] ==> e in u.inactive)
    && (forall i :: i in u.settled && i !in t.settled ==>
          i < |g.nodes| && u.activations[i] == 0 && LostEdge(g, s, u.inactive, i) && Evaluate(g, u, i) == Blocked)
  }

  lemma ForcedTransitive(g: Layer, s: State, t: State, u: State, v: State)
    requires Flat(g) && Sized(g, t) && Sized(g, u) && Sized(g, v)
    requires Forced(g, s, t, u) && Forced(g, s, u, v)
    ensures Forced(g, s, t, v)
  {
    forall i | i in v.settled && i !in t.settled
      ensures i < |g.nodes| && v.activations[i] == 0 && LostEdge(g, s, v.inactive, i) && Evaluate(g, v, i) == Blocked
    {
      if i in u.settled {
        StillBlocked(g, s, u, v, i);
      }
    }
  }

  /** What is blocked and cut off stays so while more edges go inactive. */
  lemma StillBlocked(g: Layer, s: State, u: State, v: State, i: nat)
    requires Flat(g) && Sized(g, u) && Sized(g, v) && i < |g.nodes| && u.activations[i] == 0
    requires SameMarks(u, v) && u.inactive <= v.inactive
    requires LostEdge(g, s, u.inactive, i) && Evaluate(g, u, i) == Blocked
    ensures LostEdge(g, s, v.inactive, i) && Evaluate(g, v, i) == Blocked
  {
  }

  lemma {:induction false} AllForced(g: Layer, s: State, t: State, fs: seq<nat>)
    requires Flat(g) && Sized(g, t) && EdgesOf(g, fs)
    requires s.inactive <= t.inactive && NoneBlocked(g, s, t, {})
    ensures var u := DeactivateAll(g, t, fs);
      NoneBlocked(g, s, u, {}) && Forced(g, s, t, u) && forall k :: 0 <= k < |fs| ==> fs[k] in u.inactive
    decreases |Unsettled(g, t)|, 2, |fs|
  {
    if fs != [] {
      var t1 := DeactivateEdge(g, t, fs[0]);
      EdgeForced(g, s, t, fs[0]);
      SubsetCardinality(Unsettled(g, t1), Unsettled(g, t));
      AllForced(g, s, t1, fs[1..]);
      var u := DeactivateAll(g, t1, fs[1..]);
      ForcedTransitive(g, s, t, t1, u);
      forall k | 0 <= k < |fs| ensures fs[k] in u.inactive {
        if k > 0 { assert fs[k] == fs[1..][k - 1]; }
      }
    }
  }

  lemma {:induction false} EdgeForced(g: Layer, s: State, t: State, f: nat)
    requires Flat(g) && Sized(g, t) && f < |g.edges|
    requires s.inactive <= t.inactive && NoneBlocked(g, s, t, {})
    ensures var u := DeactivateEdge(g, t, f);
      NoneBlocked(g, s, u, {}) && Forced(g, s, t, u) && f in u.inactive
    decreases |Unsettled(g, t)|, 1, 0
  {
    if f !in t.inactive {
      var t1 := t.(inactive := t.inactive + {f});
      var i := g.edges[f].target;
      assert f in g.incoming[i];
      forall j | 0 <= j < |g.nodes| && j != i && j !in t1.settled && t1.activations[j] == 0 &&
        LostEdge(g, s, t1.inactive, j)
        ensures Evaluate(g, t1, j) != Blocked
      {
        assert f !in g.incoming[j];
        assert LostEdge(g, s, t.inactive, j);
        SameReadiness(g, t, t1, j);
      }
      assert NoneBlocked(g, s, t1, {i});
      if i !in t.settled && t.activations[i] == 0 && Evaluate(g, t1, i) == Blocked {
        assert LostEdge(g, s, t1.inactive, i);
        SkipForced(g, s, t1, i);
      }
    }
  }

  lemma {:induction false} SkipForced(g: Layer, s: State, t: State, i: nat)
    requires Flat(g) && Sized(g, t) && i < |g.nodes| && i !in t.settled && t.activations[i] == 0
    requires s.inactive <= t.inactive && NoneBlocked(g, s, t, {i})
    requires LostEdge(g, s, t.inactive, i) && Evaluate(g, t, i) == Blocked
    ensures var u := SkipNode(g, t, i, NoActiveInput);
      NoneBlocked(g, s, u, {}) && Forced(g, s, t, u)
    decreases |Unsettled(g, t)|, 0, 0
  {
    hide Evaluate;
    var t1 := MarkSkipped(t, i, NoActiveInput);
    assert i in Unsettled(g, t) && i !in Unsettled(g, t1);
    SubsetCardinality(Unsettled(g, t1), Unsettled(g, t));
    forall j | 0 <= j < |g.nodes| && j !in t1.settled && t1.activations[j] == 0 && LostEdge(g, s, t1.inactive, j)
      ensures Evaluate(g, t1, j) != Blocked
    {
      SameReadiness(g, t, t1, j);
    }
    AllForced(g, s, t1, Out(g, i));
    var u := DeactivateAll(g, t1, Out(g, i));
    StillBlocked(g, s, t, u, i);
    forall e | e in g.outgoing[i] ensures e in u.inactive {
      var k :| 0 <= k < |Out(g, i)| && Out(g, i)[k] == e;
    }
  }

  // ---------------------------------------------------------------- the fixpoint

  /** Deactivating `es` settles exactly the least closed pair, and every node it skips was
      never run, lost an edge to the cascade and is blocked in the end. */
  lemma CascadeIsLeastFixpoint(g: Layer, s: State, es: seq<nat>)
    requires Flat(g) && Sized(g, s) && EdgesOf(g, es)
    ensures var t := DeactivateAll(g, s, es);
      && Closed(g, s, es, t.settled, t.inactive)
      && (forall settled, inactive :: Closed(g, s, es, settled, inactive) ==>
        t.settled <= settled && t.inactive <= inactive)
      && (forall i :: i in t.settled && i !in s.settled ==>
            i < |g.nodes| && s.activations[i] == 0 && LostEdge(g, s, t.inactive, i) && Blocks(g, s, t.inactive, i))
  {
    var t := DeactivateAll(g, s, es);
    AllForced(g, s, s, es);
    forall i | 0 <= i < |g.nodes| ensures Blocks(g, s, t.inactive, i) == (Evaluate(g, t, i) == Blocked) {
      SameReadiness(g, t, s.(inactive := t.inactive), i);
    }
    forall e | e in es ensures e in t.inactive {
      var k :| 0 <= k < |es| && es[k] == e;
    }
    forall settled, inactive | Closed(g, s, es, settled, inactive)
      ensures t.settled <= settled && t.inactive <= inactive
    {
      AllWithin(g, s, s, es, es, settled, inactive);
    }
  }

  /** Two layers with the same nodes and edges, listed in any order. */
  ghost predicate SameGraph(g: Layer, h: Layer) {
    Flat(g) && Flat(h) && g.nodes == h.nodes && g.edges == h.edges
  }

  lemma SameLists(g: Layer, h: Layer, i: nat)
    requires SameGraph(g, h) && i < |g.nodes|
    ensures forall e :: e in g.incoming[i] <==> e in h.incoming[i]
    ensures forall e :: e in g.outgoing[i] <==> e in h.outgoing[i]
    ensures g.incoming[i] == [] <==> h.incoming[i] == []
  {
    if g.incoming[i] != [] {
      assert g.incoming[i][0] in g.incoming[i];
      assert g.incoming[i][0] in h.incoming[i];
    }
    if h.incoming[i] != [] {
      assert h.incoming[i][0] in h.incoming[i];
      assert h.incoming[i][0] in g.incoming[i];
    }
  }

  lemma SameEvaluation(g: Layer, h: Layer, s: State, i: nat)
    requires SameGraph(g, h) && Sized(g, s) && i < |g.nodes|
    ensures Evaluate(g, s, i) == Evaluate(h, s, i)
  {
    SameLists(g, h, i);
    assert RequiredInactive(g, s, i) == RequiredInactive(h, s, i);
    assert HasControl(g, s, i) == HasControl(h, s, i);
    assert ControlToken(g, s, i) == ControlToken(h, s, i);
    assert AnyData(g, s, i) == AnyData(h, s, i);
    assert AnyFresh(g, s, i) == AnyFresh(h, s, i);
    assert DataPending(g, s, i) == DataPending(h, s, i);
    assert ActivePath(g, s, i) == ActivePath(h, s, i);
  }

  lemma SameClosed(g: Layer, h: Layer, s: State, es: seq<nat>, fs: seq<nat>, settled: set<nat>, inactive: set<nat>)
    requires SameGraph(g, h) && Sized(g, s) && forall e :: e in es <==> e in fs
    requires Closed(g, s, es, settled, inactive)
    ensures Closed(h, s, fs, settled, inactive)
  {
    forall i, e | i in settled && i !in s.settled && i < |h.nodes| && e in h.outgoing[i] ensures e in inactive {
      SameLists(g, h, i);
    }
    forall i | 0 <= i < |h.nodes| && i !in settled && s.activations[i] == 0 && LostEdge(h, s, inactive, i)
      ensures !Blocks(h, s, inactive, i)
    {
      SameLists(g, h, i);
      SameEvaluation(g, h, s.(inactive := inactive), i);
      assert LostEdge(g, s, inactive, i);
    }
  }

  /** What a cascade settles and deactivates does not depend on how the adjacency lists, or the
      edges it starts from, are ordered. */
  lemma CascadeIsOrderIndependent(g: Layer, h: Layer, s: State, es: seq<nat>, fs: seq<nat>)
    requires SameGraph(g, h) && Sized(g, s) && EdgesOf(g, es) && EdgesOf(h, fs)
    requires forall e :: e in es <==> e in fs
    ensures DeactivateAll(g, s, es).settled == DeactivateAll(h, s, fs).settled
    ensures DeactivateAll(g, s, es).inactive == DeactivateAll(h, s, fs).inactive
  {
    var t, u := DeactivateAll(g, s, es), DeactivateAll(h, s, fs);
    CascadeIsLeastFixpoint(g, s, es);
    CascadeIsLeastFixpoint(h, s, fs);
    SameClosed(g, h, s, es, fs, t.settled, t.inactive);
    SameClosed(h, g, s, fs, es, u.settled, u.inactive);
  }
}
