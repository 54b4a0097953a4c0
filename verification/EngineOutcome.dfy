/** What a run of the acyclic engine reports: every node exactly one outcome, and failures
    cut off exactly the nodes behind them. */
module EngineOutcome {
  import opened Wrappers
  import opened Workflow
  import opened SchedulerSpec
  import opened Digraph
  import opened Engine
  import Order = ExecutionOrder

  /** What the event stream says about node `i`. */
  ghost function About(trace: seq<Event>, i: nat): seq<Body> {
    if trace == [] then []
    else
      var rest, body := About(trace[..|trace| - 1], i), trace[|trace| - 1].body;
      if body.node == i then rest + [body] else rest
  }

  datatype Fate = DidFinish | DidFail | WasSkipped

  /** The lists and the stream agree that node `i` met this fate, and no other. */
  ghost predicate Met(p: Progress, i: nat, fate: Fate) {
    && (i in p.outputs <==> fate.DidFinish?)
    && (i in p.failed <==> fate.DidFail?)
    && (i in p.skipped <==> fate.WasSkipped?)
    && (i in p.unavailable <==> !fate.DidFinish?)
    && (fate.DidFinish? ==> About(p.trace, i) == [Started(i, 1, None, false), Finished(i, p.outputs[i], 1, None)])
    && (fate.DidFail? ==> exists c :: About(p.trace, i) == [Started(i, 1, None, false), Failed(i, c, 1, None)])
    && (fate.WasSkipped? ==> exists r :: About(p.trace, i) == [Skipped(i, r, 0, None)])
  }

  ghost predicate Accounted(p: Progress, i: nat) {
    exists fate :: Met(p, i, fate)
  }

  ghost predicate Untouched(p: Progress, i: nat) {
    i !in p.outputs && i !in p.failed && i !in p.skipped && i !in p.unavailable && About(p.trace, i) == []
  }

  /** Some edge into `i` comes from a node without output. */
  ghost predicate CutOff(g: Layer, p: Progress, i: nat)
    requires Flat(g) && i < |g.nodes|
  {
    exists e :: e in g.incoming[i] && g.edges[e].source in p.unavailable
  }

  /** After the nodes in `done` are visited. */
  ghost predicate Visited(g: Layer, p: Progress, done: set<nat>)
    requires Flat(g)
  {
    && Distinct(p.failed) && Distinct(p.skipped)
    && (forall i :: i in done ==> i < |g.nodes| && Accounted(p, i))
    && (forall i :: i !in done ==> Untouched(p, i))
    && (forall i :: i in done ==> (i in p.skipped <==> !g.nodes[i].enabled || CutOff(g, p, i)))
  }

  /** `i` is visited only after the sources of its edges. */
  ghost predicate Due(g: Layer, done: set<nat>, i: nat)
    requires Flat(g) && i < |g.nodes|
  {
    i !in done && forall e :: e in g.incoming[i] ==> g.edges[e].source in done
  }

  lemma OthersKept(p: Progress, q: Progress, i: nat, j: nat)
    requires i != j
    requires q.outputs - {i} == p.outputs - {i} && q.unavailable - {i} == p.unavailable - {i}
    requires j in q.failed <==> j in p.failed
    requires j in q.skipped <==> j in p.skipped
    requires About(q.trace, j) == About(p.trace, j)
    ensures Accounted(p, j) ==> Accounted(q, j)
    ensures Untouched(p, j) ==> Untouched(q, j)
  {
    assert j in q.outputs - {i} <==> j in p.outputs - {i};
    assert j in q.unavailable - {i} <==> j in p.unavailable - {i};
    if j in p.outputs { assert (q.outputs - {i})[j] == (p.outputs - {i})[j]; }
    if Accounted(p, j) {
      var fate :| Met(p, j, fate);
      assert Met(q, j, fate);
    }
  }

  /** What visiting `i` leaves alone. */
  ghost predicate Elsewhere(p: Progress, q: Progress, i: nat) {
    && q.outputs - {i} == p.outputs - {i} && q.unavailable - {i} == p.unavailable - {i}
    && (q.failed == p.failed || q.failed == p.failed + [i])
    && (q.skipped == p.skipped || q.skipped == p.skipped + [i])
    && forall j :: j != i ==> About(q.trace, j) == About(p.trace, j)
  }

  ghost predicate BrokenOff(q: Progress, i: nat) {
    && i !in q.outputs && i !in q.failed && i !in q.skipped
    && About(q.trace, i) == [Started(i, 1, None, false), Cancelled(i, 1, None)]
  }

  lemma PostElsewhere(p: Progress, body: Body)
    ensures forall j :: About(Post(p, body).trace, j) == About(p.trace, j) + if body.node == j then [body] else []
  {
  }

  lemma SkipVisit(p: Progress, i: nat, reason: Reason)
    requires Untouched(p, i)
    ensures var q := Skip(p, i, reason); Elsewhere(p, q, i) && Met(q, i, WasSkipped) && q.cancelled == p.cancelled
  {
    PostElsewhere(p, Skipped(i, reason, 0, None));
  }

  lemma FailVisit(p: Progress, p1: Progress, i: nat, code: Code)
    requires Untouched(p, i) && p1 == p.(trace := p1.trace, tick := p1.tick)
    requires p1.trace == Post(p, Started(i, 1, None, false)).trace
    ensures var q := Fail(p1, i, code); Elsewhere(p, q, i) && Met(q, i, DidFail) && q.cancelled == p.cancelled
  {
    PostElsewhere(p, Started(i, 1, None, false));
    PostElsewhere(p1, Failed(i, code, 1, None));
    assert About(Fail(p1, i, code).trace, i) == [Started(i, 1, None, false), Failed(i, code, 1, None)];
  }

  lemma CalledVisit(p: Progress, p1: Progress, i: nat, reply: Reply)
    requires Untouched(p, i) && p1 == p.(trace := p1.trace, tick := p1.tick) && !p.cancelled
    requires p1.trace == Post(p, Started(i, 1, None, false)).trace
    ensures var q := Called(p1, i, reply);
      && Elsewhere(p, q, i) && q.skipped == p.skipped
      && (q.cancelled ==> BrokenOff(q, i)) && (!q.cancelled ==> Met(q, i, DidFail) || Met(q, i, DidFinish))
  {
    PostElsewhere(p, Started(i, 1, None, false));
    if reply.denied.Some? {
      FailVisit(p, p1, i, reply.denied.value);
    } else if reply.cancelled {
      PostElsewhere(p1, Cancelled(i, 1, None));
    } else if reply.answer.Ok? {
      PostElsewhere(p1, Finished(i, reply.answer.outputs, 1, None));
      assert About(Called(p1, i, reply).trace, i) ==
        [Started(i, 1, None, false), Finished(i, reply.answer.outputs, 1, None)];
    } else {
      FailVisit(p, p1, i, reply.answer.code);
    }
  }

  lemma VisitOnce(g: Layer, env: Env, p: Progress, i: nat)
    requires Flat(g) && i < |g.nodes| && Untouched(p, i) && !p.cancelled
    ensures var q := Visit(g, env, p, i);
      && Elsewhere(p, q, i)
      && (q.cancelled ==> BrokenOff(q, i))
      && (!q.cancelled ==> Accounted(q, i) && (i in q.skipped <==> !g.nodes[i].enabled || CutOff(g, p, i)))
  {
    hide Elsewhere, Gather, Called, Flat, Skip;
    var q := Visit(g, env, p, i);
    var blocker := Blocker(g.edges, p.unavailable, In(g, i));
    assert blocker.Some? <==> CutOff(g, p, i);
    if !g.nodes[i].enabled {
      SkipVisit(p, i, Disabled);
    } else if blocker.Some? {
      SkipVisit(p, i, Upstream(blocker.value));
    } else {
      var p1 := Post(p, Started(i, 1, None, false));
      match Gather(g.edges, p.outputs, In(g, i), map[])
      case None => FailVisit(p, p1, i, MissingInput);
      case Some(inputs) => CalledVisit(p, p1.(tick := p.tick + 1), i, env.execute([], i, 1, inputs, p.tick));
    }
  }

  lemma VisitedStep(g: Layer, env: Env, p: Progress, done: set<nat>, i: nat)
    requires Flat(g) && i < |g.nodes| && Visited(g, p, done) && !p.cancelled && Due(g, done, i)
    requires forall j, e {:trigger e in g.incoming[j]} :: j in done && j < |g.nodes| && e in g.incoming[j] ==>
      g.edges[e].source in done
    ensures var q := Visit(g, env, p, i); Elsewhere(p, q, i) && !q.cancelled ==> Visited(g, q, done + {i})
  {
    hide Accounted, Untouched, Flat, Visit, BrokenOff;
    var q := Visit(g, env, p, i);
    VisitOnce(g, env, p, i);
    if !q.cancelled {
      forall j | j != i
        ensures (Accounted(p, j) ==> Accounted(q, j)) && (Untouched(p, j) ==> Untouched(q, j))
      {
        OthersKept(p, q, i, j);
      }
      assert i !in p.failed && i !in p.skipped by { NotYet(p, i); }
      forall j | j in done + {i} ensures j in q.skipped <==> !g.nodes[j].enabled || CutOff(g, q, j) {
        SameCut(g, p, q, i, j);
      }
    }
  }

  lemma NotYet(p: Progress, i: nat)
    requires Untouched(p, i)
    ensures i !in p.failed && i !in p.skipped
  {
  }

  lemma SameCut(g: Layer, p: Progress, q: Progress, i: nat, j: nat)
    requires Flat(g) && j < |g.nodes| && q.unavailable - {i} == p.unavailable - {i}
    requires forall e :: e in g.incoming[j] ==> g.edges[e].source != i
    ensures CutOff(g, q, j) <==> CutOff(g, p, j)
  {
    forall e | e in g.incoming[j] ensures g.edges[e].source in q.unavailable <==> g.edges[e].source in p.unavailable {
      assert g.edges[e].source in q.unavailable - {i} <==> g.edges[e].source in p.unavailable - {i};
    }
  }

  // ---------------------------------------------------------------- whole runs

  ghost function Listed(order: seq<nat>): set<nat> {
    set i | i in order
  }

  /** The run ended at position `m`: nodes before it have their outcome, nodes after it none,
      and the node at it was at most broken off by cancellation. */
  ghost predicate EndedAt(g: Layer, q: Progress, order: seq<nat>, m: nat)
    requires Flat(g)
  {
    && m <= |order|
    && (!q.cancelled ==> m == |order| && Visited(g, q, Listed(order)))
    && (forall j :: 0 <= j < m ==> Accounted(q, order[j]))
    && (forall j :: m < j < |order| ==> Untouched(q, order[j]))
    && (m < |order| ==> Untouched(q, order[m]) || BrokenOff(q, order[m]))
  }

  lemma Precedes(g: Layer, order: seq<nat>, k: nat)
    requires Flat(g) && Topological(|g.nodes|, Order.ArcsOf(g.edges), order) && k < |order|
    ensures order[k] < |g.nodes| && Due(g, Listed(order[..k]), order[k])
    ensures Listed(order[..k + 1]) == Listed(order[..k]) + {order[k]}
    ensures forall j, e {:trigger e in g.incoming[j]} ::
      j in Listed(order[..k]) && j < |g.nodes| && e in g.incoming[j] ==>
      g.edges[e].source in Listed(order[..k])
  {
    assert order[k] in order;
    assert order[..k + 1] == order[..k] + [order[k]];
    forall j, l, e | 0 <= l <= k && j == order[l] && j < |g.nodes| && e in g.incoming[j]
      ensures g.edges[e].source in order[..k] {
      assert (g.edges[e].source, g.edges[e].target) in Order.ArcsOf(g.edges);
      assert g.edges[e].source in order[..l];
    }
  }

  lemma StillEnded(g: Layer, p: Progress, q: Progress, order: seq<nat>, k: nat)
    requires Flat(g) && Topological(|g.nodes|, Order.ArcsOf(g.edges), order) && k < |order|
    requires Visited(g, p, Listed(order[..k])) && q.cancelled
    requires q == p.(cancelled := true, tick := q.tick) || (Elsewhere(p, q, order[k]) && BrokenOff(q, order[k]))
    ensures EndedAt(g, q, order, k)
  {
    forall j | 0 <= j < |order|
      ensures (j < k ==> Accounted(q, order[j])) && (j > k ==> Untouched(q, order[j]))
      ensures j == k ==> Untouched(q, order[j]) || BrokenOff(q, order[j])
    {
      if j < k {
        assert order[..k][j] == order[j] && order[j] in Listed(order[..k]);
        var fate :| Met(p, order[j], fate);
        if !Elsewhere(p, q, order[k]) { assert Met(q, order[j], fate); }
      } else {
        assert forall l :: 0 <= l < k ==> order[l] != order[j];
        assert Untouched(p, order[j]);
      }
      if Elsewhere(p, q, order[k]) && j != k { OthersKept(p, q, order[k], order[j]); }
    }
  }

  lemma {:induction false} RunEndsSomewhere(g: Layer, env: Env, p: Progress, order: seq<nat>, k: nat) returns (m: nat)
    requires Flat(g) && Topological(|g.nodes|, Order.ArcsOf(g.edges), order) && k <= |order| && Below(order, |g.nodes|)
    requires Visited(g, p, Listed(order[..k])) && !p.cancelled
    ensures EndedAt(g, RunNodes(g, env, p, order[k..]), order, m)
    decreases |order| - k
  {
    hide Topological, Flat, Visit, Elsewhere, BrokenOff, Untouched, Accounted;
    m := k;
    if k == |order| {
      assert order[..k] == order && order[k..] == [];
    } else {
      var p1 := Arrive(p, env);
      assert order[k..][1..] == order[k + 1..];
      if p1.cancelled {
        StillEnded(g, p, p1, order, k);
      } else {
        Moment(g, p, p1, Listed(order[..k]));
        Precedes(g, order, k);
        VisitedStep(g, env, p1, Listed(order[..k]), order[k]);
        var p2 := Visit(g, env, p1, order[k]);
        VisitOnce(g, env, p1, order[k]);
        if p2.cancelled {
          StillEnded(g, p1, p2, order, k);
        } else {
          m := RunEndsSomewhere(g, env, p2, order, k + 1);
        }
      }
    }
  }

  lemma Moment(g: Layer, p: Progress, q: Progress, done: set<nat>)
    requires Flat(g) && Visited(g, p, done) && q == p.(cancelled := q.cancelled, tick := q.tick)
    ensures Visited(g, q, done)
  {
    forall i | i in done ensures Accounted(q, i) {
      var fate :| Met(p, i, fate);
      assert Met(q, i, fate);
    }
  }

  /** However the run ends, the nodes before its last position have exactly one outcome each. */
  lemma EveryNodeHasOneOutcome(g: Layer, env: Env, order: seq<nat>)
    requires Flat(g) && Topological(|g.nodes|, Order.ArcsOf(g.edges), order) && Below(order, |g.nodes|)
    ensures exists m :: EndedAt(g, RunNodes(g, env, NOTHING, order), order, m)
  {
    assert order[0..] == order;
    var m := RunEndsSomewhere(g, env, NOTHING, order, 0);
  }

  // ---------------------------------------------------------------- failures cut off what is behind them

  /** A disabled or failed node lies on some path to `i`. */
  ghost predicate Behind(g: Layer, q: Progress, i: nat)
    requires Flat(g)
  {
    exists c :: BadPath(g, q, c, i)
  }

  ghost predicate BadPath(g: Layer, q: Progress, c: seq<nat>, i: nat)
    requires Flat(g)
  {
    && |c| >= 2 && Walk(Order.ArcsOf(g.edges), c) && c[|c| - 1] == i
    && c[0] < |g.nodes| && (!g.nodes[c[0]].enabled || c[0] in q.failed)
  }

  lemma {:induction false} PathIsSkipped(g: Layer, q: Progress, c: seq<nat>, i: nat)
    requires Flat(g) && Visited(g, q, UpTo(|g.nodes|)) && BadPath(g, q, c, i)
    ensures i < |g.nodes| && i in q.skipped
    decreases |c|
  {
    var j := c[|c| - 2];
    assert (j, i) in Order.ArcsOf(g.edges);
    var e :| 0 <= e < |g.edges| && g.edges[e].source == j && g.edges[e].target == i;
    assert e in g.incoming[i];
    if |c| > 2 { PathIsSkipped(g, q, c[..|c| - 1], j); }
    assert j in q.unavailable by { assert Accounted(q, j); }
  }

  lemma {:induction false} SkippedHasPath(g: Layer, q: Progress, order: seq<nat>, k: nat)
    requires Flat(g) && Visited(g, q, UpTo(|g.nodes|)) && Topological(|g.nodes|, Order.ArcsOf(g.edges), order)
    requires k < |order| && order[k] in q.skipped && order[k] < |g.nodes| && g.nodes[order[k]].enabled
    ensures Behind(g, q, order[k])
    decreases k
  {
    hide BadPath, Topological, Visited;
    var i := order[k];
    var j := CutOffBy(g, q, i);
    if j in q.failed || !g.nodes[j].enabled {
      BadPathStep(g, q, [], j, i);
    } else {
      var l := Earlier(g, order, j, k);
      SkippedHasPath(g, q, order, l);
      var c :| BadPath(g, q, c, j);
      BadPathStep(g, q, c, j, i);
    }
  }

  /** A skipped node that is enabled has an edge from a node that failed or was skipped. */
  lemma CutOffBy(g: Layer, q: Progress, i: nat) returns (j: nat)
    requires Flat(g) && Visited(g, q, UpTo(|g.nodes|)) && i < |g.nodes| && i in q.skipped && g.nodes[i].enabled
    ensures j < |g.nodes| && (j in q.failed || j in q.skipped) && (j, i) in Order.ArcsOf(g.edges)
  {
    assert i in UpTo(|g.nodes|);
    var e :| e in g.incoming[i] && g.edges[e].source in q.unavailable;
    j := g.edges[e].source;
    assert Accounted(q, j);
  }

  lemma Earlier(g: Layer, order: seq<nat>, j: nat, k: nat) returns (l: nat)
    requires Topological(|g.nodes|, Order.ArcsOf(g.edges), order) && k < |order| &&
      (j, order[k]) in Order.ArcsOf(g.edges)
    ensures l < k && order[l] == j
  {
    l :| 0 <= l < k && order[..k][l] == j;
  }

  lemma BadPathStep(g: Layer, q: Progress, c: seq<nat>, j: nat, i: nat)
    requires Flat(g) && j < |g.nodes| && (j, i) in Order.ArcsOf(g.edges)
    requires BadPath(g, q, c, j) || j in q.failed || !g.nodes[j].enabled
    ensures Behind(g, q, i)
  {
    if BadPath(g, q, c, j) { assert BadPath(g, q, c + [i], i); } else { assert BadPath(g, q, [j, i], i); }
  }

  /** Unless cancelled, the engine starts a node exactly when it is enabled and no disabled or
      failed node lies on a path to it, and the nodes without output are closed under edges. */
  lemma StartedIffNothingBadBehind(g: Layer, env: Env, order: seq<nat>, i: nat)
    requires Flat(g) && Topological(|g.nodes|, Order.ArcsOf(g.edges), order) && Below(order, |g.nodes|)
    requires !RunNodes(g, env, NOTHING, order).cancelled && i < |g.nodes|
    ensures var q := RunNodes(g, env, NOTHING, order);
      && (Started(i, 1, None, false) in About(q.trace, i) <==> g.nodes[i].enabled && !Behind(g, q, i))
      && (forall e :: 0 <= e < |g.edges| && g.edges[e].source in q.unavailable ==> g.edges[e].target in q.unavailable)
  {
    var q := RunNodes(g, env, NOTHING, order);
    EveryNodeHasOneOutcome(g, env, order);
    assert Listed(order) == UpTo(|g.nodes|);
    assert Accounted(q, i);
    assert Started(i, 1, None, false) in About(q.trace, i) <==> i !in q.skipped;
    if i in q.skipped && g.nodes[i].enabled {
      var k := Position(order, i);
      SkippedHasPath(g, q, order, k);
    } else if Behind(g, q, i) {
      var c :| BadPath(g, q, c, i);
      PathIsSkipped(g, q, c, i);
    }
    forall e | 0 <= e < |g.edges| && g.edges[e].source in q.unavailable ensures g.edges[e].target in q.unavailable {
      assert e in g.incoming[g.edges[e].target];
      assert Accounted(q, g.edges[e].target);
    }
  }
}
