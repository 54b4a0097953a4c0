/** Where neither control flow nor failure is involved, the acyclic engine and the token
    scheduler both compute the one dataflow solution of the document. */
module Dataflow {
  import opened Wrappers
  import opened Json
  import opened Workflow
  import opened SchedulerSpec
  import opened Digraph
  import opened Engine
  import Order = ExecutionOrder

  /** What each node kind computes from its inputs. */
  type Kinds = (nat, Inputs) -> Inputs

  /** What edge `e` carries. */
  predicate Carries(g: Layer, v: map<nat, Inputs>, e: nat)
    requires e < |g.edges|
  {
    g.edges[e].source in v && g.edges[e].sourcePort in v[g.edges[e].source]
  }

  /** The inputs the edges `es` bring, a later edge into the same port winning. */
  function Inflow(g: Layer, v: map<nat, Inputs>, es: seq<nat>): Inputs
    requires EdgesOf(g, es)
  {
    if es == [] then map[]
    else
      var e, rest := es[|es| - 1], Inflow(g, v, es[..|es| - 1]);
      if Carries(g, v, e) then rest[g.edges[e].targetPort := v[g.edges[e].source][g.edges[e].sourcePort]] else rest
  }

  /** Every node has the outputs its kind computes from what its incoming edges carry. */
  ghost predicate Solves(g: Layer, kinds: Kinds, v: map<nat, Inputs>)
    requires Flat(g)
  {
    && (forall i :: i in v <==> 0 <= i < |g.nodes|)
    && forall i :: 0 <= i < |g.nodes| ==> v[i] == kinds(i, Inflow(g, v, In(g, i)))
  }

  lemma {:induction false} SameInflow(g: Layer, v: map<nat, Inputs>, w: map<nat, Inputs>, es: seq<nat>)
    requires EdgesOf(g, es)
    requires forall k :: 0 <= k < |es| ==> var u := g.edges[es[k]].source; u in v && u in w && v[u] == w[u]
    ensures Inflow(g, v, es) == Inflow(g, w, es)
  {
    if es != [] {
      var u := g.edges[es[|es| - 1]].source;
      SameInflow(g, v, w, es[..|es| - 1]);
    }
  }

  lemma {:induction false} AgreeAlong(g: Layer, kinds: Kinds, v: map<nat, Inputs>, w: map<nat, Inputs>, order: seq<nat>,
      k: nat)
    requires Flat(g) && Solves(g, kinds, v) && Solves(g, kinds, w)
    requires Topological(|g.nodes|, Order.ArcsOf(g.edges), order) && k < |order|
    ensures order[k] in v && order[k] in w && v[order[k]] == w[order[k]]
    decreases k
  {
    var i := order[k];
    assert i in order;
    forall l | 0 <= l < |In(g, i)|
      ensures var u := g.edges[In(g, i)[l]].source; u in v && u in w && v[u] == w[u]
    {
      var e := In(g, i)[l];
      assert e in g.incoming[i];
      assert (g.edges[e].source, i) in Order.ArcsOf(g.edges);
      var m :| 0 <= m < k && order[..k][m] == g.edges[e].source;
      AgreeAlong(g, kinds, v, w, order, m);
    }
    SameInflow(g, v, w, In(g, i));
  }

  /** An acyclic document has at most one solution. */
  lemma SolutionIsUnique(g: Layer, kinds: Kinds, v: map<nat, Inputs>, w: map<nat, Inputs>)
    requires Flat(g) && Acyclic(Order.ArcsOf(g.edges)) && Solves(g, kinds, v) && Solves(g, kinds, w)
    ensures v == w
  {
    hide Acyclic, Solves;
    var order := TopologicalOrder(g);
    forall i | i in v || i in w ensures i in v && i in w && v[i] == w[i] {
      SolvesNodes(g, kinds, v, i);
      SolvesNodes(g, kinds, w, i);
      AgreeAlong(g, kinds, v, w, order, Position(order, i));
    }
  }

  lemma TopologicalOrder(g: Layer) returns (order: seq<nat>)
    requires Flat(g) && Acyclic(Order.ArcsOf(g.edges))
    ensures Topological(|g.nodes|, Order.ArcsOf(g.edges), order)
  {
    hide Kahn, Acyclic, Topological;
    KahnIsCompleteIffAcyclic(|g.nodes|, Order.ArcsOf(g.edges));
    order := Kahn(|g.nodes|, Order.ArcsOf(g.edges), []);
  }

  lemma SolvesNodes(g: Layer, kinds: Kinds, v: map<nat, Inputs>, i: nat)
    requires Flat(g) && Solves(g, kinds, v)
    ensures i in v <==> i < |g.nodes|
  {
  }

  /** Enabled plain nodes joined by data edges without a cycle; validation sees to it that a
      required port has an edge. */
  ghost predicate Plain(g: Layer)
    requires Flat(g)
  {
    && Acyclic(Order.ArcsOf(g.edges))
    && (forall i :: 0 <= i < |g.nodes| ==> g.nodes[i].Task? && g.nodes[i].enabled && !g.nodes[i].IsGate())
    && (forall e :: 0 <= e < |g.edges| ==> g.edges[e].kind == Data)
    && (forall i, p {:trigger p in g.nodes[i].Inputs()} ::
      0 <= i < |g.nodes| && p in g.nodes[i].Inputs() && p.required && !p.control ==>
          exists e :: e in g.incoming[i] && g.edges[e].targetPort == p.name)
  }

  /** Nothing is denied, cancelled or paused for good, and every executor succeeds with its ports. */
  ghost predicate Obliging(g: Layer, env: Env, kinds: Kinds) {
    && (forall t :: !env.cancelled(t) && env.resumed(t))
    && (forall i, inputs, t :: var reply := env.execute([], i, 1, inputs, t);
          reply.denied.None? && !reply.cancelled && reply.answer == Ok(kinds(i, inputs)))
    && (forall e, inputs :: 0 <= e < |g.edges| ==> g.edges[e].sourcePort in kinds(g.edges[e].source, inputs))
  }

  // ---------------------------------------------------------------- the engine

  lemma {:induction false} GatherIsInflow(g: Layer, v: map<nat, Inputs>, es: seq<nat>)
    requires EdgesOf(g, es) && forall k :: 0 <= k < |es| ==> Carries(g, v, es[k])
    ensures Gather(g.edges, v, es, map[]) == Some(Inflow(g, v, es))
  {
    if es != [] {
      var front, e := es[..|es| - 1], es[|es| - 1];
      assert front + [e] == es;
      GatherIsInflow(g, v, front);
      GatherSnoc(g.edges, v, front, e, map[]);
    }
  }

  /** The nodes run so far have their solution's outputs. */
  ghost predicate Partial(g: Layer, kinds: Kinds, v: map<nat, Inputs>)
    requires Flat(g)
  {
    && (forall i :: i in v ==> i < |g.nodes| && v[i] == kinds(i, Inflow(g, v, In(g, i))))
    && (forall i, e {:trigger e in g.incoming[i]} :: i in v && i < |g.nodes| && e in g.incoming[i] ==>
      g.edges[e].source in v)
  }

  lemma Extend(g: Layer, kinds: Kinds, v: map<nat, Inputs>, i: nat)
    requires Flat(g) && Partial(g, kinds, v) && i < |g.nodes| && i !in v
    requires forall e :: e in g.incoming[i] ==> g.edges[e].source in v
    ensures Partial(g, kinds, v[i := kinds(i, Inflow(g, v, In(g, i)))])
  {
    var w := v[i := kinds(i, Inflow(g, v, In(g, i)))];
    forall j | j in w ensures w[j] == kinds(j, Inflow(g, w, In(g, j))) {
      forall k | 0 <= k < |In(g, j)|
        ensures var u := g.edges[In(g, j)[k]].source; u in v && u in w && v[u] == w[u]
      {
        assert In(g, j)[k] in g.incoming[j];
      }
      SameInflow(g, v, w, In(g, j));
    }
  }

  lemma AllCarry(g: Layer, env: Env, kinds: Kinds, v: map<nat, Inputs>, i: nat)
    requires Flat(g) && Obliging(g, env, kinds) && Partial(g, kinds, v) && i < |g.nodes|
    requires forall e :: e in g.incoming[i] ==> g.edges[e].source in v
    ensures forall k :: 0 <= k < |In(g, i)| ==> Carries(g, v, In(g, i)[k])
  {
  }

  lemma VisitRuns(g: Layer, env: Env, kinds: Kinds, p: Progress, i: nat)
    requires Flat(g) && Plain(g) && Obliging(g, env, kinds) && Partial(g, kinds, p.outputs) && i < |g.nodes|
    requires p.unavailable == {} && p.failed == [] && p.skipped == [] && !p.cancelled && i !in p.outputs
    requires forall e :: e in g.incoming[i] ==> g.edges[e].source in p.outputs
    ensures var q := Visit(g, env, p, i);
      && q == p.(outputs := p.outputs[i := kinds(i, Inflow(g, p.outputs, In(g, i)))], trace := q.trace, tick := q.tick)
      && Partial(g, kinds, q.outputs)
  {
    AllCarry(g, env, kinds, p.outputs, i);
    GatherIsInflow(g, p.outputs, In(g, i));
    Extend(g, kinds, p.outputs, i);
    assert Blocker(g.edges, p.unavailable, In(g, i)).None?;
  }

  lemma {:induction false} RunNodesSolves(g: Layer, env: Env, kinds: Kinds, p: Progress, order: seq<nat>, k: nat)
    requires Flat(g) && Plain(g) && Obliging(g, env, kinds) && Partial(g, kinds, p.outputs)
    requires Topological(|g.nodes|, Order.ArcsOf(g.edges), order) && Below(order, |g.nodes|) && k <= |order|
    requires p.unavailable == {} && p.failed == [] && p.skipped == [] && !p.cancelled
    requires forall i :: i in p.outputs <==> i in order[..k]
    ensures var q := RunNodes(g, env, p, order[k..]);
      && Solves(g, kinds, q.outputs) && q.failed == [] && q.skipped == [] && !q.cancelled
    decreases |order| - k
  {
    hide Visit, Kahn, Inflow, Acyclic, Plain, Partial;
    if k < |order| {
      var i := order[k];
      assert order[..k + 1] == order[..k] + [i];
      assert order[k..][1..] == order[k + 1..];
      forall e | e in g.incoming[i] ensures g.edges[e].source in p.outputs {
        assert (g.edges[e].source, i) in Order.ArcsOf(g.edges);
      }
      var p1 := Arrive(p, env);
      VisitRuns(g, env, kinds, p1, i);
      RunNodesSolves(g, env, kinds, Visit(g, env, p1, i), order, k + 1);
    } else {
      assert order[..k] == order;
      Complete(g, kinds, p.outputs);
    }
  }

  lemma Complete(g: Layer, kinds: Kinds, v: map<nat, Inputs>)
    requires Flat(g) && Partial(g, kinds, v) && forall i :: 0 <= i < |g.nodes| ==> i in v
    ensures Solves(g, kinds, v)
  {
  }

  /** The acyclic engine runs every node once and ends with the solution. */
  lemma EngineSolves(g: Layer, env: Env, kinds: Kinds, order: seq<nat>)
    requires Flat(g) && Plain(g) && Obliging(g, env, kinds)
    requires Topological(|g.nodes|, Order.ArcsOf(g.edges), order) && Below(order, |g.nodes|)
    ensures var q := RunNodes(g, env, NOTHING, order);
      && Solves(g, kinds, q.outputs) && q.failed == [] && q.skipped == [] && Outcome(q, env) == Completed
  {
    assert order[0..] == order;
    RunNodesSolves(g, env, kinds, NOTHING, order, 0);
  }
}
