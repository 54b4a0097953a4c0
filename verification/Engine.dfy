/** The acyclic engine: the node loop of `Engine::execute` over an execution order. */
module Engine {
  import opened Wrappers
  import opened Json
  import opened Workflow
  import opened SchedulerSpec
  import opened Digraph
  import Order = ExecutionOrder

  /** The loop's local variables and the event stream. */
  datatype Progress = Progress(
    outputs: map<nat, Inputs>, failed: seq<nat>, skipped: seq<nat>, unavailable: set<nat>,
    cancelled: bool, trace: seq<Event>, tick: nat)

  const NOTHING := Progress(map[], [], [], {}, false, [], 0)

  function Post(p: Progress, body: Body): Progress {
    p.(trace := p.trace + [Event(|p.trace|, [], body)])
  }

  function Skip(p: Progress, i: nat, reason: Reason): Progress {
    Post(p, Skipped(i, reason, 0, None)).(skipped := p.skipped + [i], unavailable := p.unavailable + {i})
  }

  function Fail(p: Progress, i: nat, code: Code): Progress {
    Post(p, Failed(i, code, 1, None)).(failed := p.failed + [i], unavailable := p.unavailable + {i})
  }

  /** The first of these edges' sources that produced no output. */
  function Blocker(edges: seq<Edge>, unavailable: set<nat>, es: seq<nat>): (b: Option<nat>)
    requires Below(es, |edges|)
    ensures b.None? <==> forall e :: e in es ==> edges[e].source !in unavailable
  {
    if es == [] then None
    else if edges[es[0]].source in unavailable then Some(edges[es[0]].source)
    else Blocker(edges, unavailable, es[1..])
  }

  predicate Produced(edge: Edge, outputs: map<nat, Inputs>) {
    edge.source in outputs && edge.sourcePort in outputs[edge.source]
  }

  /** The value on each edge, or None at the first edge without one; a later edge wins a port. */
  function Gather(edges: seq<Edge>, outputs: map<nat, Inputs>, es: seq<nat>, inputs: Inputs): Option<Inputs>
    requires Below(es, |edges|)
  {
    if es == [] then Some(inputs)
    else
      var edge := edges[es[0]];
      if Produced(edge, outputs)
      then Gather(edges, outputs, es[1..], inputs[edge.targetPort := outputs[edge.source][edge.sourcePort]])
      else None
  }

  function Called(p: Progress, i: nat, reply: Reply): Progress {
    if reply.denied.Some? then Fail(p, i, reply.denied.value)
    else if reply.cancelled then
      Post(p, Cancelled(i, 1, None)).(unavailable := p.unavailable + {i}, cancelled := true)
    else match reply.answer
      case Ok(outputs) => Post(p, Finished(i, outputs, 1, None)).(outputs := p.outputs[i := outputs])
      case Err(code) => Fail(p, i, code)
  }

  /** Nodes of these documents are plain: one with a composite goes to the scheduler. */
  function Start(p: Progress, env: Env, i: nat, gathered: Option<Inputs>): Progress {
    var p1 := Post(p, Started(i, 1, None, false));
    match gathered
    case None => Fail(p1, i, MissingInput)
    case Some(inputs) => Called(p1.(tick := p.tick + 1), i, env.execute([], i, 1, inputs, p.tick))
  }

  /** One node past the safe point. */
  function Visit(g: Layer, env: Env, p: Progress, i: nat): Progress
    requires Flat(g) && i < |g.nodes|
  {
    var blocker := Blocker(g.edges, p.unavailable, In(g, i));
    if !g.nodes[i].enabled then Skip(p, i, Disabled)
    else if blocker.Some? then Skip(p, i, Upstream(blocker.value))
    else Start(p, env, i, Gather(g.edges, p.outputs, In(g, i), map[]))
  }

  /** The safe point between nodes. */
  function Arrive(p: Progress, env: Env): Progress {
    if env.cancelled(p.tick) then p.(cancelled := true, tick := p.tick + 1)
    else p.(cancelled := !env.resumed(p.tick + 1), tick := p.tick + 2)
  }

  function RunNodes(g: Layer, env: Env, p: Progress, order: seq<nat>): Progress
    requires Flat(g) && Below(order, |g.nodes|)
    decreases |order|
  {
    if p.cancelled || order == [] then p
    else
      var p1 := Arrive(p, env);
      if p1.cancelled then p1 else RunNodes(g, env, Visit(g, env, p1, order[0]), order[1..])
  }

  // ---------------------------------------------------------------- the loop

  method FindBlocker(edges: seq<Edge>, unavailable: set<nat>, i: nat) returns (b: Option<nat>)
    ensures b == Blocker(edges, unavailable, EdgesInto(edges, i, |edges|))
  {
    b := None;
    for k := 0 to |edges|
      invariant b == Blocker(edges, unavailable, EdgesInto(edges, i, k))
    {
      if edges[k].target == i {
        BlockerSnoc(edges, unavailable, EdgesInto(edges, i, k), k);
        if b.None? && edges[k].source in unavailable { b := Some(edges[k].source); }
      }
    }
  }

  lemma {:induction false} BlockerSnoc(edges: seq<Edge>, unavailable: set<nat>, es: seq<nat>, k: nat)
    requires k < |edges| && Below(es, |edges|)
    ensures Blocker(edges, unavailable, es + [k]) ==
      if Blocker(edges, unavailable, es).Some? then Blocker(edges, unavailable, es)
      else if edges[k].source in unavailable then Some(edges[k].source) else None
  {
    if es != [] {
      assert (es + [k])[1..] == es[1..] + [k];
      BlockerSnoc(edges, unavailable, es[1..], k);
    }
  }

  method GatherInputs(edges: seq<Edge>, outputs: map<nat, Inputs>, i: nat) returns (r: Option<Inputs>)
    ensures r == Gather(edges, outputs, EdgesInto(edges, i, |edges|), map[])
  {
    var inputs: Inputs := map[];
    for k := 0 to |edges|
      invariant Gather(edges, outputs, EdgesInto(edges, i, k), map[]) == Some(inputs)
    {
      if edges[k].target == i {
        GatherSnoc(edges, outputs, EdgesInto(edges, i, k), k, map[]);
        if !Produced(edges[k], outputs) {
          GatherStops(edges, outputs, i, k + 1);
          return None;
        }
        inputs := inputs[edges[k].targetPort := outputs[edges[k].source][edges[k].sourcePort]];
      }
    }
    r := Some(inputs);
  }

  lemma {:induction false} GatherSnoc(edges: seq<Edge>, outputs: map<nat, Inputs>, es: seq<nat>, k: nat, inputs: Inputs)
    requires k < |edges| && Below(es, |edges|)
    ensures var before := Gather(edges, outputs, es, inputs);
      Gather(edges, outputs, es + [k], inputs) ==
        if before.None? || !Produced(edges[k], outputs) then None
        else Some(before.value[edges[k].targetPort := outputs[edges[k].source][edges[k].sourcePort]])
  {
    if es != [] {
      assert (es + [k])[1..] == es[1..] + [k];
      var edge := edges[es[0]];
      if Produced(edge, outputs) {
        GatherSnoc(edges, outputs, es[1..], k, inputs[edge.targetPort := outputs[edge.source][edge.sourcePort]]);
      }
    }
  }

  lemma {:induction false} GatherStops(edges: seq<Edge>, outputs: map<nat, Inputs>, i: nat, k: nat)
    requires k <= |edges| && Gather(edges, outputs, EdgesInto(edges, i, k), map[]).None?
    ensures Gather(edges, outputs, EdgesInto(edges, i, |edges|), map[]).None?
    decreases |edges| - k
  {
    if k < |edges| {
      if edges[k].target == i { GatherSnoc(edges, outputs, EdgesInto(edges, i, k), k, map[]); }
      GatherStops(edges, outputs, i, k + 1);
    }
  }

  /** The node loop over an execution order. */
  method RunOrder(nodes: seq<Node>, edges: seq<Edge>, env: Env, order: seq<nat>) returns (p: Progress)
    requires Endpoints(LayerOf(nodes, edges)) && Below(order, |nodes|)
    ensures p == RunNodes(LayerOf(nodes, edges), env, NOTHING, order)
  {
    hide Visit, Arrive, Endpoints, Flat, Start;
    ghost var g := LayerOf(nodes, edges);
    p := NOTHING;
    for k := 0 to |order|
      invariant RunNodes(g, env, p, order[k..]) == RunNodes(g, env, NOTHING, order)
      invariant !p.cancelled
    {
      var i := order[k];
      assert order[k..][1..] == order[k + 1..];
      p := Arrive(p, env);
      if p.cancelled { return; }
      p := VisitNode(nodes, edges, env, p, i);
      if p.cancelled { return; }
    }
  }

  method VisitNode(nodes: seq<Node>, edges: seq<Edge>, env: Env, before: Progress, i: nat) returns (p: Progress)
    requires Endpoints(LayerOf(nodes, edges)) && i < |nodes|
    ensures p == Visit(LayerOf(nodes, edges), env, before, i)
  {
    hide Endpoints, Flat, Called, Gather, Blocker;
    p := before;
    assert In(LayerOf(nodes, edges), i) == EdgesInto(edges, i, |edges|);
    if !nodes[i].enabled { return Skip(p, i, Disabled); }
    var blocker := FindBlocker(edges, p.unavailable, i);
    if blocker.Some? { return Skip(p, i, Upstream(blocker.value)); }
    p := Post(p, Started(i, 1, None, false));
    var inputs := GatherInputs(edges, p.outputs, i);
    if inputs.None? { return Fail(p, i, MissingInput); }
    var reply := env.execute([], i, 1, inputs.value, p.tick);
    p := Called(p.(tick := p.tick + 1), i, reply);
  }

  /** The engine on a document without control flow: None when the graph has a cycle. */
  method Execute(nodes: seq<Node>, edges: seq<Edge>, env: Env)
      returns (result: Option<(Progress, Status)>, ghost order: seq<nat>)
    requires Endpoints(LayerOf(nodes, edges))
    ensures result.Some? <==> Acyclic(Order.ArcsOf(edges))
    ensures result.Some? ==> Topological(|nodes|, Order.ArcsOf(edges), order) && Below(order, |nodes|)
    ensures result.Some? ==> result.value.0 == RunNodes(LayerOf(nodes, edges), env, NOTHING, order)
    ensures result.Some? ==> result.value.1 == Outcome(result.value.0, env)
  {
    order := [];
    var found := Order.ExecutionOrder(|nodes|, edges);
    if found.None? { return None, []; }
    order := found.value;
    assert forall k :: 0 <= k < |order| ==> order[k] in order;
    var p := RunOrder(nodes, edges, env, found.value);
    result := Some((p, Outcome(p, env)));
  }

  /** The status reported, with a last look at the cancel flag. */
  function Outcome(p: Progress, env: Env): Status {
    if p.cancelled || env.cancelled(p.tick) then CancelledRun
    else if p.failed == [] then Completed
    else FailedRun
  }
}
