/** What every activation in a run's event stream must look like, said of the stream alone: when a
    node may start, what it takes in, and how it closes. */
module SchedulerLaw {
  import opened Wrappers
  import opened Json
  import opened Workflow
  import opened SchedulerSpec
  import opened SchedulerStream

  type Seeds = map<(nat, string), Json>

  // ---------------------------------------------------------------- starting

  /** A value waits on the edge, or a seed is left for its port. */
  ghost predicate Waits(g: Layer, seeds: Seeds, told: seq<Body>, e: nat)
    requires Flat(g) && e < |g.edges|
  {
    Token(g, told, e).Some? || SeedLeft(g, seeds, told, g.edges[e].target, g.edges[e].targetPort)
  }

  ghost predicate Gone(told: seq<Body>, i: nat) {
    HasFailed(told, i) || WasSkipped(told, i)
  }

  ghost predicate ControlSeedLeft(g: Layer, seeds: Seeds, told: seq<Body>, i: nat)
    requires i < |g.nodes|
  {
    exists port :: SeedLeft(g, seeds, told, i, port) && ControlPort(g, i, port)
  }

  /** A node without incoming edges starts once.  One with control edges or control seeds starts on a
      control token.  Any other starts when no data edge is still awaited, on something new. */
  ghost predicate MayStart(g: Layer, seeds: Seeds, told: seq<Body>, i: nat)
    requires Flat(g) && i < |g.nodes|
  {
    if g.incoming[i] == [] then Runs(told, i) == 0
    else if ControlSeedLeft(g, seeds, told, i) || exists e :: e in g.incoming[i] && IsControl(g, e) then
      ControlSeedLeft(g, seeds, told, i)
      || exists e :: e in g.incoming[i] && IsControl(g, e) && Waits(g, seeds, told, e)
    else
      && (forall e :: e in g.incoming[i] ==> Waits(g, seeds, told, e) || Gone(told, g.edges[e].source))
      && if Runs(told, i) == 0
         then (exists e :: e in g.incoming[i] && Waits(g, seeds, told, e))
           || exists port :: SeedLeft(g, seeds, told, i, port)
         else exists e :: e in g.incoming[i] && IsNew(g, seeds, told, e)
  }

  /** The edge's value has come since the target's last start, or its port is seeded. */
  ghost predicate IsNew(g: Layer, seeds: Seeds, told: seq<Body>, e: nat)
    requires Flat(g) && e < |g.edges|
  {
    Recent(g, told, e) || SeedLeft(g, seeds, told, g.edges[e].target, g.edges[e].targetPort)
  }

  // ---------------------------------------------------------------- what an activation takes in

  ghost predicate Carries(g: Layer, told: seq<Body>, i: nat, port: string, k: nat)
    requires Flat(g) && i < |g.nodes|
  {
    && k < |g.incoming[i]| && g.incoming[i][k] in g.incoming[i]
    && g.edges[g.incoming[i][k]].targetPort == port && Token(g, told, g.incoming[i][k]).Some?
  }

  ghost predicate CarriesLast(g: Layer, told: seq<Body>, i: nat, port: string, k: nat)
    requires Flat(g) && i < |g.nodes|
  {
    Carries(g, told, i, port, k) && forall l: nat :: k < l ==> !Carries(g, told, i, port, l)
  }

  /** The seed left for the port, or else the value on the last of its edges that carries one. */
  ghost predicate TakesPort(g: Layer, seeds: Seeds, told: seq<Body>, i: nat, inputs: Inputs, port: string)
    requires Flat(g) && i < |g.nodes|
  {
    if SeedLeft(g, seeds, told, i, port) then Get(inputs, port) == Some(seeds[(i, port)])
    else
      && (port in inputs <==> exists k: nat :: Carries(g, told, i, port, k))
      && forall k: nat :: CarriesLast(g, told, i, port, k) ==> Get(inputs, port) == Token(g, told, g.incoming[i][k])
  }

  ghost predicate Takes(g: Layer, seeds: Seeds, told: seq<Body>, i: nat, inputs: Inputs)
    requires Flat(g) && i < |g.nodes|
  {
    forall port :: TakesPort(g, seeds, told, i, inputs, port)
  }

  // ---------------------------------------------------------------- closing

  /** The closing event is about the activation that was started. */
  ghost predicate Same(start: Body, close: Body)
    requires start.Started?
  {
    && (close.Finished? || close.Failed? || close.Cancelled?) && close.node == start.node
    && close.activation == start.activation && close.iteration == start.iteration
  }

  ghost predicate FailsWith(close: Body, code: Code) {
    close.Failed? && close.code == code
  }

  /** What an executor's reply makes of an activation; in a loop, or inside a composite that is under a
      deadline, the deadline may come first. */
  ghost predicate ByReply(g: Layer, i: nat, inputs: Inputs, timed: bool, reply: Reply, close: Body)
    requires i < |g.nodes|
  {
    if exists p :: p in g.nodes[i].Inputs() && p.required && !p.control && p.name !in inputs
    then FailsWith(close, MissingInput)
    else if reply.denied.Some? then FailsWith(close, reply.denied.value)
    else if reply.cancelled then close.Cancelled?
    else if timed && reply.expired then FailsWith(close, LoopTimeout)
    else match reply.answer
      case Ok(outputs) => close.Finished? && close.outputs == outputs
      case Err(code) => FailsWith(close, code)
  }

  ghost predicate ExecutorCloses(g: Layer, env: Env, scope: seq<nat>, inputs: Inputs, timed: bool, start: Body,
      close: Body)
    requires start.Started? && start.node < |g.nodes|
  {
    Same(start, close) && exists t: nat ::
      ByReply(g, start.node, inputs, timed, env.execute(scope, start.node, start.activation, inputs, t), close)
  }

  /** A gate that finishes hands on the value of the trigger it took, in the order stop, start, next,
      and on `value` what it took on `value`, if anything. */
  ghost predicate GateCloses(g: Layer, inputs: Inputs, start: Body, close: Body)
    requires start.Started? && start.node < |g.nodes|
  {
    && Same(start, close) && (close.Finished? || close.Failed?)
    && (FailsWith(close, LoopInvalidBudget) <==> GateBudget(g.nodes[start.node]).None?)
    && (FailsWith(close, LoopMissingTrigger) ==> "stop" !in inputs && "start" !in inputs && "next" !in inputs)
    && (close.Finished? ==>
      && close.outputs.Keys <= {if "stop" in inputs then "exit" else "continue", "value"}
      && ("stop" in inputs ==> Get(close.outputs, "exit") == Some(inputs["stop"]))
      && ("stop" !in inputs && "start" in inputs ==> Get(close.outputs, "continue") == Some(inputs["start"]))
      && ("stop" !in inputs && "start" !in inputs ==>
            "next" in inputs && Get(close.outputs, "continue") == Some(inputs["next"]))
      && Get(close.outputs, "value") == Get(inputs, "value"))
  }

  /** Binding `b` of port `a` hands an input to this port of node `n` inside. */
  ghost predicate Binds(ports: seq<SubgraphInput>, inputs: Inputs, n: nat, port: string, a: nat, b: nat) {
    && a < |ports| && b < |ports[a].targets| && ports[a].targets[b] == Binding(n, port)
    && ports[a].port.name in inputs
  }

  ghost predicate BindsLast(ports: seq<SubgraphInput>, inputs: Inputs, n: nat, port: string, a: nat, b: nat) {
    && Binds(ports, inputs, n, port, a, b)
    && forall c: nat, d: nat :: (a < c || (a == c && b < d)) ==> !Binds(ports, inputs, n, port, c, d)
  }

  ghost predicate BoundSeed(ports: seq<SubgraphInput>, inputs: Inputs, seeds: Seeds, n: nat, port: string) {
    && ((n, port) in seeds <==> exists a: nat, b: nat :: Binds(ports, inputs, n, port, a, b))
    && forall a: nat, b: nat :: BindsLast(ports, inputs, n, port, a, b) ==>
         Get(seeds, (n, port)) == Get(inputs, ports[a].port.name)
  }

  /** Inside, exactly the bound ports are seeded, each with the input of its last binding. */
  ghost predicate BoundSeeds(ports: seq<SubgraphInput>, inputs: Inputs, seeds: Seeds) {
    forall n: nat, port :: BoundSeed(ports, inputs, seeds, n, port)
  }

  /** What the source of output `k` last finished with on its port, going by what was said inside. */
  ghost function SourceValue(node: Node, told: seq<Body>, k: nat): Option<Json>
    requires node.Composite?
  {
    if k < |node.outputs| && node.outputs[k].source.node < |node.layer.nodes| then
      var last := Latest(node.layer, told, node.outputs[k].source.node);
      if last.Some? then Get(last.value, node.outputs[k].source.port) else None
    else None
  }

  ghost predicate Reads(node: Node, told: seq<Body>, name: string, k: nat)
    requires node.Composite?
  {
    k < |node.outputs| && node.outputs[k].port.name == name && SourceValue(node, told, k).Some?
  }

  ghost predicate ReadsLast(node: Node, told: seq<Body>, name: string, k: nat)
    requires node.Composite?
  {
    Reads(node, told, name, k) && forall l: nat :: k < l ==> !Reads(node, told, name, l)
  }

  ghost predicate OutputOf(node: Node, told: seq<Body>, outputs: Inputs, name: string)
    requires node.Composite?
  {
    && (name in outputs <==> exists k: nat :: Reads(node, told, name, k))
    && forall k: nat :: ReadsLast(node, told, name, k) ==> Get(outputs, name) == SourceValue(node, told, k)
  }

  /** Each output port has the last value of its source, and none if its source has none. */
  ghost predicate OutputsOf(node: Node, told: seq<Body>, outputs: Inputs)
    requires node.Composite?
  {
    forall name :: OutputOf(node, told, outputs, name)
  }

  ghost predicate LacksOne(node: Node, inputs: Inputs)
    requires node.Composite?
  {
    exists k :: 0 <= k < |node.ports| && node.ports[k].port.required && node.ports[k].port.name !in inputs
  }

  ghost predicate Uncancelled(told: seq<Body>) {
    forall k :: 0 <= k < |told| ==> !told[k].Cancelled?
  }

  /** At some time the run is cancelled, or cancelled while it is paused. */
  ghost predicate Stopped(env: Env) {
    exists t: nat :: env.cancelled(t) || !env.resumed(t)
  }

  /** A composite fails with the first failure inside, or for a missing input, or because the deadline it
      is under passed, and is cancelled only with something inside it or with the run; otherwise it
      finishes with what its outputs' sources last finished with. */
  ghost predicate CompositeCloses(env: Env, node: Node, inputs: Inputs, timed: bool, told: seq<Body>, start: Body,
      close: Body)
    requires start.Started? && node.Composite?
  {
    && Same(start, close)
    && (LacksOne(node, inputs) ==> FailsWith(close, MissingInput) && told == [])
    && (close.Cancelled? ==> !Uncancelled(told) || Stopped(env))
    && (!LacksOne(node, inputs) && !close.Cancelled? ==>
      && Uncancelled(told)
      && if Failure(told).Some? then FailsWith(close, Failure(told).value)
         else (timed && FailsWith(close, LoopTimeout)) || (close.Finished? && OutputsOf(node, told, close.outputs)))
  }

  // ---------------------------------------------------------------- the whole stream

  /** Every activation of the instance at `scope`, which began at position `from` with these seeds and,
      if `timed`, under a deadline, and every activation inside a composite's, is lawful. */
  ghost predicate Lawful(g: Layer, env: Env, trace: seq<Event>, from: nat, scope: seq<nat>, seeds: Seeds,
      timed: bool)
    requires ValidLayer(g)
    decreases g, 1
  {
    forall p {:trigger trace[p]} :: from <= p < |trace| && trace[p].scope == scope && trace[p].body.Started? ==>
      LawfulAt(g, env, trace, from, scope, seeds, timed, p)
  }

  ghost predicate LawfulAt(g: Layer, env: Env, trace: seq<Event>, from: nat, scope: seq<nat>, seeds: Seeds,
      timed: bool, p: nat)
    requires ValidLayer(g) && p < |trace| && trace[p].body.Started?
    decreases g, 0
  {
    var start, told, q := trace[p].body, At(trace[..p], from, scope), Next(trace, p + 1, scope);
    && start.node < |g.nodes| && g.nodes[start.node].enabled
    && (MayStart(g, seeds, told, start.node)
        || (q < |trace| && g.nodes[start.node].IsGate() && FailsWith(trace[q].body, LoopTimeout)))
    && exists inputs ::
         var late := timed || LoopOpen(g, told);
         && Takes(g, seeds, told, start.node, inputs)
         && if g.nodes[start.node].Composite? then
              && (exists inner ::
                    && BoundSeeds(g.nodes[start.node].ports, inputs, inner)
                    && Lawful(g.nodes[start.node].layer, env, trace[..q], p + 1, scope + [start.node], inner, late))
              && (q < |trace| ==>
                    CompositeCloses(env, g.nodes[start.node], inputs, late, At(trace[..q], p + 1, scope + [start.node]),
                      start, trace[q].body))
            else q < |trace| ==>
              if g.nodes[start.node].IsGate() then GateCloses(g, inputs, start, trace[q].body)
              else ExecutorCloses(g, env, scope, inputs, late, start, trace[q].body)
  }

  // ---------------------------------------------------------------- a lawful stream that grows

  /** Every activation at this scope has closed. */
  ghost predicate Rested(trace: seq<Event>, from: nat, scope: seq<nat>) {
    forall p {:trigger trace[p]} :: from <= p < |trace| && trace[p].scope == scope && trace[p].body.Started? ==>
      Next(trace, p + 1, scope) < |trace|
  }

  lemma {:induction false} NextKept(front: seq<Event>, trace: seq<Event>, p: nat, scope: seq<nat>)
    requires front <= trace && p <= |front| && Next(front, p, scope) < |front|
    ensures Next(trace, p, scope) == Next(front, p, scope)
    decreases |front| - p
  {
    if p < |front| && front[p].scope != scope { NextKept(front, trace, p + 1, scope); }
  }

  lemma LawfulAtKept(g: Layer, env: Env, front: seq<Event>, trace: seq<Event>, from: nat, scope: seq<nat>, seeds: Seeds,
      timed: bool, p: nat)
    requires ValidLayer(g) && front <= trace && p < |front| && front[p].body.Started?
    requires LawfulAt(g, env, front, from, scope, seeds, timed, p) && Next(front, p + 1, scope) < |front|
    ensures LawfulAt(g, env, trace, from, scope, seeds, timed, p)
  {
    hide Lawful, MayStart, Takes, BoundSeeds, CompositeCloses, GateCloses, ExecutorCloses, ValidLayer;
    NextKept(front, trace, p + 1, scope);
    var q := Next(trace, p + 1, scope);
    assert trace[..p] == front[..p] && trace[..q] == front[..q] && trace[q] == front[q] && trace[p] == front[p];
  }

  lemma LawfulGrows(g: Layer, env: Env, front: seq<Event>, trace: seq<Event>, from: nat, scope: seq<nat>, seeds: Seeds,
      timed: bool)
    requires ValidLayer(g) && front <= trace && Lawful(g, env, front, from, scope, seeds, timed) &&
      Rested(front, from, scope)
    requires forall p {:trigger trace[p]} ::
      |front| <= p < |trace| && from <= p && trace[p].scope == scope && trace[p].body.Started? ==>
        LawfulAt(g, env, trace, from, scope, seeds, timed, p)
    ensures Lawful(g, env, trace, from, scope, seeds, timed)
  {
    hide LawfulAt, ValidLayer;
    forall p {:trigger trace[p]} | from <= p < |trace| && trace[p].scope == scope && trace[p].body.Started?
      ensures LawfulAt(g, env, trace, from, scope, seeds, timed, p)
    {
      if p < |front| {
        assert trace[p] == front[p];
        LawfulAtKept(g, env, front, trace, from, scope, seeds, timed, p);
      }
    }
  }

  lemma RestedGrows(front: seq<Event>, trace: seq<Event>, from: nat, scope: seq<nat>)
    requires front <= trace && Rested(front, from, scope)
    requires forall p {:trigger trace[p]} ::
      |front| <= p < |trace| && from <= p && trace[p].scope == scope && trace[p].body.Started? ==>
        Next(trace, p + 1, scope) < |trace|
    ensures Rested(trace, from, scope)
  {
    forall p {:trigger trace[p]} | from <= p < |trace| && trace[p].scope == scope && trace[p].body.Started?
      ensures Next(trace, p + 1, scope) < |trace|
    {
      if p < |front| {
        assert trace[p] == front[p];
        NextKept(front, trace, p + 1, scope);
      }
    }
  }
}
