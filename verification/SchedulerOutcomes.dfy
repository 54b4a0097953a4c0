/** What a run reports, read off its stream: the status, and what a composite hands on. */
module SchedulerOutcomes {
  import opened Wrappers
  import opened Json
  import opened Workflow
  import opened SchedulerSpec
  import opened SchedulerStream
  import opened SchedulerLaw
  import opened SchedulerExit
  import opened SchedulerLedger
  import opened SchedulerActivations
  import opened SchedulerLawful
  import Examples = SchedulerExamples

  // ---------------------------------------------------------------- the status

  ghost predicate AnyFailed(told: seq<Body>) {
    exists k :: 0 <= k < |told| && told[k].Failed?
  }

  /** The status a finished run reports, by the root's events: cancelled when an activation was, or when
      the run was stopped; else failed exactly when an activation failed. */
  lemma StatusIsTold(g: Layer, env: Env, fuel: nat)
    requires ValidLayer(g) && Execute(g, env, fuel).flow.Break?
    ensures var s := Execute(g, env, fuel).s;
      var told := Told(s, 0);
      && (!Uncancelled(told) ==> StatusOf(s) == CancelledRun)
      && (StatusOf(s) == CancelledRun ==> !Uncancelled(told) || Stopped(env))
      && (StatusOf(s) != CancelledRun ==> (StatusOf(s) == FailedRun <==> AnyFailed(told)))
      && (AnyFailed(told) <==> s.firstFailure.Some?)
  {
    hide Run, Prepare, Lawful;
    EveryInstanceKeepsItsRecord(g, env, fuel, fuel, Fresh(g, [], None, map[], 0, [], 0));
    var s := Execute(g, env, fuel).s;
    var told := Told(s, 0);
    FailureIff(told);
    assert Results(g, s, told);
    if AnyFailed(told) {
      var k :| 0 <= k < |told| && told[k].Failed?;
      assert HasFailed(told, told[k].node) && told[k].node in s.failed;
    }
    assert s.failed != [] ==> s.failed[0] in s.failed;
  }

  lemma {:induction false} FailureIsTheFirst(told: seq<Body>)
    ensures Failure(told).Some? ==> exists k: nat :: FailsFirst(told, k) && Failure(told) == Some(told[k].code)
  {
    if told != [] {
      var front := told[..|told| - 1];
      FailureIsTheFirst(front);
      if Failure(front).Some? {
        var k: nat :| FailsFirst(front, k) && Failure(front) == Some(front[k].code);
        assert FailsFirst(told, k) && told[k] == front[k];
      } else if told[|told| - 1].Failed? {
        FailureIff(front);
        assert forall j :: 0 <= j < |front| ==> front[j] == told[j];
        assert FailsFirst(told, |told| - 1);
      }
    }
  }

  ghost predicate FailsFirst(told: seq<Body>, k: nat) {
    k < |told| && told[k].Failed? && forall j :: 0 <= j < k ==> !told[j].Failed?
  }

  // ---------------------------------------------------------------- when a composite fails

  /** The turn that begins in this state finds the deadline the instance is under passed, with no loop
      open that would have to answer for it. */
  ghost predicate RunsOut(env: Env, u: State) {
    && !env.cancelled(u.tick) && env.resumed(u.tick + 1) && u.loopState.None? && u.parentDeadline.Some?
    && env.now(u.tick + 2) >= u.parentDeadline.value
  }

  lemma ContinueKeepsTime(g: Layer, s: State, i: nat, k: nat, payload: Json, inputs: Inputs)
    requires Flat(g) && Sized(g, s) && i < |g.nodes|
    ensures EmitContinue(g, s, i, k, payload, inputs).timedOut == s.timedOut
  {
    hide Propagate, GateOutputs, Flat;
  }

  lemma StopKeepsTime(g: Layer, s: State, i: nat, inputs: Inputs)
    requires Flat(g) && Sized(g, s) && i < |g.nodes| && "stop" in inputs
    ensures GateStop(g, s, i, inputs).s.timedOut == s.timedOut
  {
    hide Propagate, GateOutputs, Closing, Flat;
  }

  lemma GateKeepsTime(g: Layer, env: Env, s: State, i: nat, inputs: Inputs)
    requires Flat(g) && Sized(g, s) && i < |g.nodes|
    ensures HandleGate(g, env, s, i, inputs).s.timedOut == s.timedOut
  {
    hide FailGate, EmitContinue, GateStop, GateBudget, Flat;
    var v := Count(s, i);
    var w := Tick(v);
    forall iteration, code { FailGateFlags(g, v, i, iteration, code); }
    forall iteration, code { FailGateFlags(g, w, i, iteration, code); }
    if "stop" in inputs { StopKeepsTime(g, v, i, inputs); }
    forall x: State, k, payload | Sized(g, x) {
      ContinueKeepsTime(g, x, i, k, payload, inputs);
    }
  }

  lemma NodeKeepsTime(g: Layer, env: Env, s: State, i: nat, inputs: Inputs)
    requires Flat(g) && Sized(g, s) && i < |g.nodes|
    ensures RunNode(g, env, s, i, inputs).s.timedOut == s.timedOut
  {
    hide FailStarted, Finish, LacksInput, Begin, Flat;
    BeginIs(g, s, i);
    var v := Begin(g, s, i);
    var w := Tick(v);
    forall activation, iteration, code { FailFlags(g, v, i, activation, iteration, code); }
    forall activation, iteration, code { FailFlags(g, w, i, activation, iteration, code); }
    forall outputs, iteration { FinishFlags(g, w, i, outputs, iteration); }
  }

  lemma ReturnKeepsTime(g: Layer, env: Env, s: State, i: nat, r: Step)
    requires Flat(g) && Sized(g, s) && i < |g.nodes| && g.nodes[i].Composite?
    ensures Return(g, env, s, i, r).s.timedOut == s.timedOut
  {
    hide FailStarted, Finish, CompositeOutputs, Flat;
    var v := Tick(Resume(s, r.s));
    forall code { FailFlags(g, v, i, v.activations[i], v.iteration, code); }
    FinishFlags(g, v, i, CompositeOutputs(g.nodes[i].outputs, r.s.latest, map[]), v.iteration);
  }

  lemma ActivateKeepsTime(g: Layer, env: Env, fuel: nat, s: State, i: nat)
    requires ValidLayer(g) && Sized(g, s) && i < |g.nodes|
    ensures Activate(g, env, fuel, s, i).s.timedOut == s.timedOut
  {
    hide HandleGate, RunNode, Return, Run, Prepare, ConsumedInputs, FailStarted, ValidLayer, Begin;
    var s1, inputs := Consume(g, s, i), ConsumedInputs(g, s, i);
    if g.nodes[i].IsGate() {
      GateKeepsTime(g, env, s1, i, inputs);
    } else if g.nodes[i].Composite? {
      var begun := Begin(g, s1, i);
      BeginIs(g, s1, i);
      FailFlags(g, begun, i, begun.activations[i], s1.iteration, MissingInput);
      if !LacksPort(g, i, inputs) {
        var layer := g.nodes[i].layer;
        assert ValidLayer(layer) by { Below(g, i); }
        ReturnKeepsTime(g, env, begun, i,
          Run(layer, env, fuel, fuel, Prepare(layer, Nested(g, begun, i, inputs), 0)));
      }
    } else {
      NodeKeepsTime(g, env, s1, i, inputs);
    }
  }

  lemma Below(g: Layer, i: nat)
    requires ValidLayer(g) && i < |g.nodes| && g.nodes[i].Composite?
    ensures ValidLayer(g.nodes[i].layer)
  {
  }

  lemma TurnKeepsTime(g: Layer, env: Env, fuel: nat, s: State)
    requires ValidLayer(g) && Sized(g, s)
    ensures Turn(g, env, fuel, s).s.timedOut == s.timedOut
  {
    hide EnqueueReady, Activate, SkipNode, Evaluate, ValidLayer;
    var t := EnqueueReady(g, s, 0);
    EnqueueFlags(g, s, 0);
    if t.queue != [] { ActivateKeepsTime(g, env, fuel, Pop(t), t.queue[0]); }
  }

  lemma IterateTimesOutIff(g: Layer, env: Env, fuel: nat, s: State)
    requires ValidLayer(g) && Sized(g, s) && !s.timedOut
    ensures var r := Iterate(g, env, fuel, s);
      (r.s.timedOut <==> RunsOut(env, s)) && (r.s.timedOut ==> r.flow.Break?)
  {
    hide Turn, FailLoopTimeout, ValidLayer;
    IterateIs(g, env, fuel, s);
    TurnKeepsTime(g, env, fuel, Tick(Tick(Tick(s))));
    LoopTimeoutKeepsTime(g, Tick(Tick(Tick(s))));
  }

  lemma LoopTimeoutKeepsTime(g: Layer, s: State)
    requires Flat(g) && Sized(g, s)
    ensures FailLoopTimeout(g, s).timedOut == s.timedOut
  {
    hide FailGate;
    if s.loopState.Some? {
      var state := s.loopState.value;
      FailGateFlags(g, Count(s, state.gate), state.gate, Some(state.iteration), LoopTimeout);
    }
  }

  /** Turn `m` is reached, and runs out of time. */
  ghost predicate RunsOutAt(g: Layer, env: Env, fuel: nat, s: State, m: nat)
    requires ValidLayer(g) && Sized(g, s)
  {
    Run(g, env, fuel, m, s).flow.Cut? && RunsOut(env, Run(g, env, fuel, m, s).s)
  }

  /** A run that ended timed out exactly if one of its turns ran out of time. */
  lemma {:induction false} TimesOutIff(g: Layer, env: Env, fuel: nat, n: nat, s: State)
    requires ValidLayer(g) && Sized(g, s) && !s.timedOut && Run(g, env, fuel, n, s).flow.Break?
    ensures Run(g, env, fuel, n, s).s.timedOut <==> exists m: nat :: m < n && RunsOutAt(g, env, fuel, s, m)
    decreases n
  {
    hide Iterate, SettleUnreached, ValidLayer, Run, RunsOut;
    var r := Iterate(g, env, fuel, s);
    RunIs(g, env, fuel, 0, s);
    RunIs(g, env, fuel, n, s);
    IterateTimesOutIff(g, env, fuel, s);
    assert RunsOutAt(g, env, fuel, s, 0) <==> RunsOut(env, s);
    forall m: nat | m > 0
      ensures RunsOutAt(g, env, fuel, s, m) <==> r.flow.Continue? && RunsOutAt(g, env, fuel, r.s, m - 1)
    {
      RunIs(g, env, fuel, m, s);
    }
    if r.flow.Continue? {
      TimesOutIff(g, env, fuel, n - 1, r.s);
      if m: nat :| m < n - 1 && RunsOutAt(g, env, fuel, r.s, m) {
        assert RunsOutAt(g, env, fuel, s, m + 1);
      }
    } else {
      SettleFlags(g, r.s, 0);
    }
  }

  lemma SkimsGrow(g: Layer, s: State, t: State)
    requires Flat(g) && Skims(g, s, t)
    ensures s.trace <= t.trace
  {
  }

  /** This event comes next. */
  ghost predicate Says(s: State, t: State, body: Body) {
    s.trace < t.trace && t.trace[|s.trace|] == Event(s.nextSeq, s.scope, body)
  }

  lemma FailSays(g: Layer, s: State, i: nat, activation: nat, iteration: Option<nat>, code: Code)
    requires Flat(g) && Sized(g, s) && i < |g.nodes|
    ensures Says(s, FailStarted(g, s, i, activation, iteration, code), Failed(i, code, activation, iteration))
  {
    hide DeactivateAll, Skims, Flat;
    var s2 := FailMarked(s, i, code, Failed(i, code, activation, iteration));
    AllSkims(g, s2, Out(g, i));
    SkimsGrow(g, s2, DeactivateAll(g, s2, Out(g, i)));
  }

  lemma FinishSays(g: Layer, s: State, i: nat, outputs: Inputs, iteration: Option<nat>)
    requires Flat(g) && Sized(g, s) && i < |g.nodes|
    ensures Says(s, Finish(g, s, i, outputs, iteration), Finished(i, outputs, s.activations[i], iteration))
  {
    hide Propagate, Skims, Hands, Flat;
    var b := Finished(i, outputs, s.activations[i], iteration);
    var s2 := Emit(s, b).(latest := s.latest[i := outputs]);
    OwnEdges(g, i);
    PropagateHands(g, s2, i, outputs, Out(g, i), b);
    SkimsGrow(g, s2, Propagate(g, s2, i, outputs, Out(g, i)));
  }

  lemma ClosedSays(g: Layer, v: State, i: nat, inner: State, cancelled: bool) returns (close: Body)
    requires Flat(g) && Sized(g, v) && i < |g.nodes| && g.nodes[i].Composite?
    ensures Says(v, Closed(g, v, i, inner, cancelled).s, close) && ClosesAs(g.nodes[i], inner, cancelled, close)
  {
    hide FailStarted, Finish, CompositeOutputs, Flat;
    var k, it := v.activations[i], v.iteration;
    var code := if inner.firstFailure.Some? then inner.firstFailure.value else LoopTimeout;
    var outputs := CompositeOutputs(g.nodes[i].outputs, inner.latest, map[]);
    FailSays(g, v, i, k, it, code);
    FinishSays(g, v, i, outputs, it);
    close := if inner.cancelled || cancelled then Cancelled(i, k, it)
      else if inner.timedOut || inner.failed != [] then Failed(i, code, k, it) else Finished(i, outputs, k, it);
  }

  /** The nested run, from its first turn on. */
  ghost function First(g: Layer, s: State, i: nat, inputs: Inputs): State
    requires ValidLayer(g) && Sized(g, s) && i < |g.nodes| && g.nodes[i].Composite?
    ensures Sized(g.nodes[i].layer, First(g, s, i, inputs))
  {
    Prepare(g.nodes[i].layer, Nested(g, Begin(g, s, i), i, inputs), 0)
  }

  ghost function Inner(g: Layer, env: Env, fuel: nat, s: State, i: nat, inputs: Inputs): Step
    requires ValidLayer(g) && Sized(g, s) && i < |g.nodes| && g.nodes[i].Composite?
  {
    Run(g.nodes[i].layer, env, fuel, fuel, First(g, s, i, inputs))
  }

  /** The instance's own deadline, or its open loop's if that comes sooner. */
  ghost predicate Soonest(s: State, deadline: Option<nat>) {
    && (deadline.None? <==> s.loopState.None? && s.parentDeadline.None?)
    && (deadline.Some? ==>
      deadline == s.parentDeadline || (s.loopState.Some? && deadline.value == s.loopState.value.deadline))
    && (deadline.Some? && s.loopState.Some? ==> deadline.value <= s.loopState.value.deadline)
    && (deadline.Some? && s.parentDeadline.Some? ==> deadline.value <= s.parentDeadline.value)
  }

  /** A composite whose nested run ended: its closing event comes next.  It is cancelled exactly if
      the nested run was, or the run is; otherwise it fails, with the code of the first failure
      inside, exactly if something failed inside or the nested run ran out of time, and finishes if
      not. */
  lemma CompositeFailsIff(g: Layer, env: Env, fuel: nat, s: State, i: nat, inputs: Inputs)
    requires ValidLayer(g) && Sized(g, s) && i < |g.nodes| && g.nodes[i].Composite? && !LacksPort(g, i, inputs)
    requires Inner(g, env, fuel, s, i, inputs).flow.Break?
    ensures var first, inner := First(g, s, i, inputs), Inner(g, env, fuel, s, i, inputs).s;
      var told, r := Told(inner, |Begin(g, s, i).trace|), RunComposite(g, env, fuel, s, i, inputs).s;
      var late := exists m: nat :: m < fuel && RunsOutAt(g.nodes[i].layer, env, fuel, first, m);
      && Soonest(s, first.parentDeadline) && inner.trace < r.trace && r.trace[|inner.trace|].scope == s.scope
      && var close := r.trace[|inner.trace|].body;
      && (close.Cancelled? <==> inner.cancelled || env.cancelled(inner.tick))
      && (close.Failed? <==> !close.Cancelled? && (AnyFailed(told) || late))
      && (close.Failed? ==> close.code == if Failure(told).Some? then Failure(told).value else LoopTimeout)
      && (close.Finished? <==> !close.Cancelled? && !close.Failed?)
  {
    hide Run, Prepare, ValidLayer, Begin, Nested, RunsOutAt, Closed, Ended, Lawful;
    var layer, begun, first := g.nodes[i].layer, Begin(g, s, i), First(g, s, i, inputs);
    var start, r := Nested(g, begun, i, inputs), Inner(g, env, fuel, s, i, inputs);
    Below(g, i);
    NestedIsFresh(g, begun, i, inputs);
    EveryInstanceKeepsItsRecord(layer, env, fuel, fuel, start);
    TimesOutIff(layer, env, fuel, fuel, first);
    EndedTells(layer, env, start.parentDeadline.Some?, |begun.trace|, r.s);
    BeginIs(g, s, i);
    var v := Tick(Resume(begun, r.s));
    var close := ClosedSays(g, v, i, r.s, env.cancelled(r.s.tick));
    assert RunComposite(g, env, fuel, s, i, inputs).s == Closed(g, v, i, r.s, env.cancelled(r.s.tick)).s;
  }

  lemma NestedIsFresh(g: Layer, s: State, i: nat, inputs: Inputs)
    requires i < |g.nodes| && g.nodes[i].Composite? && ValidLayer(g.nodes[i].layer)
    ensures var t := Nested(g, s, i, inputs);
      && t == Fresh(g.nodes[i].layer, t.scope, t.parentDeadline, t.seeds, t.nextSeq, t.trace, t.tick)
      && t.trace == s.trace && t.scope == s.scope + [i] && !Prepare(g.nodes[i].layer, t, 0).timedOut
      && Soonest(s, Prepare(g.nodes[i].layer, t, 0).parentDeadline)
  {
    hide Prepare, ValidLayer;
    PrepareFlags(g.nodes[i].layer, Nested(g, s, i, inputs), 0);
  }

  lemma EndedTells(g: Layer, env: Env, timed: bool, from: nat, s: State)
    requires Flat(g) && Ended(g, env, timed, from, s)
    ensures var told := Told(s, from);
      s.firstFailure == Failure(told) && (s.failed != [] <==> AnyFailed(told)) &&
        (AnyFailed(told) <==> Failure(told).Some?)
  {
    hide Rested, Uncancelled, Latest, Runs, WasSkipped, Failure, Flat;
    var told := Told(s, from);
    FailureIff(told);
    if AnyFailed(told) {
      var k :| 0 <= k < |told| && told[k].Failed?;
      assert HasFailed(told, told[k].node) && told[k].node in s.failed;
    }
    assert s.failed != [] ==> s.failed[0] in s.failed;
  }

  // ---------------------------------------------------------------- what a composite hands on

  /** The node's last finish. */
  ghost predicate FinishesLast(told: seq<Body>, i: nat, q: nat) {
    && q < |told| && told[q].Finished? && told[q].node == i
    && forall l :: q < l < |told| ==> !(told[l].Finished? && told[l].node == i)
  }

  lemma {:induction false} LatestIsTheLastFinish(g: Layer, told: seq<Body>, i: nat)
    requires i < |g.nodes|
    ensures Latest(g, told, i).Some? ==>
      !g.nodes[i].IsGate() && exists q: nat :: FinishesLast(told, i, q) && Latest(g, told, i) == Some(told[q].outputs)
    ensures Latest(g, told, i).None? ==> g.nodes[i].IsGate() || forall q: nat :: !FinishesLast(told, i, q)
  {
    if told != [] {
      var front, last := told[..|told| - 1], |told| - 1;
      LatestIsTheLastFinish(g, front, i);
      if told[last].Finished? && told[last].node == i {
        assert FinishesLast(told, i, last);
      } else {
        FinishStays(told, i);
      }
    }
  }

  lemma FinishStays(told: seq<Body>, i: nat)
    requires told != [] && !(told[|told| - 1].Finished? && told[|told| - 1].node == i)
    ensures forall q: nat :: FinishesLast(told, i, q) <==> FinishesLast(told[..|told| - 1], i, q)
  {
  }

  /** Output `k` of the composite has a value: its source is no gate, and finished last with this on the
      bound port. */
  ghost predicate Delivers(node: Node, told: seq<Body>, k: nat, q: nat, value: Json)
    requires node.Composite?
  {
    && k < |node.outputs| && node.outputs[k].source.node < |node.layer.nodes|
    && !node.layer.nodes[node.outputs[k].source.node].IsGate()
    && FinishesLast(told, node.outputs[k].source.node, q)
    && Get(told[q].outputs, node.outputs[k].source.port) == Some(value)
  }

  lemma SourceValueIs(node: Node, told: seq<Body>, k: nat, value: Json)
    requires node.Composite?
    ensures SourceValue(node, told, k) == Some(value) <==> exists q: nat :: Delivers(node, told, k, q, value)
  {
    if k < |node.outputs| && node.outputs[k].source.node < |node.layer.nodes| {
      var i := node.outputs[k].source.node;
      LatestIsTheLastFinish(node.layer, told, i);
      if Latest(node.layer, told, i).Some? {
        var q: nat :| FinishesLast(told, i, q) && Latest(node.layer, told, i) == Some(told[q].outputs);
        OneLast(told, i, q);
        assert Delivers(node, told, k, q, value) <==> SourceValue(node, told, k) == Some(value);
      }
    }
  }

  lemma OneLast(told: seq<Body>, i: nat, q: nat)
    requires FinishesLast(told, i, q)
    ensures forall l: nat :: FinishesLast(told, i, l) ==> l == q
  {
  }

  /** A composite that finishes has an output exactly when a source bound to it, which is no gate, last
      finished with a value on the bound port. */
  lemma DeliveredIff(node: Node, told: seq<Body>, outputs: Inputs, name: string)
    requires node.Composite? && OutputsOf(node, told, outputs)
    ensures name in outputs <==>
      exists k: nat, q: nat, value :: Delivers(node, told, k, q, value) && node.outputs[k].port.name == name
  {
    assert OutputOf(node, told, outputs, name);
    if k: nat :| Reads(node, told, name, k) {
      SourceValueIs(node, told, k, SourceValue(node, told, k).value);
    }
    forall k: nat, q: nat, value | Delivers(node, told, k, q, value) && node.outputs[k].port.name == name
      ensures Reads(node, told, name, k)
    {
      SourceValueIs(node, told, k, value);
    }
  }

  /** In every run: an output that is bound to a gate's port, and to nothing else, is missing from what
      the composite hands on, whatever the gate finished with. */
  lemma GateOutputIsDropped(g: Layer, env: Env, trace: seq<Event>, from: nat, scope: seq<nat>, seeds: Seeds,
      timed: bool, p: nat, name: string)
    requires ValidLayer(g) && p < |trace| && trace[p].body.Started?
    requires LawfulAt(g, env, trace, from, scope, seeds, timed, p)
    requires var node, q := g.nodes[trace[p].body.node], Next(trace, p + 1, scope);
      && node.Composite? && q < |trace| && trace[q].body.Finished?
      && forall k :: 0 <= k < |node.outputs| && node.outputs[k].port.name == name ==>
           node.outputs[k].source.node < |node.layer.nodes| && node.layer.nodes[node.outputs[k].source.node].IsGate()
    ensures name !in trace[Next(trace, p + 1, scope)].body.outputs
  {
    hide MayStart, Takes, BoundSeeds, Lawful, Next, At, OutputsOf, ValidLayer;
    var node, q := g.nodes[trace[p].body.node], Next(trace, p + 1, scope);
    var told := At(trace[..q], p + 1, scope + [trace[p].body.node]);
    assert OutputsOf(node, told, trace[q].body.outputs);
    DeliveredIff(node, told, trace[q].body.outputs, name);
  }

  // ---------------------------------------------------------------- a composite around a gate

  const EXITS := LayerOf([Examples.Gate(1)], [])

  /** A gate whose `stop` is an input of the composite and whose `exit` is an output of it. */
  const WRAPPED := Composite(true, EXITS, [SubgraphInput(PortSpec("end", true, true), [Binding(0, "stop")])],
    [SubgraphOutput(PortSpec("left", false, true), Binding(0, "exit"))])

  /** Nothing cancels or pauses the run. */
  ghost predicate Calm(env: Env) {
    forall t: nat :: !env.cancelled(t) && env.resumed(t)
  }

  lemma ExitsIsValid()
    ensures ValidLayer(EXITS) && |EXITS.nodes| == 1 && EXITS.edges == [] && EXITS.nodes[0] == Examples.Gate(1)
    ensures EXITS.incoming[0] == [] && EXITS.outgoing[0] == []
  {
  }

  /** What the gate's activation leaves. */
  ghost function Left(s: State, value: Json): State {
    var start, outputs := Started(0, 1, Some(0), false), map["exit" := value];
    Emit(Emit(Emit(s, start), Finished(0, outputs, 1, Some(0))), Log(0))
      .(activations := [1], seeds := map[], iteration := Some(0), loopState := None)
  }

  ghost predicate Waiting(s: State, value: Json) {
    && Sized(EXITS, s) && s.activations == [0] && s.seeds == map[(0, "stop") := value] && s.loopState.None?
    && s.tokens == map[] && s.freshData == {} && s.settled == {} && s.fired == {} && s.parentDeadline.None?
    && s.queue == [] && s.queued == {}
  }

  lemma StopIsControl()
    ensures NamedControl(EXITS, 0, "stop")
  {
    ExitsIsValid();
    assert Examples.TRIGGERS[2] in EXITS.nodes[0].Inputs();
  }

  lemma OneSeed(s: State, value: Json)
    requires s.seeds == map[(0, "stop") := value]
    ensures SeedInputs(s, 0) == map["stop" := value]
  {
    var k := (0, "stop");
    assert k in s.seeds && k.0 == 0 && k.1 == "stop";
  }

  lemma GateTakes(s: State, value: Json)
    requires Flat(EXITS) && Waiting(s, value)
    ensures ConsumedInputs(EXITS, s, 0) == map["stop" := value]
    ensures Consume(EXITS, s, 0) == s.(seeds := map[])
  {
    hide SeedInputs, NamedControl, Examples.Gate, EXITS;
    ExitsIsValid();
    assert In(EXITS, 0) == [] && EdgeInputs(EXITS, s, [], map[]) == map[];
    OneSeed(s, value);
    StopIsControl();
    var used := set k | k in s.seeds && k.0 == 0 && NamedControl(EXITS, 0, k.1);
    assert used == {(0, "stop")} by { assert forall k :: k in s.seeds <==> k == (0, "stop"); }
    assert s.seeds - used == map[];
  }

  lemma GateStops(s: State, value: Json)
    requires Flat(EXITS) && Sized(EXITS, s) && s.activations == [1] && s.loopState.None? && s.seeds == map[]
    ensures GateStop(EXITS, s, 0, map["stop" := value]) == Step(Left(s, value), Continue)
  {
    ExitsIsValid();
    assert Out(EXITS, 0) == [];
    assert "value"[0] != "stop"[0];
  }

  lemma LeftIsLeft(s: State, value: Json)
    requires s.activations == [0] && s.loopState.None?
    ensures Left(Count(s.(seeds := map[]), 0), value) == Left(s, value) && Count(s, 0).activations == [1]
  {
  }

  lemma GateHandles(env: Env, s: State, inputs: Inputs)
    requires Flat(EXITS) && Sized(EXITS, s) && "stop" in inputs
    ensures HandleGate(EXITS, env, s, 0, inputs) == GateStop(EXITS, Count(s, 0), 0, inputs)
  {
    hide GateStop, GateBudget;
    ExitsIsValid();
    Examples.BudgetIs(1);
  }

  lemma GateLeaves(env: Env, fuel: nat, s: State, value: Json)
    requires ValidLayer(EXITS) && Waiting(s, value)
    ensures Activate(EXITS, env, fuel, s, 0) == Step(Left(s, value), Continue)
  {
    hide GateStop, HandleGate, Consume, ConsumedInputs, Left;
    ExitsIsValid();
    GateTakes(s, value);
    GateHandles(env, s.(seeds := map[]), map["stop" := value]);
    LeftIsLeft(s, value);
    GateStops(Count(s.(seeds := map[]), 0), value);
  }

  lemma FirstTurn(env: Env, fuel: nat, s: State, value: Json)
    requires ValidLayer(EXITS) && Waiting(s, value)
    ensures Turn(EXITS, env, fuel, s) == Step(Left(s, value), Continue)
  {
    hide Activate, Left;
    ExitsIsValid();
    assert Evaluate(EXITS, s, 0) == Go;
    var t := s.(queued := s.queued + {0}, queue := s.queue + [0]);
    assert EnqueueReady(EXITS, s, 0) == EnqueueReady(EXITS, t, 1) == t;
    assert Pop(t) == s;
    assert Dispatch(EXITS, env, fuel, s, 0) == Activate(EXITS, env, fuel, s, 0);
    GateLeaves(env, fuel, s, value);
  }

  lemma SecondTurn(env: Env, fuel: nat, s: State)
    requires ValidLayer(EXITS) && Sized(EXITS, s) && s.activations == [1] && s.settled == {} && s.queue == []
    requires s.queued == {}
    ensures Turn(EXITS, env, fuel, s) == Step(s, Break) && SettleUnreached(EXITS, s, 0) == s
  {
    hide Dispatch;
    ExitsIsValid();
    assert Evaluate(EXITS, s, 0) == Wait;
    assert EnqueueReady(EXITS, s, 0) == EnqueueReady(EXITS, s, 1) == s;
    assert SettleUnreached(EXITS, s, 1) == s;
  }

  /** Two turns, and the gate has left by its exit. */
  lemma ExitsRun(env: Env, fuel: nat, n: nat, s: State, value: Json)
    requires ValidLayer(EXITS) && Calm(env) && n >= 2
    requires s == Fresh(EXITS, s.scope, None, map[(0, "stop") := value], s.nextSeq, s.trace, s.tick)
    ensures Prepare(EXITS, s, 0) == s
    ensures Run(EXITS, env, fuel, n, s) == Step(Left(s, value).(tick := s.tick + 6), Break)
  {
    hide Run, Iterate, Turn, SettleUnreached;
    ExitsIsValid();
    assert Prepare(EXITS, s, 1) == s;
    var s3 := Tick(Tick(Tick(s)));
    var t := Left(s3, value);
    assert t == Left(s, value).(tick := s.tick + 3);
    FirstTurn(env, fuel, s3, value);
    IterateIs(EXITS, env, fuel, s);
    RunIs(EXITS, env, fuel, n, s);
    SecondTurn(env, fuel, Tick(Tick(Tick(t))));
    IterateIs(EXITS, env, fuel, t);
    RunIs(EXITS, env, fuel, n - 1, t);
  }

  /** The gate finishes with the value on `exit`, but the composite hands on nothing. */
  lemma ExitNeverLeaves(g: Layer, env: Env, fuel: nat, s: State, i: nat, value: Json)
    requires ValidLayer(g) && Sized(g, s) && i < |g.nodes| && g.nodes[i] == WRAPPED
    requires Calm(env) && Deadline(s).None? && fuel >= 2
    ensures var begun := Begin(g, s, i);
      var left := Left(Nested(g, begun, i, map["end" := value]), value);
      && left.trace == begun.trace + [Event(begun.nextSeq, s.scope + [i], Started(0, 1, Some(0), false)),
           Event(begun.nextSeq + 1, s.scope + [i], Finished(0, map["exit" := value], 1, Some(0))),
           Event(begun.nextSeq + 2, s.scope + [i], Log(0))]
      && exists u: State ::
           u.trace == left.trace && Sized(g, u) &&
           RunComposite(g, env, fuel, s, i, map["end" := value]) == Step(Finish(g, u, i, map[], s.iteration), Continue)
  {
    hide Run, Prepare, Finish, Left, ValidLayer, Begin, Return, Nested;
    var begun, inputs := Begin(g, s, i), map["end" := value];
    BeginIs(g, s, i);
    NestedIs(g, begun, i, value);
    var inner := Nested(g, begun, i, inputs);
    ExitsIsValid();
    ExitsRun(env, fuel, fuel, inner, value);
    LeftTells(inner, value);
    var r := Step(Left(inner, value).(tick := inner.tick + 6), Break);
    assert Run(EXITS, env, fuel, fuel, Prepare(EXITS, inner, 0)) == r;
    assert RunComposite(g, env, fuel, s, i, inputs) == Return(g, env, begun, i, r) by { InputIsThere(g, i, value); }
    ReturnIs(g, env, begun, i, r);
  }

  lemma BeginIs(g: Layer, s: State, i: nat)
    requires Flat(g) && Sized(g, s) && i < |g.nodes|
    ensures var t := Begin(g, s, i);
      && t.scope == s.scope && t.iteration == s.iteration && t.timedOut == s.timedOut
      && t.loopState == s.loopState && t.parentDeadline == s.parentDeadline && Deadline(t) == Deadline(s)
  {
  }

  lemma NestedIs(g: Layer, s: State, i: nat, value: Json)
    requires i < |g.nodes| && g.nodes[i] == WRAPPED && Deadline(s).None?
    ensures Nested(g, s, i, map["end" := value]) ==
      Fresh(EXITS, s.scope + [i], None, map[(0, "stop") := value], s.nextSeq, s.trace, s.tick)
  {
    OneBinding(value);
  }

  lemma LeftTells(s: State, value: Json)
    requires s == Fresh(EXITS, s.scope, None, map[(0, "stop") := value], s.nextSeq, s.trace, s.tick)
    ensures var t := Left(s, value);
      && t.trace == s.trace + [Event(s.nextSeq, s.scope, Started(0, 1, Some(0), false)),
           Event(s.nextSeq + 1, s.scope, Finished(0, map["exit" := value], 1, Some(0))),
           Event(s.nextSeq + 2, s.scope, Log(0))]
      && !t.cancelled && !t.timedOut && t.failed == [] && t.latest == map[]
  {
  }

  lemma InputIsThere(g: Layer, i: nat, value: Json)
    requires i < |g.nodes| && g.nodes[i] == WRAPPED
    ensures !LacksPort(g, i, map["end" := value])
  {
  }

  lemma ReturnIs(g: Layer, env: Env, s: State, i: nat, r: Step)
    requires Flat(g) && Sized(g, s) && i < |g.nodes| && g.nodes[i] == WRAPPED && Calm(env) && r.flow.Break?
    requires !r.s.cancelled && !r.s.timedOut && r.s.failed == [] && r.s.latest == map[]
    ensures exists u: State ::
      u.trace == r.s.trace && Sized(g, u) &&
      Return(g, env, s, i, r) == Step(Finish(g, u, i, map[], s.iteration), Continue)
  {
    hide Finish, Flat;
    assert CompositeOutputs(WRAPPED.outputs, map[], map[]) == map[];
    var u := Tick(Resume(s, r.s));
    assert Return(g, env, s, i, r) == Step(Finish(g, u, i, map[], s.iteration), Continue);
  }

  lemma OneBinding(value: Json)
    ensures SeedsFor(WRAPPED.ports, map["end" := value], map[]) == map[(0, "stop") := value]
  {
    var seeds := map[(0, "stop") := value];
    assert Bind([Binding(0, "stop")], value, map[]) == Bind([], value, seeds) == seeds;
  }
}
