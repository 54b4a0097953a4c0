/** The scheduler keeps to its record: after every turn its stores hold what the event stream says,
    and every activation in the stream, at every depth, is lawful. */
module SchedulerLawful {
  import opened Wrappers
  import opened Json
  import opened Workflow
  import opened SchedulerSpec
  import opened SchedulerExit
  import opened SchedulerStream
  import opened SchedulerLaw
  import opened SchedulerLedger
  import opened SchedulerActivations
  import G = SchedulerGate
  import T = SchedulerTrace

  // ---------------------------------------------------------------- the stream goes on being lawful

  /** What holds of an instance between turns. */
  ghost predicate Ruled(g: Layer, env: Env, seeds: Seeds, timed: bool, from: nat, s: State)
    requires ValidLayer(g)
  {
    && Sized(g, s) && from <= |s.trace| && Records(g, seeds, s, Told(s, from))
    && (s.loopState.Some? <==> LoopOpen(g, Told(s, from))) && Owned(g, s)
    && (s.parentDeadline.Some? <==> timed) && !s.cancelled && !s.timedOut && Uncancelled(Told(s, from))
    && (forall i :: 0 <= i < |g.nodes| && !g.nodes[i].enabled ==> i in s.settled)
    && Lawful(g, env, s.trace, from, s.scope, seeds, timed) && Rested(s.trace, from, s.scope)
  }

  /** A started activation and its closing, at position `q`, are added, with nothing else started at
      this scope. */
  ghost predicate Joins(s: State, t: State, q: nat) {
    && t.scope == s.scope && s.trace <= t.trace && |s.trace| < q <= |t.trace| && |s.trace| < |t.trace|
    && t.trace[|s.trace|].scope == s.scope && t.trace[|s.trace|].body.Started?
    && (forall k :: |s.trace| < k < q ==> t.trace[k].scope != s.scope)
    && (forall k :: q <= k < |t.trace| ==> t.trace[k].scope == s.scope && !t.trace[k].body.Started?)
  }

  lemma {:induction false} NextSkips(trace: seq<Event>, p: nat, q: nat, scope: seq<nat>)
    requires p <= q <= |trace| && (q < |trace| ==> trace[q].scope == scope)
    requires forall k :: p <= k < q ==> trace[k].scope != scope
    ensures Next(trace, p, scope) == q
    decreases q - p
  {
    if p < q { NextSkips(trace, p + 1, q, scope); }
  }

  lemma JoinsLawful(g: Layer, env: Env, seeds: Seeds, timed: bool, from: nat, s: State, t: State, q: nat)
    requires ValidLayer(g) && from <= |s.trace| && Joins(s, t, q)
    requires Lawful(g, env, s.trace, from, s.scope, seeds, timed) && Rested(s.trace, from, s.scope)
    requires LawfulAt(g, env, t.trace, from, s.scope, seeds, timed, |s.trace|)
    ensures Lawful(g, env, t.trace, from, s.scope, seeds, timed) && Next(t.trace, |s.trace| + 1, s.scope) == q
    ensures q < |t.trace| ==> Rested(t.trace, from, s.scope)
  {
    hide LawfulAt, Lawful, Rested;
    NextSkips(t.trace, |s.trace| + 1, q, s.scope);
    LawfulGrows(g, env, s.trace, t.trace, from, s.scope, seeds, timed);
    if q < |t.trace| { RestedGrows(s.trace, t.trace, from, s.scope); }
  }

  lemma ActsJoin(g: Layer, s: State, t: State, start: Body, close: Body)
    requires Flat(g) && Acts(g, s, t, start, close) && start.Started? && !close.Started?
    ensures Joins(s, t, |s.trace| + 1) && |t.trace| > |s.trace| + 1
    ensures t.trace[|s.trace|].body == start && t.trace[|s.trace| + 1].body == close
  {
    forall k | |s.trace| + 1 <= k < |t.trace| ensures !t.trace[k].body.Started? {
      var j := k - |s.trace|;
      assert Said(s, t)[j] == t.trace[k].body;
      if j >= 2 { assert Said(s, t)[2..][j - 2] == Said(s, t)[j]; }
    }
    assert Said(s, t)[0] == t.trace[|s.trace|].body && Said(s, t)[1] == t.trace[|s.trace| + 1].body;
  }

  /** An activation with nothing inside. */
  lemma LeafLawful(g: Layer, env: Env, seeds: Seeds, timed: bool, from: nat, s: State, t: State, inputs: Inputs,
      start: Body, close: Body)
    requires ValidLayer(g) && from <= |s.trace| && Acts(g, s, t, start, close) && start.Started?
    requires start.node < |g.nodes| && g.nodes[start.node].enabled && !g.nodes[start.node].Composite?
    requires Lawful(g, env, s.trace, from, s.scope, seeds, timed) && Rested(s.trace, from, s.scope)
    requires MayStart(g, seeds, Told(s, from), start.node) && Takes(g, seeds, Told(s, from), start.node, inputs)
    requires if g.nodes[start.node].IsGate() then GateCloses(g, inputs, start, close)
      else ExecutorCloses(g, env, s.scope, inputs, timed || LoopOpen(g, Told(s, from)), start, close)
    ensures Lawful(g, env, t.trace, from, s.scope, seeds, timed) && Rested(t.trace, from, s.scope)
  {
    hide Acts, Lawful, Rested, MayStart, Takes, GateCloses, ExecutorCloses, ValidLayer, LoopOpen;
    assert !close.Started? by {
      NotStarted(g, env, s.scope, inputs, timed || LoopOpen(g, Told(s, from)), start, close);
    }
    ActsJoin(g, s, t, start, close);
    var p := |s.trace|;
    assert t.trace[..p] == s.trace;
    NextSkips(t.trace, p + 1, p + 1, s.scope);
    JoinsLawful(g, env, seeds, timed, from, s, t, p + 1);
  }

  lemma NotStarted(g: Layer, env: Env, scope: seq<nat>, inputs: Inputs, timed: bool, start: Body, close: Body)
    requires start.Started? && start.node < |g.nodes|
    requires GateCloses(g, inputs, start, close) || ExecutorCloses(g, env, scope, inputs, timed, start, close)
    ensures !close.Started? && !close.Skipped? && !close.Log?
  {
  }

  // ---------------------------------------------------------------- one activation

  /** Only events at the instance's scope or below it are added. */
  ghost predicate Follows(s: State, t: State) {
    && t.scope == s.scope && s.trace <= t.trace
    && forall k :: |s.trace| <= k < |t.trace| ==> s.scope <= t.trace[k].scope
  }

  /** How a step leaves an instance that was ruled. */
  ghost predicate After(g: Layer, env: Env, seeds: Seeds, timed: bool, from: nat, s: State, r: Step)
    requires ValidLayer(g)
  {
    && Follows(s, r.s) && Lawful(g, env, r.s.trace, from, s.scope, seeds, timed)
    && (r.flow.Continue? ==> Ruled(g, env, seeds, timed, from, r.s))
    && (r.flow.Cut? ==> Records(g, seeds, r.s, Told(r.s, from)))
    && (r.flow.Break? ==> Ended(g, env, timed, from, r.s))
  }

  /** What still holds once the run has ended. */
  ghost predicate Ended(g: Layer, env: Env, timed: bool, from: nat, s: State) {
    && from <= |s.trace| && Results(g, s, Told(s, from)) && Rested(s.trace, from, s.scope)
    && (Uncancelled(Told(s, from)) || s.cancelled) && (s.timedOut ==> timed)
    && (s.cancelled ==> !Uncancelled(Told(s, from)) || Stopped(env))
  }

  lemma OpenLater(g: Layer, told: seq<Body>, start: Body, close: Body, rest: seq<Body>)
    requires Flat(g) && Neutral(g, rest) && start.Started?
    ensures LoopOpen(g, told + ([start, close] + rest)) <==> OpenAfter(g, close, LoopOpen(g, told))
    ensures Uncancelled(told) ==> (Uncancelled(told + ([start, close] + rest)) <==> !close.Cancelled?)
  {
    assert told + ([start, close] + rest) == (told + [start] + [close]) + rest;
    assert (told + ([start, close] + rest))[|told| + 1] == close;
    Snoc(g, told, start);
    Snoc(g, told + [start], close);
    NeutralReads(g, told + [start] + [close], rest);
  }

  lemma StaySettled(g: Layer, s: State, t: State, told: seq<Body>, more: seq<Body>)
    requires Results(g, s, told) && Results(g, t, told + more)
    ensures forall i :: 0 <= i < |g.nodes| && i in s.settled ==> i in t.settled
  {
    hide HasFailed, WasSkipped, Latest, Runs, Failure;
    Outcomes(told, more);
  }

  lemma ActsFollow(g: Layer, s: State, t: State, start: Body, close: Body)
    requires Flat(g) && Acts(g, s, t, start, close)
    ensures Follows(s, t)
  {
  }

  lemma ActsSaid(g: Layer, s: State, t: State, start: Body, close: Body, from: nat)
    requires Flat(g) && Acts(g, s, t, start, close) && from <= |s.trace|
    ensures var rest := Said(s, t)[2..];
      Neutral(g, rest) && Said(s, t) == [start, close] + rest &&
        Told(t, from) == Told(s, from) + ([start, close] + rest)
  {
    AddsTold(s, t, from);
  }

  /** From the activation's own lemma to the instance. */
  lemma LeafAfter(g: Layer, env: Env, seeds: Seeds, timed: bool, from: nat, s: State, r: Step, inputs: Inputs,
      start: Body, close: Body)
    requires ValidLayer(g) && Ruled(g, env, seeds, timed, from, s) && start.Started? && start.node < |g.nodes|
    requires Done(g, seeds, s, r, Told(s, from), start, close) && Sized(g, r.s)
    requires g.nodes[start.node].enabled && !g.nodes[start.node].Composite?
    requires MayStart(g, seeds, Told(s, from), start.node) && Takes(g, seeds, Told(s, from), start.node, inputs)
    requires if g.nodes[start.node].IsGate() then GateCloses(g, inputs, start, close)
      else ExecutorCloses(g, env, s.scope, inputs, timed || LoopOpen(g, Told(s, from)), start, close)
    requires r.flow.Continue? ==> Owned(g, r.s) && (r.s.loopState.Some? <==> OpenAfter(g, close, s.loopState.Some?))
    ensures After(g, env, seeds, timed, from, s, r)
  {
    hide Acts, Lawful, Rested, MayStart, Takes, GateCloses, ExecutorCloses, ValidLayer, LoopOpen, Stores, Results,
      OpenAfter, Uncancelled, Owned, Sized, Flat;
    LeafLawful(g, env, seeds, timed, from, s, r.s, inputs, start, close);
    ActsFollow(g, s, r.s, start, close);
    ActsSaid(g, s, r.s, start, close, from);
    OpenLater(g, Told(s, from), start, close, Said(s, r.s)[2..]);
    StaySettled(g, s, r.s, Told(s, from), Said(s, r.s));
  }

  lemma GateAfter(g: Layer, env: Env, seeds: Seeds, timed: bool, from: nat, s: State, i: nat)
    requires ValidLayer(g) && Ruled(g, env, seeds, timed, from, s) && i < |g.nodes| && g.nodes[i].IsGate()
    requires g.nodes[i].enabled && MayStart(g, seeds, Told(s, from), i)
    ensures After(g, env, seeds, timed, from, s, HandleGate(g, env, Consume(g, s, i), i, ConsumedInputs(g, s, i)))
  {
    hide Lawful, Rested, MayStart, Takes, GateCloses, ExecutorCloses, ValidLayer, LoopOpen, Stores, Results,
      OpenAfter, Uncancelled, Done, After, Consume, ConsumedInputs, HandleGate, Owned;
    var inputs := ConsumedInputs(g, s, i);
    TakesConsumed(g, seeds, s, Told(s, from), i);
    var start, close := GateIsDone(g, env, seeds, s, Told(s, from), i, inputs);
    LeafAfter(g, env, seeds, timed, from, s, HandleGate(g, env, Consume(g, s, i), i, inputs), inputs, start, close);
  }

  lemma NodeAfter(g: Layer, env: Env, seeds: Seeds, timed: bool, from: nat, s: State, i: nat)
    requires ValidLayer(g) && Ruled(g, env, seeds, timed, from, s) && i < |g.nodes| && g.nodes[i].Task?
    requires !g.nodes[i].IsGate() && g.nodes[i].enabled && MayStart(g, seeds, Told(s, from), i)
    ensures After(g, env, seeds, timed, from, s, RunNode(g, env, Consume(g, s, i), i, ConsumedInputs(g, s, i)))
  {
    hide Lawful, Rested, MayStart, Takes, GateCloses, ExecutorCloses, ValidLayer, LoopOpen, Stores, Results,
      Uncancelled, Done, After, Consume, ConsumedInputs, RunNode;
    var inputs := ConsumedInputs(g, s, i);
    TakesConsumed(g, seeds, s, Told(s, from), i);
    var close := NodeDone(g, env, seeds, s, Told(s, from), i, inputs);
    G.NodeLeaves(g, env, Consume(g, s, i), i, inputs);
    assert Same(Started(i, s.activations[i] + 1, s.iteration, false), close) by {
      ExecutorIsSame(g, env, s.scope, inputs, Deadline(s).Some?, Started(i, s.activations[i] + 1, s.iteration, false),
        close);
    }
    LeafAfter(g, env, seeds, timed, from, s, RunNode(g, env, Consume(g, s, i), i, inputs), inputs,
      Started(i, s.activations[i] + 1, s.iteration, false), close);
  }

  lemma ExecutorIsSame(g: Layer, env: Env, scope: seq<nat>, inputs: Inputs, timed: bool, start: Body, close: Body)
    requires start.Started? && start.node < |g.nodes| && ExecutorCloses(g, env, scope, inputs, timed, start, close)
    ensures Same(start, close)
  {
  }

  // ---------------------------------------------------------------- composites

  /** The stream goes on below the scope, inside an activation of `i`. */
  ghost predicate Under(s: State, trace: seq<Event>, i: nat) {
    s.trace <= trace && forall k :: |s.trace| <= k < |trace| ==> s.scope + [i] <= trace[k].scope
  }

  lemma {:induction false} UnderTold(s: State, trace: seq<Event>, i: nat, from: nat)
    requires Under(s, trace, i) && from <= |s.trace|
    ensures At(trace, from, s.scope) == Told(s, from)
    ensures forall k :: |s.trace| <= k < |trace| ==> trace[k].scope != s.scope && s.scope <= trace[k].scope
    decreases |trace|
  {
    if |trace| == |s.trace| {
      assert trace == s.trace;
    } else {
      var m := |trace| - 1;
      UnderTold(s, trace[..m], i, from);
      assert |s.scope + [i]| <= |trace[m].scope|;
      assert s.scope <= s.scope + [i] <= trace[m].scope;
    }
  }

  /** How a composite that ran closes. */
  ghost predicate ClosesAs(node: Node, inner: State, cancelled: bool, close: Body)
    requires node.Composite?
  {
    if inner.cancelled || cancelled then close.Cancelled?
    else if inner.timedOut || inner.failed != [] then
      FailsWith(close, if inner.firstFailure.Some? then inner.firstFailure.value else LoopTimeout)
    else close.Finished? && close.outputs == CompositeOutputs(node.outputs, inner.latest, map[])
  }

  ghost predicate About(close: Body, i: nat, k: nat, iteration: Option<nat>) {
    && (close.Finished? || close.Failed? || close.Cancelled?) && close.node == i && close.activation == k
    && close.iteration == iteration
  }

  lemma ClosedEnters(g: Layer, v: State, i: nat, inner: State, cancelled: bool) returns (close: Body)
    requires Flat(g) && Sized(g, v) && i < |g.nodes| && g.nodes[i].Composite? && Unmarked(g, v)
    ensures var r := Closed(g, v, i, inner, cancelled);
      && Enters(g, v, r.s, close) && ClosesAs(g.nodes[i], inner, cancelled, close)
      && About(close, i, v.activations[i], v.iteration)
      && (if close.Cancelled? then r.flow.Break? && r.s.cancelled else r.flow.Continue? && r.s.cancelled == v.cancelled)
      && r.s.timedOut == v.timedOut && r.s.parentDeadline == v.parentDeadline
  {
    hide Enters, FailStarted, Finish, CompositeOutputs, Flat, Unmarked;
    var k, it := v.activations[i], v.iteration;
    if inner.cancelled || cancelled {
      close := Cancelled(i, k, it);
      CancelEnters(g, v, i, k, it);
    } else if inner.timedOut || inner.failed != [] {
      var code := if inner.firstFailure.Some? then inner.firstFailure.value else LoopTimeout;
      close := Failed(i, code, k, it);
      FailEnters(g, v, i, k, it, code);
      FailFlags(g, v, i, k, it, code);
    } else {
      var outputs := CompositeOutputs(g.nodes[i].outputs, inner.latest, map[]);
      close := Finished(i, outputs, k, it);
      FinishEnters(g, v, i, outputs, it);
      FinishFlags(g, v, i, outputs, it);
    }
  }

  lemma FinishFlags(g: Layer, s: State, i: nat, outputs: Inputs, iteration: Option<nat>)
    requires Flat(g) && Sized(g, s) && i < |g.nodes|
    ensures var t := Finish(g, s, i, outputs, iteration);
      t.cancelled == s.cancelled && t.timedOut == s.timedOut && t.parentDeadline == s.parentDeadline
  {
    hide Propagate;
  }

  lemma {:induction false} FailureIff(told: seq<Body>)
    ensures Failure(told).Some? <==> exists k :: 0 <= k < |told| && told[k].Failed?
  {
    if told != [] {
      var front := told[..|told| - 1];
      FailureIff(front);
      forall k | 0 <= k < |front| ensures front[k] == told[k] {}
    }
  }

  lemma FailedIff(g: Layer, s: State, told: seq<Body>)
    requires Results(g, s, told)
    ensures s.failed != [] <==> Failure(told).Some?
  {
    hide Failure, Latest, Runs;
    FailureIff(told);
    if s.failed != [] {
      assert s.failed[0] in s.failed && HasFailed(told, s.failed[0]);
    }
    if k :| 0 <= k < |told| && told[k].Failed? {
      assert HasFailed(told, told[k].node);
    }
  }

  lemma CompositeIsLawful(env: Env, node: Node, inner: State, timed: bool, from: nat, cancelled: bool, inputs: Inputs,
      start: Body, close: Body)
    requires node.Composite? && Ended(node.layer, env, timed, from, inner) && ClosesAs(node, inner, cancelled, close)
    requires start.Started? && Same(start, close) && !LacksOne(node, inputs) && (cancelled ==> Stopped(env))
    requires forall j :: 0 <= j < |node.outputs| ==> node.outputs[j].source.node < |node.layer.nodes|
    ensures CompositeCloses(env, node, inputs, timed, Told(inner, from), start, close)
  {
    hide Rested, OutputsOf, CompositeOutputs;
    var told := Told(inner, from);
    FailedIff(node.layer, inner, told);
    assert Failure(told) == inner.firstFailure;
    OutputsAre(node, inner, told);
  }

  lemma LacksIs(g: Layer, i: nat, inputs: Inputs)
    requires i < |g.nodes| && g.nodes[i].Composite?
    ensures LacksPort(g, i, inputs) <==> LacksOne(g.nodes[i], inputs)
  {
    if LacksPort(g, i, inputs) {
      var p :| p in g.nodes[i].ports && p.port.required && p.port.name !in inputs;
      var k :| 0 <= k < |g.nodes[i].ports| && g.nodes[i].ports[k] == p;
    }
    if LacksOne(g.nodes[i], inputs) {
      var k :| 0 <= k < |g.nodes[i].ports| && g.nodes[i].ports[k].port.required &&
        g.nodes[i].ports[k].port.name !in inputs;
      assert g.nodes[i].ports[k] in g.nodes[i].ports;
    }
  }

  /** The pieces of a composite's activation. */
  lemma HostLawful(g: Layer, env: Env, trace: seq<Event>, from: nat, scope: seq<nat>, seeds: Seeds, timed: bool, p: nat,
      q: nat, inputs: Inputs, inner: Seeds)
    requires ValidLayer(g) && p < q <= |trace| && trace[p].body.Started? && q == Next(trace, p + 1, scope)
    requires trace[p].body.node < |g.nodes| && g.nodes[trace[p].body.node].enabled
    requires g.nodes[trace[p].body.node].Composite?
    requires var i, told := trace[p].body.node, At(trace[..p], from, scope);
      && MayStart(g, seeds, told, i) && Takes(g, seeds, told, i, inputs)
      && BoundSeeds(g.nodes[i].ports, inputs, inner)
      && Lawful(g.nodes[i].layer, env, trace[..q], p + 1, scope + [i], inner, timed || LoopOpen(g, told))
      && (q < |trace| ==>
            CompositeCloses(env, g.nodes[i], inputs, timed || LoopOpen(g, told), At(trace[..q], p + 1, scope + [i]),
              trace[p].body, trace[q].body))
    ensures LawfulAt(g, env, trace, from, scope, seeds, timed, p)
  {
    hide MayStart, Takes, BoundSeeds, Lawful, CompositeCloses, LoopOpen, At;
  }

  /** What is known of a nested run. */
  ghost predicate Inside(g: Layer, env: Env, u: State, i: nat, inner: Seeds, timed: bool, r: Step)
    requires ValidLayer(g) && i < |g.nodes| && g.nodes[i].Composite?
  {
    && Under(u, r.s.trace, i) && r.s.scope == u.scope + [i]
    && Lawful(g.nodes[i].layer, env, r.s.trace, |u.trace|, u.scope + [i], inner, timed)
    && (r.flow.Break? ==> Ended(g.nodes[i].layer, env, timed, |u.trace|, r.s)) && !r.flow.Continue?
  }

  lemma CutAfter(g: Layer, env: Env, seeds: Seeds, timed: bool, from: nat, s: State, i: nat, r: Step)
    requires ValidLayer(g) && Ruled(g, env, seeds, timed, from, s) && i < |g.nodes| && g.nodes[i].Composite?
    requires g.nodes[i].enabled && MayStart(g, seeds, Told(s, from), i)
    requires var u, inputs := Begin(g, Consume(g, s, i), i), ConsumedInputs(g, s, i);
      Inside(g, env, u, i, SeedsFor(g.nodes[i].ports, inputs, map[]), timed || LoopOpen(g, Told(s, from)), r)
    requires r.flow.Cut?
    ensures After(g, env, seeds, timed, from, s, Step(Resume(Begin(g, Consume(g, s, i), i), r.s), Cut))
  {
    hide MayStart, Takes, BoundSeeds, Lawful, LoopOpen, At, Rested, Stores, Results, ValidLayer, Consume,
      ConsumedInputs, SeedsFor, Uncancelled;
    var u, inputs, p := Begin(g, Consume(g, s, i), i), ConsumedInputs(g, s, i), |s.trace|;
    var t, trace := Resume(u, r.s), r.s.trace;
    BeginShape(g, s, i);
    UnderTold(u, trace, i, 0);
    TakesConsumed(g, seeds, s, Told(s, from), i);
    SeedsAreBound(g.nodes[i].ports, inputs);
    assert trace[p] == u.trace[p] && trace[..p] == s.trace && trace[..|trace|] == trace;
    forall k | p < k < |trace| ensures trace[k].scope != s.scope {}
    NextSkips(trace, p + 1, |trace|, s.scope);
    HostLawful(g, env, trace, from, s.scope, seeds, timed, p, |trace|, inputs,
      SeedsFor(g.nodes[i].ports, inputs, map[]));
    JoinsLawful(g, env, seeds, timed, from, s, t, |trace|);
    CutRecords(g, seeds, from, s, i, t);
  }

  lemma CutRecords(g: Layer, seeds: Seeds, from: nat, s: State, i: nat, t: State)
    requires Flat(g) && Sized(g, s) && i < |g.nodes| && from <= |s.trace| && Records(g, seeds, s, Told(s, from))
    requires var u := Begin(g, Consume(g, s, i), i);
      Under(u, t.trace, i) && t.scope == u.scope && SameStores(u, t) && t.settled == u.settled
    ensures Records(g, seeds, t, Told(t, from))
  {
    hide Stores, Results, Leaps, Consume, Begin, At;
    var u, told := Begin(g, Consume(g, s, i), i), Told(s, from);
    var start := Started(i, s.activations[i] + 1, s.iteration, g.nodes[i].Composite?);
    BeginAnnounces(g, seeds, s, told, i);
    EntersRecords(g, seeds, s, u, start, told);
    AddsTold(s, u, from);
    UnderTold(u, t.trace, i, from);
    SameRecords(g, seeds, u, t, told + [start]);
  }

  lemma BeginShape(g: Layer, s: State, i: nat)
    requires Flat(g) && Sized(g, s) && i < |g.nodes|
    ensures var u := Begin(g, Consume(g, s, i), i);
      && |u.trace| == |s.trace| + 1 && s.trace <= u.trace && u.scope == s.scope && u.trace[|s.trace|].scope == s.scope
      && u.trace[|s.trace|].body == Started(i, s.activations[i] + 1, s.iteration, g.nodes[i].Composite?)
  {
    hide Consume;
  }

  /** The parent resumes in `v`, and the composite closes in `t`. */
  ghost predicate Returned(g: Layer, seeds: Seeds, from: nat, s: State, v: State, t: State, start: Body, close: Body)
    requires Flat(g)
  {
    && from <= |s.trace| && Enters(g, v, t, close) && Records(g, seeds, t, Told(t, from))
    && Told(t, from) == Told(s, from) + ([start, close] + Said(v, t)[1..])
  }

  lemma ReturnRecords(g: Layer, seeds: Seeds, from: nat, s: State, i: nat, v: State, t: State, close: Body)
    requires Flat(g) && Sized(g, s) && i < |g.nodes| && from <= |s.trace| && Records(g, seeds, s, Told(s, from))
    requires var u := Begin(g, Consume(g, s, i), i);
      Under(u, v.trace, i) && v.scope == u.scope && SameStores(u, v) && v.settled == u.settled
    requires Enters(g, v, t, close)
    ensures Returned(g, seeds, from, s, v, t, Started(i, s.activations[i] + 1, s.iteration, g.nodes[i].Composite?),
      close)
  {
    hide Stores, Results, Leaps, Consume, Begin, At;
    var u, told := Begin(g, Consume(g, s, i), i), Told(s, from);
    var start := Started(i, s.activations[i] + 1, s.iteration, g.nodes[i].Composite?);
    BeginAnnounces(g, seeds, s, told, i);
    EntersRecords(g, seeds, s, u, start, told);
    AddsTold(s, u, from);
    UnderTold(u, v.trace, i, from);
    SameRecords(g, seeds, u, v, told + [start]);
    EntersRecords(g, seeds, v, t, close, told + [start]);
    AddsTold(v, t, from);
    assert Said(v, t) == [close] + Said(v, t)[1..];
    assert told + [start] + ([close] + Said(v, t)[1..]) == told + ([start, close] + Said(v, t)[1..]);
  }

  lemma SameRecords(g: Layer, seeds: Seeds, s: State, t: State, told: seq<Body>)
    requires Flat(g) && SameStores(s, t) && t.settled == s.settled && Records(g, seeds, s, told)
    ensures Records(g, seeds, t, told)
  {
    hide Token, Recent, Latest, Runs, Failure, HasFailed, WasSkipped, SeedLeft;
  }

  lemma EntersShape(g: Layer, v: State, t: State, close: Body)
    requires Flat(g) && Enters(g, v, t, close) && !close.Started?
    ensures t.scope == v.scope && v.trace <= t.trace && |v.trace| < |t.trace| && t.trace[|v.trace|].body == close
    ensures forall k :: |v.trace| <= k < |t.trace| ==> t.trace[k].scope == v.scope && !t.trace[k].body.Started?
    ensures Neutral(g, Said(v, t)[1..])
  {
    assert Said(v, t)[0] == t.trace[|v.trace|].body;
    forall k | |v.trace| <= k < |t.trace| ensures !t.trace[k].body.Started? {
      assert Said(v, t)[k - |v.trace|] == t.trace[k].body;
      if k > |v.trace| { assert Said(v, t)[1..][k - |v.trace| - 1] == t.trace[k].body; }
    }
  }

  lemma ReturnJoins(g: Layer, s: State, i: nat, v: State, t: State, close: Body)
    requires Flat(g) && Sized(g, s) && i < |g.nodes| && Enters(g, v, t, close) && !close.Started? && v.scope == s.scope
    requires Under(Begin(g, Consume(g, s, i), i), v.trace, i)
    ensures Joins(s, t, |v.trace|) && Follows(s, t) && |v.trace| < |t.trace| && t.trace[|v.trace|].body == close
    ensures t.trace[|s.trace|].body == Started(i, s.activations[i] + 1, s.iteration, g.nodes[i].Composite?)
    ensures t.trace[..|s.trace|] == s.trace && t.trace[..|v.trace|] == v.trace
    ensures Neutral(g, Said(v, t)[1..])
  {
    hide Enters, Consume, Begin;
    var u := Begin(g, Consume(g, s, i), i);
    BeginShape(g, s, i);
    UnderTold(u, v.trace, i, 0);
    EntersShape(g, v, t, close);
    assert t.trace[|s.trace|] == v.trace[|s.trace|] == u.trace[|s.trace|];
    forall k | |s.trace| < k < |v.trace| ensures t.trace[k].scope != s.scope && s.scope <= t.trace[k].scope {
      assert t.trace[k] == v.trace[k];
    }
  }

  lemma ReturnLawful(g: Layer, env: Env, seeds: Seeds, timed: bool, from: nat, s: State, i: nat, r: Step, v: State,
      t: State, cancelled: bool, close: Body)
    requires ValidLayer(g) && Ruled(g, env, seeds, timed, from, s) && i < |g.nodes| && g.nodes[i].Composite?
    requires g.nodes[i].enabled && MayStart(g, seeds, Told(s, from), i)
    requires var u, inputs := Begin(g, Consume(g, s, i), i), ConsumedInputs(g, s, i);
      && Inside(g, env, u, i, SeedsFor(g.nodes[i].ports, inputs, map[]), timed || LoopOpen(g, Told(s, from)), r)
      && !LacksOne(g.nodes[i], inputs)
    requires r.flow.Break? && v.trace == r.s.trace && v.scope == s.scope && Enters(g, v, t, close)
    requires cancelled ==> Stopped(env)
    requires ClosesAs(g.nodes[i], r.s, cancelled, close) && About(close, i, s.activations[i] + 1, s.iteration)
    ensures Lawful(g, env, t.trace, from, s.scope, seeds, timed) && Rested(t.trace, from, s.scope) && Follows(s, t)
  {
    hide MayStart, Takes, BoundSeeds, Lawful, LoopOpen, At, Rested, Stores, Results, ValidLayer, Consume, Begin,
      ConsumedInputs, SeedsFor, Uncancelled, Enters, CompositeCloses, LacksOne, ClosesAs;
    var u, inputs, p, q := Begin(g, Consume(g, s, i), i), ConsumedInputs(g, s, i), |s.trace|, |v.trace|;
    var late, start := timed || LoopOpen(g, Told(s, from)), Started(i, s.activations[i] + 1, s.iteration, true);
    BeginShape(g, s, i);
    ReturnJoins(g, s, i, v, t, close);
    TakesConsumed(g, seeds, s, Told(s, from), i);
    SeedsAreBound(g.nodes[i].ports, inputs);
    SourcesExist(g, i);
    CompositeIsLawful(env, g.nodes[i], r.s, late, |u.trace|, cancelled, inputs, start, close);
    NextSkips(t.trace, p + 1, q, s.scope);
    HostLawful(g, env, t.trace, from, s.scope, seeds, timed, p, q, inputs, SeedsFor(g.nodes[i].ports, inputs, map[]));
    JoinsLawful(g, env, seeds, timed, from, s, t, q);
  }

  lemma SourcesExist(g: Layer, i: nat)
    requires ValidLayer(g) && i < |g.nodes| && g.nodes[i].Composite?
    ensures forall j :: 0 <= j < |g.nodes[i].outputs| ==>
      g.nodes[i].outputs[j].source.node < |g.nodes[i].layer.nodes|
  {
  }

  /** What remains of the record once the composite has closed. */
  lemma ReturnRuled(g: Layer, env: Env, seeds: Seeds, timed: bool, from: nat, s: State, v: State, r: Step,
      start: Body, close: Body)
    requires ValidLayer(g) && Ruled(g, env, seeds, timed, from, s) && Sized(g, r.s) && start.Started?
    requires Returned(g, seeds, from, s, v, r.s, start, close) && Neutral(g, Said(v, r.s)[1..])
    requires close.node < |g.nodes| && !g.nodes[close.node].IsGate() &&
      (close.Finished? || close.Failed? || close.Cancelled?)
    requires r.s.scope == s.scope && r.s.parentDeadline == s.parentDeadline && !r.s.timedOut && !r.flow.Cut?
    requires if close.Cancelled? then r.flow.Break? && r.s.cancelled else r.flow.Continue? && !r.s.cancelled
    requires r.flow.Continue? ==> r.s.loopState == s.loopState
    requires Lawful(g, env, r.s.trace, from, s.scope, seeds, timed) && Rested(r.s.trace, from, s.scope) &&
      Follows(s, r.s)
    ensures After(g, env, seeds, timed, from, s, r)
  {
    var rest := Said(v, r.s)[1..];
    hide Lawful, Rested, ValidLayer, LoopOpen, Stores, Results, Uncancelled, Sized, Enters, Flat, Neutral;
    OpenLater(g, Told(s, from), start, close, rest);
    StaySettled(g, s, r.s, Told(s, from), [start, close] + rest);
  }

  lemma ReturnAfter(g: Layer, env: Env, seeds: Seeds, timed: bool, from: nat, s: State, i: nat, r: Step)
    requires ValidLayer(g) && Ruled(g, env, seeds, timed, from, s) && i < |g.nodes| && g.nodes[i].Composite?
    requires g.nodes[i].enabled && MayStart(g, seeds, Told(s, from), i)
    requires var u, inputs := Begin(g, Consume(g, s, i), i), ConsumedInputs(g, s, i);
      && Inside(g, env, u, i, SeedsFor(g.nodes[i].ports, inputs, map[]), timed || LoopOpen(g, Told(s, from)), r)
      && !LacksOne(g.nodes[i], inputs)
    ensures After(g, env, seeds, timed, from, s, Return(g, env, Begin(g, Consume(g, s, i), i), i, r))
  {
    hide MayStart, Lawful, LoopOpen, Rested, Stores, Results, ValidLayer, Consume, Begin, ConsumedInputs, SeedsFor,
      Uncancelled, Enters, LacksOne, ClosesAs, Closed, Returned, After, Leaps, Records, Inside;
    if r.flow.Cut? {
      CutAfter(g, env, seeds, timed, from, s, i, r);
    } else {
      var u := Begin(g, Consume(g, s, i), i);
      var v := Tick(Resume(u, r.s));
      var cancelled := env.cancelled(Resume(u, r.s).tick);
      BeginAnnounces(g, seeds, s, Told(s, from), i);
      AnnouncedMeans(g, s, u, Started(i, s.activations[i] + 1, s.iteration, true));
      InsideMeans(g, env, u, i, SeedsFor(g.nodes[i].ports, ConsumedInputs(g, s, i), map[]),
        timed || LoopOpen(g, Told(s, from)), r);
      var close := ClosedEnters(g, v, i, r.s, cancelled);
      var t := Closed(g, v, i, r.s, cancelled);
      G.ClosedLeaves(g, v, i, r.s, cancelled);
      ReturnRecords(g, seeds, from, s, i, v, t.s, close);
      ReturnJoins(g, s, i, v, t.s, close);
      ReturnLawful(g, env, seeds, timed, from, s, i, r, v, t.s, cancelled, close);
      ReturnRuled(g, env, seeds, timed, from, s, v, t, Started(i, s.activations[i] + 1, s.iteration, true), close);
    }
  }

  lemma AnnouncedMeans(g: Layer, s: State, u: State, start: Body)
    requires Flat(g) && Announced(g, s, u, u, start)
    ensures Sized(g, u) && Unmarked(g, u) && u.scope == s.scope && u.cancelled == s.cancelled
    ensures u.timedOut == s.timedOut && u.parentDeadline == s.parentDeadline
  {
  }

  lemma InsideMeans(g: Layer, env: Env, u: State, i: nat, inner: Seeds, timed: bool, r: Step)
    requires ValidLayer(g) && i < |g.nodes| && g.nodes[i].Composite? && Inside(g, env, u, i, inner, timed, r)
    ensures Under(u, r.s.trace, i) && !r.flow.Continue?
  {
  }

  /** A composite that lacks an input fails with nothing said inside. */
  lemma LacksAfter(g: Layer, env: Env, seeds: Seeds, timed: bool, from: nat, s: State, i: nat)
    requires ValidLayer(g) && Ruled(g, env, seeds, timed, from, s) && i < |g.nodes| && g.nodes[i].Composite?
    requires g.nodes[i].enabled && MayStart(g, seeds, Told(s, from), i) && LacksOne(g.nodes[i], ConsumedInputs(g, s, i))
    ensures var u := Begin(g, Consume(g, s, i), i);
      After(g, env, seeds, timed, from, s,
        Step(FailStarted(g, u, i, u.activations[i], s.iteration, MissingInput), Continue))
  {
    hide MayStart, Lawful, LoopOpen, Rested, Stores, Results, ValidLayer, Consume, Begin, ConsumedInputs, SeedsFor,
      Uncancelled, LacksOne, After, FailStarted, Returned, Takes, BoundSeeds, Enters, Announced;
    var u, inputs := Begin(g, Consume(g, s, i), i), ConsumedInputs(g, s, i);
    var start := Started(i, s.activations[i] + 1, s.iteration, true);
    BeginAnnounces(g, seeds, s, Told(s, from), i);
    AnnouncedMeans(g, s, u, start);
    BeginShape(g, s, i);
    var close := Failed(i, MissingInput, u.activations[i], s.iteration);
    var t := FailStarted(g, u, i, u.activations[i], s.iteration, MissingInput);
    FailEnters(g, u, i, u.activations[i], s.iteration, MissingInput);
    FailFlags(g, u, i, u.activations[i], s.iteration, MissingInput);
    ReturnRecords(g, seeds, from, s, i, u, t, close);
    ReturnJoins(g, s, i, u, t, close);
    LacksLawful(g, env, seeds, timed, from, s, i, t, close);
    ReturnRuled(g, env, seeds, timed, from, s, u, Step(t, Continue), start, close);
  }

  lemma LacksLawful(g: Layer, env: Env, seeds: Seeds, timed: bool, from: nat, s: State, i: nat, t: State, close: Body)
    requires ValidLayer(g) && Ruled(g, env, seeds, timed, from, s) && i < |g.nodes| && g.nodes[i].Composite?
    requires g.nodes[i].enabled && MayStart(g, seeds, Told(s, from), i) && LacksOne(g.nodes[i], ConsumedInputs(g, s, i))
    requires var u := Begin(g, Consume(g, s, i), i); Enters(g, u, t, close) && u.scope == s.scope
    requires About(close, i, s.activations[i] + 1, s.iteration) && FailsWith(close, MissingInput)
    ensures Lawful(g, env, t.trace, from, s.scope, seeds, timed) && Rested(t.trace, from, s.scope)
  {
    hide MayStart, Takes, BoundSeeds, Lawful, LoopOpen, Rested, Stores, Results, ValidLayer, Consume, Begin,
      ConsumedInputs, SeedsFor, Uncancelled, Enters, LacksOne;
    var u, inputs, p := Begin(g, Consume(g, s, i), i), ConsumedInputs(g, s, i), |s.trace|;
    BeginShape(g, s, i);
    ReturnJoins(g, s, i, u, t, close);
    TakesConsumed(g, seeds, s, Told(s, from), i);
    SeedsAreBound(g.nodes[i].ports, inputs);
    NextSkips(t.trace, p + 1, p + 1, s.scope);
    assert At(t.trace[..p + 1], p + 1, s.scope + [i]) == [];
    NothingLawful(g.nodes[i].layer, env, t.trace[..p + 1], p + 1, s.scope + [i],
      SeedsFor(g.nodes[i].ports, inputs, map[]),
      timed || LoopOpen(g, Told(s, from))) by { LayerIsValid(g, i); }
    HostLawful(g, env, t.trace, from, s.scope, seeds, timed, p, p + 1, inputs,
      SeedsFor(g.nodes[i].ports, inputs, map[]));
    JoinsLawful(g, env, seeds, timed, from, s, t, p + 1);
  }

  lemma LayerIsValid(g: Layer, i: nat)
    requires ValidLayer(g) && i < |g.nodes| && g.nodes[i].Composite?
    ensures ValidLayer(g.nodes[i].layer)
  {
  }

  lemma NothingLawful(g: Layer, env: Env, trace: seq<Event>, from: nat, scope: seq<nat>, seeds: Seeds, timed: bool)
    requires ValidLayer(g) && |trace| <= from
    ensures Lawful(g, env, trace, from, scope, seeds, timed)
  {
  }

  // ---------------------------------------------------------------- the run loop

  lemma RuledAlike(g: Layer, env: Env, seeds: Seeds, timed: bool, from: nat, s: State, t: State)
    requires ValidLayer(g) && Ruled(g, env, seeds, timed, from, s) && Alike(s, t) && Sized(g, t)
    requires t.loopState == s.loopState && t.parentDeadline == s.parentDeadline && t.cancelled == s.cancelled
    requires t.timedOut == s.timedOut
    ensures Ruled(g, env, seeds, timed, from, t)
  {
    hide Lawful, Rested, ValidLayer, LoopOpen, Stores, Results, Sized;
    AlikeRecords(g, seeds, s, t, Told(s, from));
  }

  lemma NoStart(g: Layer, s: State, t: State)
    requires Flat(g) && Skims(g, s, t)
    ensures forall k :: |s.trace| <= k < |t.trace| ==> !t.trace[k].body.Started? && !t.trace[k].body.Cancelled?
    ensures Uncancelled(Said(s, t)) && Follows(s, t)
  {
    forall k | |s.trace| <= k < |t.trace| ensures !t.trace[k].body.Started? && !t.trace[k].body.Cancelled? {
      assert Said(s, t)[k - |s.trace|] == t.trace[k].body;
    }
  }

  lemma SkimLawful(g: Layer, env: Env, seeds: Seeds, timed: bool, from: nat, s: State, t: State)
    requires ValidLayer(g) && from <= |s.trace| && Skims(g, s, t)
    requires Lawful(g, env, s.trace, from, s.scope, seeds, timed) && Rested(s.trace, from, s.scope)
    ensures Lawful(g, env, t.trace, from, s.scope, seeds, timed) && Rested(t.trace, from, s.scope)
  {
    hide Lawful, Rested, ValidLayer, LawfulAt;
    NoStart(g, s, t);
    LawfulGrows(g, env, s.trace, t.trace, from, s.scope, seeds, timed);
    RestedGrows(s.trace, t.trace, from, s.scope);
  }

  lemma SkimRuled(g: Layer, env: Env, seeds: Seeds, timed: bool, from: nat, s: State, t: State)
    requires ValidLayer(g) && Ruled(g, env, seeds, timed, from, s) && Skims(g, s, t) && SameStores(s, t) && Sized(g, t)
    requires t.loopState == s.loopState && t.parentDeadline == s.parentDeadline && t.cancelled == s.cancelled
    requires t.timedOut == s.timedOut
    ensures Ruled(g, env, seeds, timed, from, t) && Follows(s, t)
  {
    hide Lawful, Rested, ValidLayer, LoopOpen, Stores, Results, Sized, Flat;
    var told, more := Told(s, from), Said(s, t);
    SkimLawful(g, env, seeds, timed, from, s, t);
    SkimRecords(g, seeds, s, t, told);
    AddsTold(s, t, from);
    NeutralReads(g, told, more);
    NoStart(g, s, t);
    StaySettled(g, s, t, told, more);
  }

  lemma FollowsTwice(s: State, t: State, u: State)
    requires Follows(s, t) && Follows(t, u)
    ensures Follows(s, u)
  {
    forall k | |s.trace| <= k < |u.trace| ensures s.scope <= u.trace[k].scope {
      if k < |t.trace| { assert u.trace[k] == t.trace[k]; }
    }
  }

  lemma AfterSooner(g: Layer, env: Env, seeds: Seeds, timed: bool, from: nat, s: State, t: State, r: Step)
    requires ValidLayer(g) && Follows(s, t) && After(g, env, seeds, timed, from, t, r)
    ensures After(g, env, seeds, timed, from, s, r)
  {
    hide Lawful, Ruled, Ended, ValidLayer;
    FollowsTwice(s, t, r.s);
  }

  lemma RuledAfter(g: Layer, env: Env, seeds: Seeds, timed: bool, from: nat, s: State, t: State, flow: Flow)
    requires ValidLayer(g) && Follows(s, t) && Ruled(g, env, seeds, timed, from, t)
    ensures After(g, env, seeds, timed, from, s, Step(t, flow))
  {
    hide Lawful, Rested, ValidLayer, LoopOpen, Stores, Results, Sized, Flat;
  }

  lemma FreshRuled(g: Layer, env: Env, s: State, seeds: Seeds)
    requires ValidLayer(g) && s == Fresh(g, s.scope, s.parentDeadline, seeds, s.nextSeq, s.trace, s.tick)
    ensures Ruled(g, env, seeds, s.parentDeadline.Some?, |s.trace|, Prepare(g, s, 0)) && Follows(s, Prepare(g, s, 0))
    ensures Good(g, Prepare(g, s, 0), {})
  {
    hide SkipNode, Skims;
    var t := Prepare(g, s, 0);
    PrepareSkims(g, s, 0);
    PrepareGood(g, s, 0);
    assert Told(s, |s.trace|) == [];
    FreshRecords(g, s, seeds);
    PrepareFlags(g, s, 0);
    FreshSkims(g, env, seeds, s, t);
  }

  lemma FreshRecords(g: Layer, s: State, seeds: Seeds)
    requires Flat(g) && s == Fresh(g, s.scope, s.parentDeadline, seeds, s.nextSeq, s.trace, s.tick)
    ensures Records(g, seeds, s, [])
  {
  }

  lemma {:induction false} PrepareFlags(g: Layer, s: State, from: nat)
    requires Flat(g) && Sized(g, s) && from <= |g.nodes|
    ensures var t := Prepare(g, s, from);
      && t.loopState == s.loopState && t.parentDeadline == s.parentDeadline && t.cancelled == s.cancelled
      && t.timedOut == s.timedOut
    decreases |g.nodes| - from
  {
    hide SkipNode, Flat;
    if from < |g.nodes| {
      PrepareFlags(g, if g.nodes[from].enabled then s else SkipNode(g, s, from, Disabled), from + 1);
    }
  }

  lemma FreshSkims(g: Layer, env: Env, seeds: Seeds, s: State, t: State)
    requires ValidLayer(g) && Records(g, seeds, s, []) && Skims(g, s, t) && SameStores(s, t) && Sized(g, t)
    requires t.loopState.None? && s.parentDeadline == t.parentDeadline && !t.cancelled && !t.timedOut
    requires forall i :: 0 <= i < |g.nodes| && !g.nodes[i].enabled ==> i in t.settled
    ensures Ruled(g, env, seeds, s.parentDeadline.Some?, |s.trace|, t) && Follows(s, t)
  {
    hide Stores, Results, ValidLayer, Sized, Flat;
    var from := |s.trace|;
    assert Told(s, from) == [];
    SkimLawful(g, env, seeds, s.parentDeadline.Some?, from, s, t);
    SkimRecords(g, seeds, s, t, []);
    AddsTold(s, t, from);
    assert [] + Said(s, t) == Said(s, t);
    NeutralReads(g, [], Said(s, t));
    NoStart(g, s, t);
  }

  lemma {:induction false} CompositeAfter(g: Layer, env: Env, fuel: nat, seeds: Seeds, timed: bool, from: nat, s: State,
      i: nat)
    requires ValidLayer(g) && Ruled(g, env, seeds, timed, from, s) && i < |g.nodes| && g.nodes[i].Composite?
    requires g.nodes[i].enabled && MayStart(g, seeds, Told(s, from), i)
    ensures After(g, env, seeds, timed, from, s,
      RunComposite(g, env, fuel, Consume(g, s, i), i, ConsumedInputs(g, s, i)))
    decreases g, 0, 1
  {
    hide MayStart, Lawful, LoopOpen, Rested, Stores, Results, ValidLayer, Consume, Begin, ConsumedInputs, SeedsFor,
      Uncancelled, LacksOne, After, FailStarted, Return, Run, Prepare, RunComposite, Inside, LacksPort;
    var u, inputs, c := Begin(g, Consume(g, s, i), i), ConsumedInputs(g, s, i), Consume(g, s, i);
    T.RunCompositeIs(g, env, fuel, c, i, inputs);
    LacksIs(g, i, inputs);
    if LacksPort(g, i, inputs) {
      LacksAfter(g, env, seeds, timed, from, s, i);
    } else {
      InsideHolds(g, env, fuel, seeds, timed, from, s, i);
      ReturnAfter(g, env, seeds, timed, from, s, i,
        Run(g.nodes[i].layer, env, fuel, fuel, Prepare(g.nodes[i].layer, Nested(g, u, i, inputs), 0)));
    }
  }

  /** The nested run, in the parent's terms. */
  lemma {:induction false} InsideHolds(g: Layer, env: Env, fuel: nat, seeds: Seeds, timed: bool, from: nat, s: State,
      i: nat)
    requires ValidLayer(g) && Ruled(g, env, seeds, timed, from, s) && i < |g.nodes| && g.nodes[i].Composite?
    ensures ValidLayer(g.nodes[i].layer)
    ensures var u, inputs := Begin(g, Consume(g, s, i), i), ConsumedInputs(g, s, i);
      Inside(g, env, u, i, SeedsFor(g.nodes[i].ports, inputs, map[]), timed || LoopOpen(g, Told(s, from)),
        Run(g.nodes[i].layer, env, fuel, fuel, Prepare(g.nodes[i].layer, Nested(g, u, i, inputs), 0)))
    decreases g, 0, 0
  {
    hide MayStart, Lawful, LoopOpen, Rested, Stores, Results, ValidLayer, Consume, Begin, ConsumedInputs, SeedsFor,
      Uncancelled, Run, Prepare, Ended, Good;
    var u, inputs, layer := Begin(g, Consume(g, s, i), i), ConsumedInputs(g, s, i), g.nodes[i].layer;
    LayerIsValid(g, i);
    BeginAnnounces(g, seeds, s, Told(s, from), i);
    var start := Nested(g, u, i, inputs);
    FreshRuled(layer, env, start, SeedsFor(g.nodes[i].ports, inputs, map[]));
    assert Deadline(u).Some? <==> timed || LoopOpen(g, Told(s, from));
    RunAfter(layer, env, fuel, fuel, start.seeds, start.parentDeadline.Some?, |u.trace|, Prepare(layer, start, 0));
    AfterInside(layer, env, start.seeds, start.parentDeadline.Some?, start, Prepare(layer, start, 0),
      Run(layer, env, fuel, fuel, Prepare(layer, start, 0)), u, i);
  }

  lemma AfterInside(layer: Layer, env: Env, seeds: Seeds, timed: bool, start: State, first: State, r: Step, u: State,
      i: nat)
    requires ValidLayer(layer) && start.trace == u.trace && start.scope == u.scope + [i] && Follows(start, first)
    requires After(layer, env, seeds, timed, |u.trace|, first, r)
    ensures Under(u, r.s.trace, i) && r.s.scope == u.scope + [i]
    ensures Lawful(layer, env, r.s.trace, |u.trace|, u.scope + [i], seeds, timed)
    ensures r.flow.Break? ==> Ended(layer, env, timed, |u.trace|, r.s)
  {
    hide Lawful, Ended, Ruled;
    FollowsTwice(start, first, r.s);
  }

  lemma {:induction false} ActivateAfter(g: Layer, env: Env, fuel: nat, seeds: Seeds, timed: bool, from: nat, s: State,
      i: nat)
    requires ValidLayer(g) && Ruled(g, env, seeds, timed, from, s) && i < |g.nodes| && i !in s.settled
    requires MayStart(g, seeds, Told(s, from), i)
    ensures After(g, env, seeds, timed, from, s, Activate(g, env, fuel, s, i))
    decreases g, 1, 0
  {
    assert g.nodes[i].enabled;
    hide MayStart, Ruled, After, ValidLayer, HandleGate, RunNode, RunComposite, Consume, ConsumedInputs;
    if g.nodes[i].IsGate() {
      GateAfter(g, env, seeds, timed, from, s, i);
    } else if g.nodes[i].Composite? {
      CompositeAfter(g, env, fuel, seeds, timed, from, s, i);
    } else {
      NodeAfter(g, env, seeds, timed, from, s, i);
    }
  }

  lemma RuledMeans(g: Layer, env: Env, seeds: Seeds, timed: bool, from: nat, s: State)
    requires ValidLayer(g) && Ruled(g, env, seeds, timed, from, s)
    ensures Sized(g, s) && from <= |s.trace| && Records(g, seeds, s, Told(s, from))
  {
  }

  lemma PopRuled(g: Layer, env: Env, seeds: Seeds, timed: bool, from: nat, s: State)
    requires ValidLayer(g) && Ruled(g, env, seeds, timed, from, s) && s.queue != []
    ensures Ruled(g, env, seeds, timed, from, Pop(s)) && Follows(s, Pop(s)) && Told(Pop(s), from) == Told(s, from)
  {
    hide Lawful, Rested, ValidLayer, LoopOpen, Stores, Results;
    RuledAlike(g, env, seeds, timed, from, s, Pop(s));
  }

  lemma {:induction false} DispatchAfter(g: Layer, env: Env, fuel: nat, seeds: Seeds, timed: bool, from: nat, s: State)
    requires ValidLayer(g) && Ruled(g, env, seeds, timed, from, s) && Good(g, s, {}) && s.queue != []
    requires s.queue[0] < |g.nodes|
    ensures After(g, env, seeds, timed, from, s, Dispatch(g, env, fuel, Pop(s), s.queue[0]))
    decreases g, 2, 0
  {
    hide MayStart, Ruled, After, ValidLayer, Activate, Evaluate, Live, Books, SkipNode, Follows, Records;
    var t, i := Pop(s), s.queue[0];
    PopGood(g, s);
    PopRuled(g, env, seeds, timed, from, s);
    RuledMeans(g, env, seeds, timed, from, t);
    RuledAfter(g, env, seeds, timed, from, s, t, Continue);
    if i !in t.settled {
      match Evaluate(g, t, i)
      case Blocked =>
        BlockedHasEdges(g, t, i);
        SkipSkims(g, t, i, NoActiveInput);
        SkimRuled(g, env, seeds, timed, from, t, SkipNode(g, t, i, NoActiveInput));
        RuledAfter(g, env, seeds, timed, from, t, SkipNode(g, t, i, NoActiveInput), Continue);
        AfterSooner(g, env, seeds, timed, from, s, t, Step(SkipNode(g, t, i, NoActiveInput), Continue));
      case Wait =>
      case Go =>
        GoMayStart(g, seeds, t, Told(t, from), i);
        ActivateAfter(g, env, fuel, seeds, timed, from, t, i);
        AfterSooner(g, env, seeds, timed, from, s, t, Activate(g, env, fuel, t, i));
    }
  }

  lemma {:induction false} EnqueueFlags(g: Layer, s: State, from: nat)
    requires Flat(g) && Sized(g, s) && from <= |g.nodes|
    ensures var t := EnqueueReady(g, s, from);
      && t.loopState == s.loopState && t.parentDeadline == s.parentDeadline && t.cancelled == s.cancelled
      && t.timedOut == s.timedOut
    decreases |g.nodes| - from
  {
    hide Evaluate, SkipNode, Flat;
    if from < |g.nodes| {
      if from in s.settled || from in s.queued {
        EnqueueFlags(g, s, from + 1);
      } else {
        match Evaluate(g, s, from)
        case Go => EnqueueFlags(g, s.(queued := s.queued + {from}, queue := s.queue + [from]), from + 1);
        case Blocked =>
          EnqueueFlags(g, if s.activations[from] == 0 then SkipNode(g, s, from, NoActiveInput) else s, from + 1);
        case Wait => EnqueueFlags(g, s, from + 1);
      }
    }
  }

  lemma {:induction false} TurnAfter(g: Layer, env: Env, fuel: nat, seeds: Seeds, timed: bool, from: nat, s: State)
    requires ValidLayer(g) && Ruled(g, env, seeds, timed, from, s) && Good(g, s, {})
    ensures After(g, env, seeds, timed, from, s, Turn(g, env, fuel, s))
    decreases g, 3, 0
  {
    hide Ruled, After, ValidLayer, EnqueueReady, Dispatch, Live, Books, Follows, Records, Skims;
    RuledMeans(g, env, seeds, timed, from, s);
    EnqueueGood(g, s, 0);
    EnqueueSkims(g, s, 0);
    EnqueueFlags(g, s, 0);
    var t := EnqueueReady(g, s, 0);
    SkimRuled(g, env, seeds, timed, from, s, t);
    if t.queue == [] {
      RuledAfter(g, env, seeds, timed, from, s, t, Break);
    } else {
      assert t.queue[0] in t.queue;
      DispatchAfter(g, env, fuel, seeds, timed, from, t);
      AfterSooner(g, env, seeds, timed, from, s, t, Dispatch(g, env, fuel, Pop(t), t.queue[0]));
    }
  }


  // ---------------------------------------------------------------- the end of a run

  lemma TimeoutAfter(g: Layer, env: Env, seeds: Seeds, timed: bool, from: nat, s: State)
    requires ValidLayer(g) && Ruled(g, env, seeds, timed, from, s) && Books(g, s) && s.loopState.Some?
    ensures After(g, env, seeds, timed, from, s, Step(FailLoopTimeout(g, s), Break))
  {
    hide Lawful, LoopOpen, Rested, Stores, Results, ValidLayer, Uncancelled, FailStarted, Enters, Ended, Flat;
    var state := s.loopState.value;
    var i, k := state.gate, Some(state.iteration);
    var start := Started(i, s.activations[i] + 1, k, false);
    var u := Emit(Count(s, i), start);
    var t := FailStarted(g, u, i, u.activations[i], k, LoopTimeout);
    var close := Failed(i, LoopTimeout, u.activations[i], k);
    RecordsUnmarked(g, seeds, s, Told(s, from));
    FailEnters(g, u, i, u.activations[i], k, LoopTimeout);
    FailFlags(g, u, i, u.activations[i], k, LoopTimeout);
    TimeoutLawful(g, env, seeds, timed, from, s, u, t, start, close);
    TimeoutEnded(g, env, seeds, timed, from, s, u, t, start, close);
    var r := FailLoopTimeout(g, s);
    assert r.trace == t.trace && r.scope == t.scope && SameStores(t, r) && r.settled == t.settled;
    EndedAlike(g, env, timed, from, t, r);
  }

  lemma EndedAlike(g: Layer, env: Env, timed: bool, from: nat, s: State, t: State)
    requires Ended(g, env, timed, from, s) && t.trace == s.trace && t.scope == s.scope && t.latest == s.latest
    requires t.failed == s.failed && t.firstFailure == s.firstFailure && t.activations == s.activations
    requires t.fired == s.fired && t.settled == s.settled && (s.cancelled ==> t.cancelled) && (t.timedOut ==> timed)
    requires t.cancelled ==> s.cancelled || Stopped(env)
    ensures Ended(g, env, timed, from, t)
  {
    hide HasFailed, WasSkipped, Latest, Runs, Failure, Rested, Uncancelled;
  }

  lemma TimeoutLawful(g: Layer, env: Env, seeds: Seeds, timed: bool, from: nat, s: State, u: State, t: State,
      start: Body, close: Body)
    requires ValidLayer(g) && Ruled(g, env, seeds, timed, from, s) && s.loopState.Some?
    requires start.Started? && start.node == s.loopState.value.gate < |g.nodes| && Same(start, close)
    requires FailsWith(close, LoopTimeout) && u.scope == s.scope
    requires u.trace == s.trace + [Event(s.nextSeq, s.scope, start)] && Enters(g, u, t, close)
    ensures Lawful(g, env, t.trace, from, s.scope, seeds, timed) && Rested(t.trace, from, s.scope) && Follows(s, t)
  {
    hide Lawful, LoopOpen, Rested, Stores, Results, ValidLayer, Uncancelled, Takes, MayStart, Enters, ConsumedInputs;
    var p, i := |s.trace|, start.node;
    EntersShape(g, u, t, close);
    assert t.trace[p] == u.trace[p] && t.trace[..p] == s.trace;
    NextSkips(t.trace, p + 1, p + 1, s.scope);
    TakesConsumed(g, seeds, s, Told(s, from), i);
    assert GateCloses(g, ConsumedInputs(g, s, i), start, close);
    JoinsLawful(g, env, seeds, timed, from, s, t, p + 1);
  }

  lemma TimeoutEnded(g: Layer, env: Env, seeds: Seeds, timed: bool, from: nat, s: State, u: State, t: State,
      start: Body,
      close: Body)
    requires Flat(g) && from <= |s.trace| && Records(g, seeds, s, Told(s, from)) && Uncancelled(Told(s, from))
    requires start.Started? && start.node < |s.activations| && !close.Cancelled? && !close.Started?
    requires u == Emit(Count(s, start.node), start) && Enters(g, u, t, close) && Rested(t.trace, from, t.scope)
    requires !t.timedOut && !t.cancelled
    ensures Ended(g, env, timed, from, t)
  {
    hide Rested, Stores, LoopOpen, Uncancelled, Adds, Enters, Results, At;
    var told := Told(s, from);
    assert u.trace == s.trace + [Event(s.nextSeq, s.scope, start)] && u.scope == s.scope;
    StartResults(g, s, u, told, start);
    EntersRecords(g, seeds, u, t, close, told + [start]);
    EntersShape(g, u, t, close);
    EntersAdds(g, u, t, close);
    StartTold(s, u, t, from, start);
    var rest := Said(u, t)[1..];
    assert told + [start] + ([close] + rest) == told + ([start, close] + rest);
    OpenLater(g, told, start, close, rest);
  }

  lemma StartResults(g: Layer, s: State, u: State, told: seq<Body>, start: Body)
    requires Flat(g) && Results(g, s, told) && start.Started? && start.node < |s.activations|
    requires u == Emit(Count(s, start.node), start)
    ensures Results(g, u, told + [start])
  {
    hide Results, LeapsOn;
    assert |s.activations| == |g.nodes| by { ResultsSized(g, s, told); }
    StartLeapsOn(g, s, start);
    LeapResults(g, s, u, told, start, []);
    assert told + [start] + [] == told + [start];
  }

  lemma ResultsSized(g: Layer, s: State, told: seq<Body>)
    requires Results(g, s, told)
    ensures |s.activations| == |g.nodes|
  {
  }

  lemma StartTold(s: State, u: State, t: State, from: nat, start: Body)
    requires from <= |s.trace| && u.scope == s.scope && Adds(u, t)
    requires u.trace == s.trace + [Event(s.nextSeq, s.scope, start)]
    ensures Told(t, from) == Told(s, from) + [start] + Said(u, t)
  {
    assert u.trace[..|s.trace|] == s.trace;
    AddsTold(u, t, from);
  }

  lemma EntersAdds(g: Layer, s: State, t: State, b: Body)
    requires Flat(g) && Enters(g, s, t, b)
    ensures Adds(s, t) && Said(s, t) == [b] + Said(s, t)[1..]
  {
  }

  lemma StartLeapsOn(g: Layer, s: State, b: Body)
    requires Flat(g) && b.Started? && b.node < |s.activations| == |g.nodes|
    ensures LeapsOn(g, s, Emit(Count(s, b.node), b), b, [])
  {
    NoSkip(b);
    NoFail(b);
    NothingSkipped();
  }

  lemma SkimEnded(g: Layer, env: Env, timed: bool, from: nat, s: State, t: State)
    requires Flat(g) && Ended(g, env, timed, from, s) && Skims(g, s, t) && SameStores(s, t)
    requires t.cancelled == s.cancelled && t.timedOut == s.timedOut
    ensures Ended(g, env, timed, from, t)
  {
    hide Rested, Results;
    SkimRecords(g, map[], s, t, Told(s, from));
    AddsTold(s, t, from);
    NoStart(g, s, t);
    RestedGrows(s.trace, t.trace, from, s.scope);
    var told := Told(s, from);
    forall k | 0 <= k < |told| ensures (told + Said(s, t))[k] == told[k] {}
  }

  lemma {:induction false} SettleFlags(g: Layer, s: State, from: nat)
    requires Flat(g) && Sized(g, s) && from <= |g.nodes|
    ensures var t := SettleUnreached(g, s, from); t.cancelled == s.cancelled && t.timedOut == s.timedOut
    decreases |g.nodes| - from
  {
    hide SkipNode, Flat;
    if from < |g.nodes| {
      SettleFlags(g,
        if from in s.settled || s.activations[from] > 0 then s else SkipNode(g, s, from, NoActivationPath), from + 1);
    }
  }

  lemma RuledEnds(g: Layer, env: Env, seeds: Seeds, timed: bool, from: nat, s: State, t: State)
    requires ValidLayer(g) && Ruled(g, env, seeds, timed, from, s)
    requires t == s.(tick := t.tick, cancelled := t.cancelled, timedOut := t.timedOut) && (t.timedOut ==> timed)
    requires t.cancelled ==> Stopped(env)
    ensures After(g, env, seeds, timed, from, s, Step(t, Break))
  {
    hide Rested, Lawful, ValidLayer, LoopOpen, Stores, Uncancelled;
    EndedAlike(g, env, timed, from, s, t);
  }

  lemma TickRuled(g: Layer, env: Env, seeds: Seeds, timed: bool, from: nat, s: State)
    requires ValidLayer(g) && Ruled(g, env, seeds, timed, from, s) && Good(g, s, {})
    ensures var t := Tick(Tick(Tick(s)));
      Ruled(g, env, seeds, timed, from, t) && Good(g, t, {}) && Books(g, t) && Follows(s, t)
  {
    hide Lawful, Rested, ValidLayer, LoopOpen, Stores, Results, Live, Books;
    TickGood(g, s, {});
    TickGood(g, Tick(s), {});
    TickGood(g, Tick(Tick(s)), {});
    RuledAlike(g, env, seeds, timed, from, s, Tick(Tick(Tick(s))));
  }

  lemma IterateIs(g: Layer, env: Env, fuel: nat, s: State)
    requires ValidLayer(g) && Sized(g, s)
    ensures var s3 := Tick(Tick(Tick(s)));
      Iterate(g, env, fuel, s) ==
        if env.cancelled(s.tick) then Step(s.(tick := s.tick + 1, cancelled := true), Break)
        else if !env.resumed(s.tick + 1) then Step(s.(tick := s.tick + 2, cancelled := true), Break)
        else if Expired(env, Tick(Tick(s))) then
          Step(if s.loopState.Some? then FailLoopTimeout(g, s3) else s.(tick := s.tick + 3, timedOut := true), Break)
        else Turn(g, env, fuel, s3)
  {
    hide Turn, FailLoopTimeout, ValidLayer, Expired;
  }

  lemma {:induction false} IterateAfter(g: Layer, env: Env, fuel: nat, seeds: Seeds, timed: bool, from: nat, s: State)
    requires ValidLayer(g) && Ruled(g, env, seeds, timed, from, s) && Good(g, s, {})
    ensures After(g, env, seeds, timed, from, s, Iterate(g, env, fuel, s))
    decreases g, 4, 0
  {
    var s3 := Tick(Tick(Tick(s)));
    IterateIs(g, env, fuel, s);
    TickRuled(g, env, seeds, timed, from, s);
    assert s.loopState.None? && Expired(env, Tick(Tick(s))) ==> timed;
    hide Ruled, After, Follows, Iterate, Turn, FailLoopTimeout, Good, Expired, Tick, ValidLayer;
    if env.cancelled(s.tick) {
      RuledEnds(g, env, seeds, timed, from, s, s.(tick := s.tick + 1, cancelled := true));
    } else if !env.resumed(s.tick + 1) {
      RuledEnds(g, env, seeds, timed, from, s, s.(tick := s.tick + 2, cancelled := true));
    } else if Expired(env, Tick(Tick(s))) && s.loopState.Some? {
      ExpiredAfter(g, env, seeds, timed, from, s, s3);
    } else if Expired(env, Tick(Tick(s))) {
      RuledEnds(g, env, seeds, timed, from, s, s.(tick := s.tick + 3, timedOut := true));
    } else {
      TurnAfter(g, env, fuel, seeds, timed, from, s3);
      AfterSooner(g, env, seeds, timed, from, s, s3, Turn(g, env, fuel, s3));
    }
  }

  lemma ExpiredAfter(g: Layer, env: Env, seeds: Seeds, timed: bool, from: nat, s: State, t: State)
    requires ValidLayer(g) && Follows(s, t) && Ruled(g, env, seeds, timed, from, t) && Books(g, t)
    requires t == s.(tick := t.tick) && s.loopState.Some?
    ensures After(g, env, seeds, timed, from, s, Step(FailLoopTimeout(g, t), Break))
  {
    assert Sized(g, t);
    hide After, Ruled, FailLoopTimeout, Books, Follows;
    TimeoutAfter(g, env, seeds, timed, from, t);
    AfterSooner(g, env, seeds, timed, from, s, t, Step(FailLoopTimeout(g, t), Break));
  }

  lemma AfterGoesOn(g: Layer, env: Env, seeds: Seeds, timed: bool, from: nat, s: State, r: Step)
    requires ValidLayer(g) && After(g, env, seeds, timed, from, s, r) && r.flow.Continue?
    ensures Ruled(g, env, seeds, timed, from, r.s) && Follows(s, r.s)
  {
  }

  lemma RunIs(g: Layer, env: Env, fuel: nat, n: nat, s: State)
    requires ValidLayer(g) && Sized(g, s)
    ensures Run(g, env, fuel, n, s) ==
      if n == 0 then Step(s, Cut)
      else
        var r := Iterate(g, env, fuel, s);
        if r.flow.Continue? then Run(g, env, fuel, n - 1, r.s)
        else if r.flow.Break? then Step(SettleUnreached(g, r.s, 0), Break) else r
  {
    hide Iterate, SettleUnreached, ValidLayer;
  }

  lemma {:induction false} RunAfter(g: Layer, env: Env, fuel: nat, n: nat, seeds: Seeds, timed: bool, from: nat,
      s: State)
    requires ValidLayer(g) && Ruled(g, env, seeds, timed, from, s) && Good(g, s, {})
    ensures After(g, env, seeds, timed, from, s, Run(g, env, fuel, n, s))
    decreases g, 5, n
  {
    hide Ruled, ValidLayer, Iterate, SettleUnreached, Books, Live, After, Run;
    RunIs(g, env, fuel, n, s);
    if n == 0 {
      RuledStays(g, env, seeds, timed, from, s);
    } else {
      IterateAfter(g, env, fuel, seeds, timed, from, s);
      IterateGood(g, env, fuel, s);
      var r := Iterate(g, env, fuel, s);
      if r.flow.Continue? {
        AfterGoesOn(g, env, seeds, timed, from, s, r);
        RunAfter(g, env, fuel, n - 1, seeds, timed, from, r.s);
        AfterSooner(g, env, seeds, timed, from, s, r.s, Run(g, env, fuel, n - 1, r.s));
      } else if r.flow.Break? {
        EndAfter(g, env, seeds, timed, from, s, r);
      }
    }
  }

  lemma RuledStays(g: Layer, env: Env, seeds: Seeds, timed: bool, from: nat, s: State)
    requires ValidLayer(g) && Ruled(g, env, seeds, timed, from, s)
    ensures After(g, env, seeds, timed, from, s, Step(s, Cut))
  {
    RuledAfter(g, env, seeds, timed, from, s, s, Cut);
  }

  lemma EndAfter(g: Layer, env: Env, seeds: Seeds, timed: bool, from: nat, s: State, r: Step)
    requires ValidLayer(g) && After(g, env, seeds, timed, from, s, r) && r.flow.Break? && Sized(g, r.s)
    ensures After(g, env, seeds, timed, from, s, Step(SettleUnreached(g, r.s, 0), Break))
  {
    hide Lawful, ValidLayer, SettleUnreached, Skims, Rested, Results;
    var t := SettleUnreached(g, r.s, 0);
    SettleSkims(g, r.s, 0);
    SettleFlags(g, r.s, 0);
    SkimEnded(g, env, timed, from, r.s, t);
    SkimLawful(g, env, seeds, timed, from, r.s, t);
    NoStart(g, r.s, t);
    FollowsTwice(s, r.s, t);
  }

  // ---------------------------------------------------------------- the theorems

  /** Every instance, the root's and every composite activation's, for any executors, clock and
      cancellation: its part of the stream is lawful at every depth; as long as it runs its stores hold
      what the stream says, and when it ends its results still do. */
  lemma EveryInstanceKeepsItsRecord(g: Layer, env: Env, fuel: nat, n: nat, s: State)
    requires ValidLayer(g) && s == Fresh(g, s.scope, s.parentDeadline, s.seeds, s.nextSeq, s.trace, s.tick)
    ensures var r, from := Run(g, env, fuel, n, Prepare(g, s, 0)), |s.trace|;
      && s.trace <= r.s.trace && r.s.scope == s.scope
      && Lawful(g, env, r.s.trace, from, s.scope, s.seeds, s.parentDeadline.Some?)
      && (!r.flow.Break? ==> Records(g, s.seeds, r.s, Told(r.s, from)))
      && (r.flow.Break? ==> Ended(g, env, s.parentDeadline.Some?, from, r.s))
  {
    hide Run, Prepare, Lawful, Ruled, Results, Stores, Ended;
    FreshRuled(g, env, s, s.seeds);
    RunAfter(g, env, fuel, n, s.seeds, s.parentDeadline.Some?, |s.trace|, Prepare(g, s, 0));
    FollowsTwice(s, Prepare(g, s, 0), Run(g, env, fuel, n, Prepare(g, s, 0)).s);
  }

  /** The whole stream of a run, composites included, is lawful. */
  lemma EveryStreamIsLawful(g: Layer, env: Env, fuel: nat)
    requires ValidLayer(g)
    ensures Lawful(g, env, Execute(g, env, fuel).s.trace, 0, [], map[], false)
  {
    hide Run, Prepare, Lawful;
    EveryInstanceKeepsItsRecord(g, env, fuel, fuel, Fresh(g, [], None, map[], 0, [], 0));
  }
}
