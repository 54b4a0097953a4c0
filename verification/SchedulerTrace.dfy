/** The event stream of any run is well nested.  A monitor reads the stream with a stack of
    frames, one per scheduler instance: starting an activation opens it and pushes a frame for
    whatever runs inside, closing it pops that frame.  The monitor demands that activations of
    a node are numbered 1, 2, 3, ... within an instance, that each is closed before the next
    one starts, that every event carries the path of open activations as its scope, and that a
    skipped node never runs and is skipped once. */
module SchedulerTrace {
  import opened Wrappers
  import opened Json
  import opened Workflow
  import opened SchedulerSpec
  import opened SchedulerExit

  /** `hosts` says whether an instance runs here: the root's, or a composite activation's.  `log`
      keeps how the instance's activations closed, in order. */
  datatype Frame = Frame(hosts: bool, counts: map<nat, nat>, skipped: set<nat>, open: Option<(nat, nat)>,
      log: seq<Body>)

  function NewFrame(hosts: bool): Frame {
    Frame(hosts, map[], {}, None, [])
  }

  function CountOf(f: Frame, node: nat): nat {
    if node in f.counts then f.counts[node] else 0
  }

  /** The path of open activations, outermost first. */
  function Opens(stack: seq<Frame>): seq<nat> {
    if stack == [] then []
    else
      var f := stack[|stack| - 1];
      Opens(stack[..|stack| - 1]) + if f.open.Some? then [f.open.value.0] else []
  }

  function Close(stack: seq<Frame>, scope: seq<nat>, node: nat, activation: nat, body: Body): Option<seq<Frame>> {
    var n := |stack|;
    if n >= 2 && stack[n - 1].open.None? && stack[n - 2].open == Some((node, activation)) &&
      scope + [node] == Opens(stack)
    then Some(stack[..n - 2] + [stack[n - 2].(open := None, log := stack[n - 2].log + [body])])
    else None
  }

  function Accept(stack: seq<Frame>, e: Event): Option<seq<Frame>>
    requires stack != []
  {
    var top, below := stack[|stack| - 1], stack[..|stack| - 1];
    var level := top.hosts && top.open.None? && e.scope == Opens(stack);
    match e.body
    case Started(i, k, _, composite) =>
      if level && k == CountOf(top, i) + 1 && i !in top.skipped
      then Some(below + [top.(counts := top.counts[i := k], open := Some((i, k)))] + [NewFrame(composite)]) else None
    case Skipped(i, _, k, _) =>
      if level && k == 0 && CountOf(top, i) == 0 && i !in top.skipped
      then Some(below + [top.(skipped := top.skipped + {i})]) else None
    case Log(_) => if level then Some(stack) else None
    case Finished(i, _, k, _) => Close(stack, e.scope, i, k, e.body)
    case Failed(i, _, k, _) => Close(stack, e.scope, i, k, e.body)
    case Cancelled(i, k, _) => Close(stack, e.scope, i, k, e.body)
  }

  /** The monitor's stack after the whole stream, or None once it has rejected an event. */
  function Watch(trace: seq<Event>): (m: Option<seq<Frame>>)
    ensures m.Some? ==> m.value != []
  {
    if trace == [] then Some([NewFrame(true)])
    else
      var m := Watch(trace[..|trace| - 1]);
      if m.None? then None else Accept(m.value, trace[|trace| - 1])
  }

  /** How the activations of the instance on top have closed so far. */
  ghost function LevelLog(s: State): seq<Body> {
    var m := Watch(s.trace);
    if m.Some? then m.value[|m.value| - 1].log else []
  }

  /** The same for the instance one below the top, while it has an activation open. */
  ghost function OuterLog(s: State): seq<Body> {
    var m := Watch(s.trace);
    if m.Some? && |m.value| > 1 then m.value[|m.value| - 2].log else []
  }

  /** How the activations of the instance `depth` frames up have closed so far, whatever is open. */
  ghost function LogAt(s: State, depth: nat): seq<Body> {
    var m := Watch(s.trace);
    if m.Some? && depth < |m.value| then m.value[depth].log else []
  }

  /** Events are numbered in the order they are emitted, and the counter stands at the next. */
  ghost predicate Numbered(s: State) {
    s.nextSeq == |s.trace| && forall k :: 0 <= k < |s.trace| ==> s.trace[k].seqNo == k
  }

  /** Frame `f` says what the instance's own counters say. */
  ghost predicate Matches(f: Frame, s: State) {
    && (forall i :: 0 <= i < |s.activations| ==> CountOf(f, i) == s.activations[i])
    && (forall i :: i in f.skipped <==> i in s.skipped)
    && (forall i :: i in s.skipped ==> i in s.settled)
  }

  /** Between activations: the instance's frame is on top of `base` and nothing in it is open. */
  ghost predicate Quiet(s: State, base: seq<Frame>) {
    var m := Watch(s.trace);
    && Numbered(s)
    && m.Some? && |m.value| == |base| + 1 && m.value[..|base|] == base
    && m.value[|base|].hosts && m.value[|base|].open.None? && Matches(m.value[|base|], s)
    && s.scope == Opens(base)
  }

  /** Inside an activation of `i`: it is open, and whatever ran inside it has closed. */
  ghost predicate Open(s: State, base: seq<Frame>, i: nat) {
    var m := Watch(s.trace);
    && Numbered(s) && i < |s.activations|
    && m.Some? && |m.value| == |base| + 2 && m.value[..|base|] == base
    && m.value[|base|].hosts && m.value[|base|].open == Some((i, s.activations[i])) && Matches(m.value[|base|], s)
    && m.value[|base| + 1].open.None?
    && s.scope == Opens(base)
  }

  // ---------------------------------------------------------------- single events

  lemma EmitWatch(s: State, body: Body)
    ensures Emit(s, body).trace[..|s.trace|] == s.trace
    ensures var m := Watch(s.trace);
      Watch(Emit(s, body).trace) == if m.None? then None else Accept(m.value, Event(s.nextSeq, s.scope, body))
  {
  }

  lemma OpensTop(base: seq<Frame>, f: Frame)
    ensures Opens(base + [f]) == Opens(base) + if f.open.Some? then [f.open.value.0] else []
  {
    assert (base + [f])[..|base|] == base;
  }

  lemma Split(stack: seq<Frame>)
    requires stack != []
    ensures stack == stack[..|stack| - 1] + [stack[|stack| - 1]]
  {
  }

  /** `t` is `s` with activation `t.activations[i]` counted but not announced. */
  lemma StartOpens(s: State, t: State, base: seq<Frame>, i: nat, iteration: Option<nat>, composite: bool)
    requires Quiet(s, base) && i < |s.activations| && i !in s.skipped
    requires t.trace == s.trace && t.nextSeq == s.nextSeq && t.scope == s.scope && t.skipped == s.skipped &&
      t.settled == s.settled
    requires t.activations == s.activations[i := s.activations[i] + 1]
    ensures Open(Emit(t, Started(i, t.activations[i], iteration, composite)), base, i)
    ensures OuterLog(Emit(t, Started(i, t.activations[i], iteration, composite))) == LevelLog(s)
  {
    var u := Emit(t, Started(i, t.activations[i], iteration, composite));
    EmitWatch(t, Started(i, t.activations[i], iteration, composite));
    var m := Watch(s.trace).value;
    Split(m);
    OpensTop(base, m[|base|]);
    var v := Watch(u.trace).value;
    assert v == base + [v[|base|]] + [NewFrame(composite)];
  }

  ghost predicate Closes(body: Body, i: nat, k: nat) {
    match body
    case Finished(j, _, l, _) => i == j && k == l
    case Failed(j, _, l, _) => i == j && k == l
    case Cancelled(j, l, _) => i == j && k == l
    case _ => false
  }

  lemma CloseQuiet(s: State, base: seq<Frame>, i: nat, body: Body)
    requires Open(s, base, i) && Closes(body, i, s.activations[i])
    ensures Quiet(Emit(s, body), base)
    ensures LevelLog(Emit(s, body)) == OuterLog(s) + [body]
  {
    EmitWatch(s, body);
    var m := Watch(s.trace).value;
    Split(m);
    Split(m[..|base| + 1]);
    OpensTop(base, m[|base|]);
    OpensTop(m[..|base| + 1], m[|base| + 1]);
    assert m[..|base| + 1] == base + [m[|base|]];
    assert Opens(m) == s.scope + [i];
    assert m[..|m| - 2] == base;
    var v := Watch(Emit(s, body).trace).value;
    assert v == base + [m[|base|].(open := None, log := m[|base|].log + [body])];
  }

  lemma LogQuiet(s: State, base: seq<Frame>, i: nat)
    requires Quiet(s, base)
    ensures Quiet(Emit(s, Log(i)), base)
    ensures LevelLog(Emit(s, Log(i))) == LevelLog(s)
  {
  }

  lemma SkipQuiet(s: State, base: seq<Frame>, i: nat, reason: Reason)
    requires Quiet(s, base) && i < |s.activations| && s.activations[i] == 0 && i !in s.settled
    ensures Quiet(MarkSkipped(s, i, reason), base)
    ensures LevelLog(MarkSkipped(s, i, reason)) == LevelLog(s)
  {
    var s1 := s.(settled := s.settled + {i});
    var body := Skipped(i, reason, s.activations[i], s.iteration);
    EmitWatch(s1, body);
    var m := Watch(s.trace).value;
    Split(m);
    OpensTop(base, m[|base|]);
    var v := Watch(Emit(s1, body).trace).value;
    assert v == base + [m[|base|].(skipped := m[|base|].skipped + {i})];
  }

  /** Nothing the monitor or the counters see has changed, except that nodes may have settled. */
  ghost predicate Unseen(s: State, t: State) {
    && t.trace == s.trace && t.nextSeq == s.nextSeq && t.scope == s.scope
    && t.activations == s.activations && t.skipped == s.skipped && s.settled <= t.settled
  }

  lemma StaysQuiet(s: State, t: State, base: seq<Frame>)
    requires Quiet(s, base) && Unseen(s, t)
    ensures Quiet(t, base)
    ensures LevelLog(t) == LevelLog(s)
  {
  }

  lemma StaysOpen(s: State, t: State, base: seq<Frame>, i: nat)
    requires Open(s, base, i) && Unseen(s, t)
    ensures Open(t, base, i)
    ensures OuterLog(t) == OuterLog(s)
  {
  }

  // ---------------------------------------------------------------- cascades

  lemma {:induction false} AllQuiet(g: Layer, s: State, base: seq<Frame>, es: seq<nat>)
    requires Flat(g) && Sized(g, s) && Quiet(s, base) && EdgesOf(g, es)
    ensures Quiet(DeactivateAll(g, s, es), base)
    ensures LevelLog(DeactivateAll(g, s, es)) == LevelLog(s)
    decreases |Unsettled(g, s)|, 2, |es|
  {
    hide Quiet;
    if es != [] {
      var s1 := DeactivateEdge(g, s, es[0]);
      EdgeQuiet(g, s, base, es[0]);
      SubsetCardinality(Unsettled(g, s1), Unsettled(g, s));
      AllQuiet(g, s1, base, es[1..]);
    }
  }

  lemma {:induction false} EdgeQuiet(g: Layer, s: State, base: seq<Frame>, e: nat)
    requires Flat(g) && Sized(g, s) && Quiet(s, base) && e < |g.edges|
    ensures Quiet(DeactivateEdge(g, s, e), base)
    ensures LevelLog(DeactivateEdge(g, s, e)) == LevelLog(s)
    decreases |Unsettled(g, s)|, 1, 0
  {
    hide Quiet;
    if e !in s.inactive {
      var s1 := s.(inactive := s.inactive + {e});
      StaysQuiet(s, s1, base);
      var target := g.edges[e].target;
      if target !in s.settled && s.activations[target] == 0 && Evaluate(g, s1, target) == Blocked {
        SkipNodeQuiet(g, s1, base, target, NoActiveInput);
      }
    }
  }

  lemma {:induction false} SkipNodeQuiet(g: Layer, s: State, base: seq<Frame>, i: nat, reason: Reason)
    requires Flat(g) && Sized(g, s) && Quiet(s, base) && i < |g.nodes| && s.activations[i] == 0
    ensures Quiet(SkipNode(g, s, i, reason), base)
    ensures LevelLog(SkipNode(g, s, i, reason)) == LevelLog(s)
    decreases |Unsettled(g, s)|, 0, 0
  {
    hide Quiet;
    if i !in s.settled {
      var s1 := MarkSkipped(s, i, reason);
      assert i in Unsettled(g, s) && i !in Unsettled(g, s1);
      SubsetCardinality(Unsettled(g, s1), Unsettled(g, s));
      SkipQuiet(s, base, i, reason);
      AllQuiet(g, s1, base, Out(g, i));
    }
  }

  lemma {:induction false} EnqueueQuiet(g: Layer, s: State, base: seq<Frame>, from: nat)
    requires Flat(g) && Sized(g, s) && Quiet(s, base) && from <= |g.nodes|
    ensures Quiet(EnqueueReady(g, s, from), base)
    ensures LevelLog(EnqueueReady(g, s, from)) == LevelLog(s)
    decreases |g.nodes| - from
  {
    hide Quiet, LevelLog, Evaluate, SkipNode;
    if from < |g.nodes| {
      if from in s.settled || from in s.queued {
        EnqueueQuiet(g, s, base, from + 1);
      } else {
        match Evaluate(g, s, from)
        case Go =>
          var s1 := s.(queued := s.queued + {from}, queue := s.queue + [from]);
          StaysQuiet(s, s1, base);
          EnqueueQuiet(g, s1, base, from + 1);
        case Blocked =>
          if s.activations[from] == 0 { SkipNodeQuiet(g, s, base, from, NoActiveInput); }
          EnqueueQuiet(g, if s.activations[from] == 0 then SkipNode(g, s, from, NoActiveInput) else s, base, from + 1);
        case Wait => EnqueueQuiet(g, s, base, from + 1);
      }
    }
  }

  lemma {:induction false} PropagateQuiet(g: Layer, s: State, base: seq<Frame>, i: nat, outputs: Inputs, es: seq<nat>)
    requires Flat(g) && Sized(g, s) && Quiet(s, base) && i < |g.nodes| && EdgesOf(g, es)
    ensures Quiet(Propagate(g, s, i, outputs, es), base)
    ensures LevelLog(Propagate(g, s, i, outputs, es)) == LevelLog(s)
    decreases |es|
  {
    hide Quiet;
    if es != [] {
      var e, port := es[0], g.edges[es[0]].sourcePort;
      if port in outputs {
        StaysQuiet(s, Deliver(g, s, e, outputs[port]), base);
        PropagateQuiet(g, Deliver(g, s, e, outputs[port]), base, i, outputs, es[1..]);
      } else if g.nodes[i].IsGate() {
        PropagateQuiet(g, s, base, i, outputs, es[1..]);
      } else if !IsControl(g, e) {
        StaysQuiet(s, Withdraw(s, e), base);
        PropagateQuiet(g, Withdraw(s, e), base, i, outputs, es[1..]);
      } else {
        EdgeQuiet(g, s, base, e);
        PropagateQuiet(g, DeactivateEdge(g, s, e), base, i, outputs, es[1..]);
      }
    }
  }

  // ---------------------------------------------------------------- activations

  lemma FailQuiet(g: Layer, s: State, base: seq<Frame>, i: nat, iteration: Option<nat>, code: Code)
    requires Flat(g) && Sized(g, s) && Open(s, base, i)
    ensures Quiet(FailStarted(g, s, i, s.activations[i], iteration, code), base)
    ensures LevelLog(FailStarted(g, s, i, s.activations[i], iteration, code)) ==
      OuterLog(s) + [Failed(i, code, s.activations[i], iteration)]
  {
    hide Quiet, Open;
    var s0 := s.(firstFailure := if s.firstFailure.None? then Some(code) else s.firstFailure);
    StaysOpen(s, s0, base, i);
    var s1 := Emit(s0, Failed(i, code, s.activations[i], iteration));
    CloseQuiet(s0, base, i, Failed(i, code, s.activations[i], iteration));
    var s2 := s1.(settled := s1.settled + {i}, failed := if i in s1.failed then s1.failed else s1.failed + [i]);
    StaysQuiet(s1, s2, base);
    AllQuiet(g, s2, base, Out(g, i));
  }

  lemma FinishQuiet(g: Layer, s: State, base: seq<Frame>, i: nat, outputs: Inputs, iteration: Option<nat>)
    requires Flat(g) && Sized(g, s) && i < |g.nodes| && Open(s, base, i)
    ensures Quiet(Finish(g, s, i, outputs, iteration), base)
    ensures LevelLog(Finish(g, s, i, outputs, iteration)) ==
      OuterLog(s) + [Finished(i, outputs, s.activations[i], iteration)]
  {
    hide Quiet, Open;
    var s1 := Emit(s, Finished(i, outputs, s.activations[i], iteration));
    CloseQuiet(s, base, i, Finished(i, outputs, s.activations[i], iteration));
    StaysQuiet(s1, s1.(latest := s1.latest[i := outputs]), base);
    PropagateQuiet(g, s1.(latest := s1.latest[i := outputs]), base, i, outputs, Out(g, i));
  }

  lemma BeginOpens(g: Layer, s: State, base: seq<Frame>, i: nat)
    requires Flat(g) && Sized(g, s) && Quiet(s, base) && i < |g.nodes| && i !in s.skipped
    ensures Open(Begin(g, s, i), base, i)
    ensures OuterLog(Begin(g, s, i)) == LevelLog(s)
  {
    StartOpens(s, Fire(g, Count(s, i), i), base, i, s.iteration, g.nodes[i].Composite?);
  }

  lemma CancelQuiet(s: State, base: seq<Frame>, i: nat, iteration: Option<nat>)
    requires i < |s.activations| && Open(s, base, i)
    ensures Quiet(Emit(s, Cancelled(i, s.activations[i], iteration)).(cancelled := true), base)
    ensures LevelLog(Emit(s, Cancelled(i, s.activations[i], iteration)).(cancelled := true)) ==
      OuterLog(s) + [Cancelled(i, s.activations[i], iteration)]
  {
    hide Quiet, Open;
    var s1 := Emit(s, Cancelled(i, s.activations[i], iteration));
    CloseQuiet(s, base, i, Cancelled(i, s.activations[i], iteration));
    StaysQuiet(s1, s1.(cancelled := true), base);
  }

  /** The step closed exactly one activation of `i`. */
  ghost predicate ClosedOne(log: seq<Body>, after: seq<Body>, i: nat, k: nat) {
    |after| == |log| + 1 && after[..|log|] == log && Closes(after[|log|], i, k)
  }

  lemma NodeQuiet(g: Layer, env: Env, s: State, base: seq<Frame>, i: nat, inputs: Inputs)
    requires Flat(g) && Sized(g, s) && Quiet(s, base) && i < |g.nodes| && i !in s.skipped
    ensures Quiet(RunNode(g, env, s, i, inputs).s, base)
    ensures ClosedOne(LevelLog(s), LevelLog(RunNode(g, env, s, i, inputs).s), i, s.activations[i] + 1)
  {
    hide Quiet, Open, LevelLog, OuterLog, FailStarted, Answered, Begin;
    var s1 := Begin(g, s, i);
    BeginOpens(g, s, base, i);
    if LacksInput(g, i, inputs) {
      FailQuiet(g, s1, base, i, s.iteration, MissingInput);
    } else {
      var reply, s2 := env.execute(s.scope, i, s1.activations[i], inputs, s.tick), Tick(s1);
      StaysOpen(s1, s2, base, i);
      if reply.denied.Some? {
        FailQuiet(g, s2, base, i, s.iteration, reply.denied.value);
      } else {
        AnsweredQuiet(g, s2, base, i, reply);
      }
    }
  }

  lemma AnsweredQuiet(g: Layer, s: State, base: seq<Frame>, i: nat, reply: Reply)
    requires Flat(g) && Sized(g, s) && i < |g.nodes| && Open(s, base, i)
    ensures Quiet(Answered(g, s, i, reply).s, base)
    ensures ClosedOne(OuterLog(s), LevelLog(Answered(g, s, i, reply).s), i, s.activations[i])
  {
    hide Quiet, Open;
    if reply.cancelled {
      CancelQuiet(s, base, i, s.iteration);
    } else if Deadline(s).Some? && reply.expired {
      FailQuiet(g, s, base, i, s.iteration, LoopTimeout);
      var t := FailStarted(g, s, i, s.activations[i], s.iteration, LoopTimeout);
      StaysQuiet(t, t.(loopState := None), base);
    } else {
      match reply.answer
      case Ok(outputs) => FinishQuiet(g, s, base, i, outputs, s.iteration);
      case Err(code) => FailQuiet(g, s, base, i, s.iteration, code);
    }
  }

  /** The gate's branches start from a counted but unannounced activation: `s` is the state
      before it was counted. */
  ghost predicate Counted(s: State, t: State, base: seq<Frame>, i: nat) {
    && Quiet(s, base) && i < |s.activations| && i !in s.skipped
    && t.trace == s.trace && t.nextSeq == s.nextSeq && t.scope == s.scope && t.skipped == s.skipped &&
      t.settled == s.settled
    && t.activations == s.activations[i := s.activations[i] + 1]
  }

  lemma FailGateQuiet(g: Layer, s: State, t: State, base: seq<Frame>, i: nat, iteration: Option<nat>, code: Code)
    requires Flat(g) && Sized(g, t) && i < |g.nodes| && Counted(s, t, base, i)
    ensures Quiet(FailGate(g, t, i, iteration, code), base)
    ensures LevelLog(FailGate(g, t, i, iteration, code)) == LevelLog(s) + [Failed(i, code, t.activations[i], iteration)]
  {
    StartOpens(s, t, base, i, iteration, g.nodes[i].Composite?);
    FailQuiet(g, Emit(t, Started(i, t.activations[i], iteration, g.nodes[i].Composite?)), base, i, iteration, code);
  }

  /** A gate activation that starts and finishes at once. */
  lemma BlinkQuiet(g: Layer, s: State, t: State, base: seq<Frame>, i: nat, k: nat, outputs: Inputs)
    requires Flat(g) && Sized(g, t) && i < |g.nodes| && Counted(s, t, base, i)
    ensures var u := Emit(Emit(t, Started(i, t.activations[i], Some(k), g.nodes[i].Composite?)),
                          Finished(i, outputs, t.activations[i], Some(k)));
      Quiet(u, base) && LevelLog(u) == LevelLog(s) + [Finished(i, outputs, t.activations[i], Some(k))]
  {
    hide Quiet, Open;
    StartOpens(s, t, base, i, Some(k), g.nodes[i].Composite?);
    var t1 := Emit(t, Started(i, t.activations[i], Some(k), g.nodes[i].Composite?));
    CloseQuiet(t1, base, i, Finished(i, outputs, t.activations[i], Some(k)));
  }

  lemma ContinueQuiet(g: Layer, s: State, t: State, base: seq<Frame>, i: nat, k: nat, payload: Json, inputs: Inputs)
    requires Flat(g) && Sized(g, t) && i < |g.nodes| && Counted(s, t, base, i)
    ensures Quiet(EmitContinue(g, t, i, k, payload, inputs), base)
    ensures LevelLog(EmitContinue(g, t, i, k, payload, inputs)) ==
      LevelLog(s) + [Finished(i, GateOutputs("continue", payload, inputs), t.activations[i], Some(k))]
  {
    hide Quiet, Open, Propagate, Flat, GateOutputs, LevelLog;
    var outputs := GateOutputs("continue", payload, inputs);
    var c := t.(iteration := Some(k));
    BlinkQuiet(g, s, c, base, i, k, outputs);
    var t2 := Emit(Emit(c, Started(i, t.activations[i], Some(k), g.nodes[i].Composite?)),
      Finished(i, outputs, t.activations[i], Some(k)));
    PropagateQuiet(g, t2, base, i, outputs, Out(g, i));
    LogQuiet(Propagate(g, t2, i, outputs, Out(g, i)), base, i);
  }

  lemma StopQuiet(g: Layer, s: State, t: State, base: seq<Frame>, i: nat, inputs: Inputs)
    requires Flat(g) && Sized(g, t) && i < |g.nodes| && Counted(s, t, base, i) && "stop" in inputs
    ensures Quiet(GateStop(g, t, i, inputs).s, base)
    ensures LevelLog(GateStop(g, t, i, inputs).s) ==
      LevelLog(s) + [Finished(i, GateOutputs("exit", inputs["stop"], inputs), t.activations[i],
                              Some(if t.loopState.Some? then t.loopState.value.iteration else 0))]
  {
    hide Quiet, Open, Propagate, Flat, GateOutputs, LevelLog;
    var k := if t.loopState.Some? then t.loopState.value.iteration else 0;
    var outputs := GateOutputs("exit", inputs["stop"], inputs);
    BlinkQuiet(g, s, t, base, i, k, outputs);
    var t2 := Emit(Emit(t, Started(i, t.activations[i], Some(k), g.nodes[i].Composite?)),
      Finished(i, outputs, t.activations[i], Some(k)));
    var t3 := Emit(t2, Log(i));
    LogQuiet(t2, base, i);
    StaysQuiet(t3, t3.(loopState := None, iteration := Some(k)), base);
    PropagateQuiet(g, t3.(loopState := None, iteration := Some(k)), base, i, outputs, Out(g, i));
  }

  lemma StartQuiet(g: Layer, env: Env, s: State, t: State, base: seq<Frame>, i: nat, timeout: nat, inputs: Inputs)
    requires Flat(g) && Sized(g, t) && i < |g.nodes| && Counted(s, t, base, i) && "start" in inputs
    ensures Quiet(GateStart(g, env, t, i, timeout, inputs).s, base)
  {
    hide Quiet, FailGate, EmitContinue;
    if t.loopState.Some? {
      FailGateQuiet(g, s, t, base, i, t.iteration, LoopInvalidState);
    } else {
      var t1 := Tick(t).(loopState := Some(LoopState(i, 1, env.now(t.tick) + timeout)));
      ContinueQuiet(g, s, t1, base, i, 1, inputs["start"], inputs);
    }
  }

  lemma NextQuiet(g: Layer, env: Env, s: State, t: State, base: seq<Frame>, i: nat, limit: nat, inputs: Inputs)
    requires Flat(g) && Sized(g, t) && i < |g.nodes| && Counted(s, t, base, i) && "next" in inputs
    ensures Quiet(GateNext(g, env, t, i, limit, inputs).s, base)
  {
    hide Quiet, FailGate, FailGateTimeout, Exhaust, Reenter;
    if t.loopState.None? {
      FailGateQuiet(g, s, t, base, i, t.iteration, LoopInvalidState);
    } else {
      var state := t.loopState.value;
      GateTimeoutQuiet(g, s, Tick(t), base, i, state.iteration);
      ExhaustQuiet(g, s, Tick(t), base, i, state.iteration);
      ReenterQuiet(g, s, Tick(t), base, i, state, inputs);
    }
  }

  lemma ReenterQuiet(g: Layer, s: State, t: State, base: seq<Frame>, i: nat, state: LoopState, inputs: Inputs)
    requires Flat(g) && Sized(g, t) && i < |g.nodes| && Counted(s, t, base, i) && "next" in inputs &&
      state.gate < |g.nodes|
    ensures Quiet(Reenter(g, t, i, state, inputs), base)
  {
    hide EmitContinue, Flat;
    var t1 := t.(loopState := Some(state.(iteration := state.iteration + 1)));
    ContinueQuiet(g, s, t1, base, i, state.iteration + 1, inputs["next"], inputs);
  }

  lemma GateTimeoutQuiet(g: Layer, s: State, t: State, base: seq<Frame>, i: nat, iteration: nat)
    requires Flat(g) && Sized(g, t) && i < |g.nodes| && Counted(s, t, base, i)
    ensures Quiet(FailGateTimeout(g, t, i, iteration), base)
    ensures LevelLog(FailGateTimeout(g, t, i, iteration)) ==
      LevelLog(s) + [Failed(i, LoopTimeout, t.activations[i], Some(iteration))]
  {
    hide Quiet;
    FailGateQuiet(g, s, t, base, i, Some(iteration), LoopTimeout);
    var u := FailGate(g, t, i, Some(iteration), LoopTimeout);
    StaysQuiet(u, u.(loopState := None, iteration := Some(iteration)), base);
  }

  lemma ExhaustQuiet(g: Layer, s: State, t: State, base: seq<Frame>, i: nat, iteration: nat)
    requires Flat(g) && Sized(g, t) && i < |g.nodes| && Counted(s, t, base, i)
    ensures Quiet(Exhaust(g, t, i, iteration), base)
    ensures LevelLog(Exhaust(g, t, i, iteration)) ==
      LevelLog(s) + [Failed(i, LoopBudgetExhausted, t.activations[i], Some(iteration))]
  {
    hide Quiet;
    FailGateQuiet(g, s, t, base, i, Some(iteration), LoopBudgetExhausted);
    var u := FailGate(g, t, i, Some(iteration), LoopBudgetExhausted);
    StaysQuiet(u, u.(loopState := None), base);
  }

  lemma GateQuiet(g: Layer, env: Env, s: State, base: seq<Frame>, i: nat, inputs: Inputs)
    requires Flat(g) && Sized(g, s) && Quiet(s, base) && i < |g.nodes| && i !in s.skipped
    ensures Quiet(HandleGate(g, env, s, i, inputs).s, base)
  {
    hide Quiet, FailGate, GateStop, GateStart, GateNext, GateBudget;
    var t, budget := Count(s, i), GateBudget(g.nodes[i]);
    if budget.None? {
      FailGateQuiet(g, s, t, base, i, s.iteration, LoopInvalidBudget);
    } else if "stop" in inputs {
      StopQuiet(g, s, t, base, i, inputs);
    } else if "start" in inputs {
      StartQuiet(g, env, s, t, base, i, budget.value.1, inputs);
    } else if "next" in inputs {
      NextQuiet(g, env, s, t, base, i, budget.value.0, inputs);
    } else {
      FailGateQuiet(g, s, t, base, i, s.iteration, LoopMissingTrigger);
    }
  }

  // ---------------------------------------------------------------- nested runs and the loop

  /** After a step the frames of `base` are as they were, and the instance is quiet, unless a
      nested run was cut off while open. */
  ghost predicate Traced(r: Step, base: seq<Frame>) {
    var m := Watch(r.s.trace);
    && Numbered(r.s) && m.Some? && |m.value| > |base| && m.value[..|base|] == base
    && (!r.flow.Cut? ==> Quiet(r.s, base))
  }

  lemma QuietLog(s: State, base: seq<Frame>)
    requires Quiet(s, base)
    ensures LogAt(s, |base|) == LevelLog(s)
  {
  }

  /** The frame pushed by the composite's start is the nested instance's own. */
  lemma NestedQuiet(g: Layer, s: State, base: seq<Frame>, i: nat, inputs: Inputs)
    requires i < |g.nodes| && g.nodes[i].Composite? && Open(s, base, i)
    requires Watch(s.trace).value[|base| + 1] == NewFrame(true)
    ensures Quiet(Nested(g, s, i, inputs), Watch(s.trace).value[..|base| + 1])
  {
    var m := Watch(s.trace).value;
    assert m[..|base| + 1] == base + [m[|base|]];
    OpensTop(base, m[|base|]);
  }

  lemma StartPushes(s: State, t: State, base: seq<Frame>, i: nat, iteration: Option<nat>, composite: bool)
    requires Counted(s, t, base, i)
    ensures var u := Emit(t, Started(i, t.activations[i], iteration, composite));
      Open(u, base, i) && Watch(u.trace).value[|base| + 1] == NewFrame(composite)
    ensures OuterLog(Emit(t, Started(i, t.activations[i], iteration, composite))) == LevelLog(s)
  {
    StartOpens(s, t, base, i, iteration, composite);
    EmitWatch(t, Started(i, t.activations[i], iteration, composite));
  }

  lemma BeginPushes(g: Layer, s: State, base: seq<Frame>, i: nat)
    requires Flat(g) && Sized(g, s) && Quiet(s, base) && i < |g.nodes| && i !in s.skipped
    ensures var t := Begin(g, s, i);
      && Open(t, base, i)
      && Watch(t.trace).Some? && |Watch(t.trace).value| == |base| + 2 &&
        Watch(t.trace).value[|base| + 1] == NewFrame(g.nodes[i].Composite?)
    ensures OuterLog(Begin(g, s, i)) == LevelLog(s)
  {
    StartPushes(s, Fire(g, Count(s, i), i), base, i, s.iteration, g.nodes[i].Composite?);
  }

  lemma QuietTraced(s: State, flow: Flow, base: seq<Frame>)
    requires Quiet(s, base)
    ensures Traced(Step(s, flow), base)
  {
  }

  lemma ResumeOpen(s: State, inner: State, base: seq<Frame>, i: nat)
    requires Open(s, base, i) && Quiet(inner, Watch(s.trace).value[..|base| + 1])
    ensures Open(Resume(s, inner), base, i)
    ensures OuterLog(Resume(s, inner)) == OuterLog(s)
  {
    var m, v := Watch(s.trace).value, Watch(inner.trace).value;
    assert v[..|base|] == v[..|base| + 1][..|base|] == m[..|base| + 1][..|base|];
    assert v[|base|] == v[..|base| + 1][|base|];
  }

  lemma ClosedQuiet(g: Layer, s: State, base: seq<Frame>, i: nat, inner: State, cancelled: bool)
    requires Flat(g) && Sized(g, s) && i < |g.nodes| && g.nodes[i].Composite? && Open(s, base, i)
    ensures Quiet(Closed(g, s, i, inner, cancelled).s, base)
    ensures ClosedOne(OuterLog(s), LevelLog(Closed(g, s, i, inner, cancelled).s), i, s.activations[i])
  {
    hide Quiet, Open;
    if inner.cancelled || cancelled {
      CancelQuiet(s, base, i, s.iteration);
    } else if inner.timedOut || inner.failed != [] {
      FailQuiet(g, s, base, i, s.iteration, if inner.firstFailure.Some? then inner.firstFailure.value else LoopTimeout);
    } else {
      FinishQuiet(g, s, base, i, CompositeOutputs(g.nodes[i].outputs, inner.latest, map[]), s.iteration);
    }
  }

  /** A step that left the stream well nested and, unless cut, closed the `k`th activation of `i`. */
  ghost predicate TracedOne(log: seq<Body>, r: Step, base: seq<Frame>, i: nat, k: nat) {
    Traced(r, base) && if r.flow.Cut? then LogAt(r.s, |base|) == log else ClosedOne(log, LevelLog(r.s), i, k)
  }

  lemma RunCompositeIs(g: Layer, env: Env, fuel: nat, s: State, i: nat, inputs: Inputs)
    requires ValidLayer(g) && Sized(g, s) && i < |g.nodes| && g.nodes[i].Composite?
    ensures ValidLayer(g.nodes[i].layer)
    ensures var s1, layer := Begin(g, s, i), g.nodes[i].layer;
      RunComposite(g, env, fuel, s, i, inputs) ==
        if LacksPort(g, i, inputs)
          then Step(FailStarted(g, s1, i, s1.activations[i], s.iteration, MissingInput), Continue)
        else Return(g, env, s1, i, Run(layer, env, fuel, fuel, Prepare(layer, Nested(g, s1, i, inputs), 0)))
  {
    hide Begin, FailStarted, Return, Run, Prepare, Nested, LacksPort;
  }

  lemma {:induction false} CompositeTraced(g: Layer, env: Env, fuel: nat, s: State, base: seq<Frame>, i: nat,
      inputs: Inputs)
    requires ValidLayer(g) && Sized(g, s) && Quiet(s, base) && i < |g.nodes| && g.nodes[i].Composite? && i !in s.skipped
    ensures TracedOne(LevelLog(s), RunComposite(g, env, fuel, s, i, inputs), base, i, s.activations[i] + 1)
    decreases g, 0, 1
  {
    hide Quiet, Open, FailStarted, Return, Prepare, Run, Flat, Nested, RunComposite, ValidLayer, Begin, LacksPort,
      TracedOne;
    var s1 := Begin(g, s, i);
    BeginPushes(g, s, base, i);
    RunCompositeIs(g, env, fuel, s, i, inputs);
    if LacksPort(g, i, inputs) {
      LacksTraced(g, s, s1, base, i);
    } else {
      InsideTraced(g, env, fuel, s1, base, i, inputs);
      ReturnTraced(g, env, s1, base, i,
        Run(g.nodes[i].layer, env, fuel, fuel, Prepare(g.nodes[i].layer, Nested(g, s1, i, inputs), 0)));
    }
  }

  lemma LacksTraced(g: Layer, s: State, s1: State, base: seq<Frame>, i: nat)
    requires Flat(g) && Sized(g, s1) && i < |g.nodes| && Open(s1, base, i) && OuterLog(s1) == LevelLog(s)
    ensures TracedOne(LevelLog(s), Step(FailStarted(g, s1, i, s1.activations[i], s.iteration, MissingInput), Continue),
      base, i, s1.activations[i])
  {
    hide Open, Quiet, FailStarted;
    FailQuiet(g, s1, base, i, s.iteration, MissingInput);
    QuietTraced(FailStarted(g, s1, i, s1.activations[i], s.iteration, MissingInput), Continue, base);
  }

  /** The nested run keeps to its own frame. */
  lemma {:induction false} InsideTraced(g: Layer, env: Env, fuel: nat, s: State, base: seq<Frame>, i: nat,
      inputs: Inputs)
    requires ValidLayer(g) && Sized(g, s) && i < |g.nodes| && g.nodes[i].Composite? && Open(s, base, i)
    requires Watch(s.trace).Some? && |Watch(s.trace).value| == |base| + 2 &&
      Watch(s.trace).value[|base| + 1] == NewFrame(true)
    ensures ValidLayer(g.nodes[i].layer)
    ensures Traced(Run(g.nodes[i].layer, env, fuel, fuel, Prepare(g.nodes[i].layer, Nested(g, s, i, inputs), 0)),
      Watch(s.trace).value[..|base| + 1])
    decreases g, 0, 0
  {
    hide Quiet, Open, Books, Live, Traced, Run, Prepare, Nested, ValidLayer, LevelLog, Watch;
    var layer, start := g.nodes[i].layer, Nested(g, s, i, inputs);
    NestedQuiet(g, s, base, i, inputs);
    NestedGood(g, s, i, inputs);
    var inside := Watch(s.trace).value[..|base| + 1];
    PrepareQuiet(layer, start, inside, 0);
    RunTraced(layer, env, fuel, fuel, Prepare(layer, start, 0), inside);
  }

  lemma NestedGood(g: Layer, s: State, i: nat, inputs: Inputs)
    requires ValidLayer(g) && i < |g.nodes| && g.nodes[i].Composite?
    ensures ValidLayer(g.nodes[i].layer)
    ensures var t := Nested(g, s, i, inputs);
      Good(g.nodes[i].layer, t, {}) && Good(g.nodes[i].layer, Prepare(g.nodes[i].layer, t, 0), {})
    ensures forall k :: 0 <= k < |g.nodes[i].layer.nodes| ==> Nested(g, s, i, inputs).activations[k] == 0
  {
    PrepareGood(g.nodes[i].layer, Nested(g, s, i, inputs), 0);
  }

  /** A nested run cut off leaves the composite's own frame as it was. */
  lemma CutLog(s: State, r: Step, base: seq<Frame>, i: nat)
    requires Open(s, base, i) && Traced(r, Watch(s.trace).value[..|base| + 1]) && r.flow.Cut?
    ensures Traced(Step(Resume(s, r.s), Cut), base) && LogAt(Resume(s, r.s), |base|) == OuterLog(s)
  {
    var m, v := Watch(s.trace).value, Watch(r.s.trace).value;
    assert v[..|base|] == v[..|base| + 1][..|base|] == m[..|base| + 1][..|base|];
    assert v[|base|] == v[..|base| + 1][|base|];
  }

  lemma ReturnTraced(g: Layer, env: Env, s: State, base: seq<Frame>, i: nat, r: Step)
    requires Flat(g) && Sized(g, s) && i < |g.nodes| && g.nodes[i].Composite? && Open(s, base, i)
    requires Traced(r, Watch(s.trace).value[..|base| + 1])
    ensures TracedOne(OuterLog(s), Return(g, env, s, i, r), base, i, s.activations[i])
  {
    hide Open;
    if r.flow.Cut? {
      CutLog(s, r, base, i);
    } else {
      var t := Resume(s, r.s);
      ResumeOpen(s, r.s, base, i);
      StaysOpen(t, Tick(t), base, i);
      ClosedQuiet(g, Tick(t), base, i, r.s, env.cancelled(t.tick));
    }
  }

  lemma {:induction false} PrepareQuiet(g: Layer, s: State, base: seq<Frame>, from: nat)
    requires Flat(g) && Sized(g, s) && Quiet(s, base) && from <= |g.nodes|
    requires forall i :: 0 <= i < |g.nodes| ==> s.activations[i] == 0
    ensures Quiet(Prepare(g, s, from), base)
    ensures LevelLog(Prepare(g, s, from)) == LevelLog(s)
    decreases |g.nodes| - from
  {
    hide Quiet, SkipNode, LevelLog, Flat;
    if from < |g.nodes| {
      if !g.nodes[from].enabled { SkipNodeQuiet(g, s, base, from, Disabled); }
      PrepareQuiet(g, if g.nodes[from].enabled then s else SkipNode(g, s, from, Disabled), base, from + 1);
    }
  }

  lemma {:induction false} DispatchTraced(g: Layer, env: Env, fuel: nat, s: State, base: seq<Frame>)
    requires ValidLayer(g) && Good(g, s, {}) && Quiet(s, base) && s.queue != [] && s.queue[0] < |g.nodes|
    ensures Traced(Dispatch(g, env, fuel, Pop(s), s.queue[0]), base)
    decreases g, 2, 0
  {
    hide Books, Live, Quiet, Activate, SkipNode, Evaluate;
    var t, i := Pop(s), s.queue[0];
    StaysQuiet(s, t, base);
    QuietTraced(t, Continue, base);
    PopEvaluate(g, s);
    if i !in t.settled {
      match Evaluate(g, t, i)
      case Blocked =>
        PoppedIsNotBlocked(g, s);
        SkipNodeQuiet(g, t, base, i, NoActiveInput);
        QuietTraced(SkipNode(g, t, i, NoActiveInput), Continue, base);
      case Wait =>
      case Go =>
        ActivateTraced(g, env, fuel, t, base, i);
    }
  }

  lemma {:induction false} ActivateTraced(g: Layer, env: Env, fuel: nat, s: State, base: seq<Frame>, i: nat)
    requires ValidLayer(g) && Sized(g, s) && Quiet(s, base) && i < |g.nodes| && i !in s.settled
    ensures Traced(Activate(g, env, fuel, s, i), base)
    decreases g, 1, 0
  {
    hide HandleGate, RunNode, RunComposite, ConsumedInputs, ValidLayer;
    var s1, inputs := Consume(g, s, i), ConsumedInputs(g, s, i);
    StaysQuiet(s, s1, base);
    if g.nodes[i].IsGate() {
      GateQuiet(g, env, s1, base, i, inputs);
    } else if g.nodes[i].Composite? {
      CompositeTraced(g, env, fuel, s1, base, i, inputs);
    } else {
      NodeQuiet(g, env, s1, base, i, inputs);
    }
  }

  lemma TimeoutQuiet(g: Layer, s: State, base: seq<Frame>)
    requires Flat(g) && Good(g, s, {}) && Quiet(s, base)
    ensures Quiet(FailLoopTimeout(g, s), base)
  {
    if s.loopState.Some? {
      var state := s.loopState.value;
      GateTimeoutQuiet(g, s, Count(s, state.gate), base, state.gate, state.iteration);
    }
  }

  lemma {:induction false} TurnTraced(g: Layer, env: Env, fuel: nat, s: State, base: seq<Frame>)
    requires ValidLayer(g) && Good(g, s, {}) && Quiet(s, base)
    ensures Traced(Turn(g, env, fuel, s), base)
    decreases g, 3, 0
  {
    hide Books, Live, Quiet, EnqueueReady, Dispatch, ValidLayer;
    EnqueueQuiet(g, s, base, 0);
    EnqueueGood(g, s, 0);
    var t := EnqueueReady(g, s, 0);
    QuietTraced(t, Break, base);
    if t.queue != [] {
      assert t.queue[0] in t.queue;
      DispatchTraced(g, env, fuel, t, base);
    }
  }

  lemma FlagsTraced(s: State, base: seq<Frame>)
    requires Quiet(s, base)
    ensures Quiet(Tick(s), base)
    ensures Traced(Step(Tick(s).(cancelled := true), Break), base)
    ensures Traced(Step(Tick(s).(timedOut := true), Break), base)
  {
  }

  lemma {:induction false} IterateTraced(g: Layer, env: Env, fuel: nat, s: State, base: seq<Frame>)
    requires ValidLayer(g) && Good(g, s, {}) && Quiet(s, base)
    ensures Traced(Iterate(g, env, fuel, s), base)
    decreases g, 4, 0
  {
    hide Books, Live, Quiet, Turn, FailLoopTimeout, ValidLayer;
    var s3 := Tick(Tick(Tick(s)));
    TickGood(g, s, {});
    TickGood(g, Tick(s), {});
    TickGood(g, Tick(Tick(s)), {});
    StaysQuiet(s, s3, base);
    TurnTraced(g, env, fuel, s3, base);
    TimeoutQuiet(g, s3, base);
    FlagsTraced(s, base);
    FlagsTraced(Tick(s), base);
    FlagsTraced(Tick(Tick(s)), base);
  }

  lemma {:induction false} SettleQuiet(g: Layer, s: State, base: seq<Frame>, from: nat)
    requires Flat(g) && Sized(g, s) && Quiet(s, base) && from <= |g.nodes|
    ensures Quiet(SettleUnreached(g, s, from), base)
    ensures LevelLog(SettleUnreached(g, s, from)) == LevelLog(s)
    decreases |g.nodes| - from
  {
    hide Quiet, SkipNode, LevelLog, Flat;
    if from < |g.nodes| {
      if from in s.settled || s.activations[from] > 0 {
        SettleQuiet(g, s, base, from + 1);
      } else {
        SkipNodeQuiet(g, s, base, from, NoActivationPath);
        SettleQuiet(g, SkipNode(g, s, from, NoActivationPath), base, from + 1);
      }
    }
  }

  lemma {:induction false} RunTraced(g: Layer, env: Env, fuel: nat, n: nat, s: State, base: seq<Frame>)
    requires ValidLayer(g) && Good(g, s, {}) && Quiet(s, base)
    ensures Traced(Run(g, env, fuel, n, s), base)
    decreases g, 5, n
  {
    hide Books, Live, Iterate, SettleUnreached, Quiet, ValidLayer, Flat;
    QuietTraced(s, Cut, base);
    if n > 0 {
      var r := Iterate(g, env, fuel, s);
      IterateGood(g, env, fuel, s);
      IterateTraced(g, env, fuel, s, base);
      match r.flow
      case Continue => RunTraced(g, env, fuel, n - 1, r.s, base);
      case Cut =>
      case Break =>
        SettleQuiet(g, r.s, base, 0);
        QuietTraced(SettleUnreached(g, r.s, 0), Break, base);
    }
  }

  /** The whole event stream of a run, composites included, is accepted by the monitor at every
      point; when the run ends nothing is left open and the root frame's counts and skips are
      the ones the run reports. */
  lemma EveryStreamIsWellNested(g: Layer, env: Env, fuel: nat)
    requires ValidLayer(g)
    ensures var r := Execute(g, env, fuel); var m := Watch(r.s.trace);
      && Numbered(r.s) && m.Some?
      && (r.flow.Break? ==> |m.value| == 1 && m.value[0].open.None? && Matches(m.value[0], r.s))
  {
    var s := Fresh(g, [], None, map[], 0, [], 0);
    PrepareQuiet(g, s, [], 0);
    PrepareGood(g, s, 0);
    RunTraced(g, env, fuel, fuel, Prepare(g, s, 0), []);
  }
}
