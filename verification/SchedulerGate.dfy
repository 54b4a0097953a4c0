/** The loop gate's protocol.  In a layer with one gate, its activations close, in order, with
    `continue` for iterations 1, 2, 3, ... without gaps and within the budget, until an exit
    (after which a new loop starts at 1 again) or a failure (after which nothing continues, and
    only the time out of a loop the failure left open can follow). */
module SchedulerGate {
  import opened Wrappers
  import opened Json
  import opened Workflow
  import opened SchedulerSpec
  import opened SchedulerExit
  import opened SchedulerTrace

  datatype Phase = Idle | At(iteration: nat) | Dead(open: bool) | Bad

  /** How one closed activation moves the gate's protocol; `Bad` is a breach. */
  function Advance(limit: nat, gate: nat, phase: Phase, body: Body): Phase {
    match body
    case Finished(i, outputs, _, tag) =>
      if i != gate then phase
      else if "continue" in outputs then Continued(limit, phase, tag)
      else Exited(phase, tag)
    case Failed(i, code, _, _) => if i != gate then phase else AfterFailure(phase, code)
    case Cancelled(i, _, _) => if i != gate then phase else Bad
    case _ => phase
  }

  function Continued(limit: nat, phase: Phase, tag: Option<nat>): Phase {
    match phase
    case Idle => if tag == Some(1) && 1 <= limit then At(1) else Bad
    case At(k) => if tag == Some(k + 1) && k + 1 <= limit then At(k + 1) else Bad
    case _ => Bad
  }

  /** A time out or a spent budget closes the loop; any other failure leaves it as it is. */
  function AfterFailure(phase: Phase, code: Code): Phase {
    match phase
    case Idle => Dead(false)
    case At(_) => Dead(code != LoopTimeout && code != LoopBudgetExhausted)
    case Dead(open) => if open && code == LoopTimeout then Dead(false) else Bad
    case Bad => Bad
  }

  function Exited(phase: Phase, tag: Option<nat>): Phase {
    match phase
    case Idle => if tag == Some(0) then Idle else Bad
    case At(k) => if tag == Some(k) then Idle else Bad
    case _ => Bad
  }

  function Protocol(limit: nat, gate: nat, log: seq<Body>): Phase {
    if log == [] then Idle
    else Advance(limit, gate, Protocol(limit, gate, log[..|log| - 1]), log[|log| - 1])
  }

  ghost predicate OneGate(g: Layer, gate: nat) {
    gate < |g.nodes| && forall i :: 0 <= i < |g.nodes| ==> (g.nodes[i].IsGate() <==> i == gate)
  }

  function Limit(g: Layer, gate: nat): nat
    requires gate < |g.nodes|
  {
    var budget := GateBudget(g.nodes[gate]);
    if budget.Some? then budget.value.0 else 0
  }

  ghost function PhaseOf(g: Layer, s: State, gate: nat): Phase
    requires gate < |g.nodes|
  {
    Protocol(Limit(g, gate), gate, LevelLog(s))
  }

  /** The gate's log agrees with the loop state the scheduler keeps. */
  ghost predicate Agrees(g: Layer, s: State, gate: nat)
    requires gate < |g.nodes|
  {
    match (s.loopState, PhaseOf(g, s, gate))
    case (Some(state), At(k)) =>
      state.gate == gate && state.iteration == k && 1 <= k <= Limit(g, gate) && gate !in s.settled
    case (Some(state), Dead(open)) => open && state.gate == gate && gate in s.settled
    case (None, Idle) => true
    case (None, Dead(open)) => !open && gate in s.settled
    case _ => false
  }

  ghost predicate Obeys(g: Layer, s: State, gate: nat)
    requires gate < |g.nodes|
  {
    !PhaseOf(g, s, gate).Bad?
  }

  /** The same read at the instance's own frame, below whatever is still open. */
  ghost predicate ObeysAt(g: Layer, s: State, base: seq<Frame>, gate: nat)
    requires gate < |g.nodes|
  {
    !Protocol(Limit(g, gate), gate, LogAt(s, |base|)).Bad?
  }

  lemma OneMore(limit: nat, gate: nat, log: seq<Body>, body: Body)
    ensures Protocol(limit, gate, log + [body]) == Advance(limit, gate, Protocol(limit, gate, log), body)
  {
    assert (log + [body])[..|log|] == log;
  }

  lemma BudgetIsPositive(g: Layer, gate: nat)
    requires gate < |g.nodes| && GateBudget(g.nodes[gate]).Some?
    ensures 1 <= Limit(g, gate)
  {
  }

  /** Steps that close nothing and fail nothing keep the agreement. */
  lemma Carries(g: Layer, s: State, t: State, gate: nat)
    requires Flat(g) && gate < |g.nodes| && Agrees(g, s, gate) && Books(g, s) && Books(g, t)
    requires LevelLog(t) == LevelLog(s) && t.loopState == s.loopState && s.settled <= t.settled
    requires t.failed == s.failed && t.activations == s.activations
    ensures Agrees(g, t, gate)
  {
  }

  /** Closing an activation of another node keeps it, too. */
  lemma OtherNode(g: Layer, s: State, r: Step, gate: nat, i: nat, k: nat)
    requires Flat(g) && gate < |g.nodes| && Agrees(g, s, gate) && Books(g, s) && Books(g, r.s) && i != gate
    requires ClosedOne(LevelLog(s), LevelLog(r.s), i, k) && s.settled <= r.s.settled
    requires forall j :: j in r.s.failed ==> j in s.failed || j == i
    requires |r.s.activations| == |s.activations| && r.s.activations[gate] == s.activations[gate]
    requires r.flow.Continue? ==> r.s.loopState == s.loopState
    ensures Obeys(g, r.s, gate) && (r.flow.Continue? ==> Agrees(g, r.s, gate))
  {
  }

  /** What a step that closes an activation of `i` leaves alone; the loop state only if the run goes on. */
  ghost predicate Leaves(s: State, r: Step, i: nat) {
    && s.settled <= r.s.settled
    && (forall j :: j in r.s.failed ==> j in s.failed || j == i)
    && (r.flow.Continue? ==> r.s.loopState == s.loopState)
    && (r.s.loopState == s.loopState || r.s.loopState.None?)
  }

  lemma AnsweredLeaves(g: Layer, s: State, i: nat, reply: Reply)
    requires Flat(g) && Sized(g, s) && i < |g.nodes|
    ensures Leaves(s, Answered(g, s, i, reply), i) && !Answered(g, s, i, reply).flow.Cut?
  {
    hide FailStarted, Finish, Flat;
  }

  lemma BeginLeaves(g: Layer, s: State, i: nat)
    requires Flat(g) && Sized(g, s) && i < |g.nodes|
    ensures var t := Begin(g, s, i); t.settled == s.settled && t.failed == s.failed && t.loopState == s.loopState
  {
  }

  lemma NodeLeaves(g: Layer, env: Env, s: State, i: nat, inputs: Inputs)
    requires Flat(g) && Sized(g, s) && i < |g.nodes|
    ensures Leaves(s, RunNode(g, env, s, i, inputs), i) && !RunNode(g, env, s, i, inputs).flow.Cut?
  {
    hide FailStarted, Answered, Begin, Flat;
    var s1 := Begin(g, s, i);
    BeginLeaves(g, s, i);
    AnsweredLeaves(g, Tick(s1), i, env.execute(s.scope, i, s1.activations[i], inputs, s.tick));
  }

  lemma ClosedLeaves(g: Layer, s: State, i: nat, inner: State, cancelled: bool)
    requires Flat(g) && Sized(g, s) && i < |g.nodes| && g.nodes[i].Composite?
    ensures Leaves(s, Closed(g, s, i, inner, cancelled), i)
  {
    hide FailStarted, Finish, Flat, CompositeOutputs;
  }

  lemma CompositeLeaves(g: Layer, env: Env, fuel: nat, s: State, i: nat, inputs: Inputs)
    requires ValidLayer(g) && Sized(g, s) && i < |g.nodes| && g.nodes[i].Composite?
    ensures Leaves(s, RunComposite(g, env, fuel, s, i, inputs), i)
  {
    hide FailStarted, Closed, Begin, Run, Prepare, Nested;
    var s1, layer := Begin(g, s, i), g.nodes[i].layer;
    BeginLeaves(g, s, i);
    if !LacksPort(g, i, inputs) {
      var r := Run(layer, env, fuel, fuel, Prepare(layer, Nested(g, s1, i, inputs), 0));
      var t := Resume(s1, r.s);
      ClosedLeaves(g, Tick(t), i, r.s, env.cancelled(t.tick));
    }
  }

  // ---------------------------------------------------------------- the gate's own activations

  /** `t` is `s` with the gate's activation counted and, for the clock, ticked. */
  ghost predicate GateTurn(g: Layer, s: State, t: State, base: seq<Frame>, gate: nat)
    requires Flat(g)
  {
    && OneGate(g, gate) && Agrees(g, s, gate) && Sized(g, t) && Counted(s, t, base, gate)
    && gate !in s.settled && t.loopState == s.loopState && t.failed == s.failed
  }

  lemma GateFails(g: Layer, s: State, t: State, base: seq<Frame>, gate: nat, iteration: Option<nat>, code: Code)
    requires Flat(g) && GateTurn(g, s, t, base, gate) && code != LoopTimeout && code != LoopBudgetExhausted
    ensures var u := FailGate(g, t, gate, iteration, code);
      PhaseOf(g, u, gate) == Dead(s.loopState.Some?) && gate in u.settled && u.loopState == s.loopState
  {
    FailGateQuiet(g, s, t, base, gate, iteration, code);
    OneMore(Limit(g, gate), gate, LevelLog(s), Failed(gate, code, t.activations[gate], iteration));
  }

  lemma ContinuePort(payload: Json, inputs: Inputs)
    ensures "continue" in GateOutputs("continue", payload, inputs)
  {
  }

  lemma GateContinues(g: Layer, s: State, t: State, base: seq<Frame>, gate: nat, k: nat, payload: Json, inputs: Inputs)
    requires Flat(g) && OneGate(g, gate) && Sized(g, t) && Counted(s, t, base, gate)
    requires k <= Limit(g, gate) && t.loopState.Some? && t.loopState.value.gate == gate &&
      t.loopState.value.iteration == k
    requires k >= 1 && PhaseOf(g, s, gate) == if k == 1 then Idle else At(k - 1)
    ensures var u := EmitContinue(g, t, gate, k, payload, inputs);
      PhaseOf(g, u, gate) == At(k) && u.loopState == t.loopState && u.failed == t.failed
  {
    hide EmitContinue, Protocol, LevelLog, Quiet, Counted, OneGate, Limit, Flat, GateOutputs;
    assert "continue" in GateOutputs("continue", payload, inputs) by { ContinuePort(payload, inputs); }
    ContinueQuiet(g, s, t, base, gate, k, payload, inputs);
    OneMore(Limit(g, gate), gate, LevelLog(s),
            Finished(gate, GateOutputs("continue", payload, inputs), t.activations[gate], Some(k)));
  }

  lemma RanStaysUnsettled(g: Layer, s: State, u: State, gate: nat)
    requires Flat(g) && Books(g, u) && gate < |g.nodes| && u.activations[gate] > 0 && gate !in u.failed
    ensures gate !in u.settled
  {
  }

  lemma StartAgrees(g: Layer, env: Env, s: State, t: State, base: seq<Frame>, gate: nat, timeout: nat, inputs: Inputs)
    requires Flat(g) && GateTurn(g, s, t, base, gate) && Books(g, s) && "start" in inputs && 1 <= Limit(g, gate)
    requires Books(g, GateStart(g, env, t, gate, timeout, inputs).s)
    ensures Agrees(g, GateStart(g, env, t, gate, timeout, inputs).s, gate)
  {
    hide Counted, FailGate, EmitContinue, Books;
    if t.loopState.Some? {
      GateFails(g, s, t, base, gate, t.iteration, LoopInvalidState);
    } else {
      var t1 := Tick(t).(loopState := Some(LoopState(gate, 1, env.now(t.tick) + timeout)));
      RetickCounted(s, t, t1, base, gate);
      GateContinues(g, s, t1, base, gate, 1, inputs["start"], inputs);
      NotFailed(g, s, gate);
      RanStaysUnsettled(g, s, EmitContinue(g, t1, gate, 1, inputs["start"], inputs), gate);
    }
  }

  lemma RetickCounted(s: State, t: State, t1: State, base: seq<Frame>, gate: nat)
    requires Counted(s, t, base, gate) && t1 == t.(tick := t1.tick, loopState := t1.loopState)
    ensures Counted(s, t1, base, gate) && t1.activations[gate] > 0
  {
  }

  lemma NotSkipped(g: Layer, s: State, i: nat)
    requires Flat(g) && Books(g, s) && i !in s.settled
    ensures i !in s.skipped
  {
  }

  lemma NotFailed(g: Layer, s: State, gate: nat)
    requires Flat(g) && Books(g, s) && gate !in s.settled
    ensures gate !in s.failed
  {
  }

  lemma NextAgrees(g: Layer, env: Env, s: State, t: State, base: seq<Frame>, gate: nat, inputs: Inputs)
    requires Flat(g) && GateTurn(g, s, t, base, gate) && Books(g, s) && "next" in inputs
    requires Books(g, GateNext(g, env, t, gate, Limit(g, gate), inputs).s)
    ensures var r := GateNext(g, env, t, gate, Limit(g, gate), inputs);
      Obeys(g, r.s, gate) && (r.flow.Continue? ==> Agrees(g, r.s, gate))
  {
    hide Counted, FailGate, FailGateTimeout, Exhaust, Reenter, Books, Flat;
    if t.loopState.None? {
      GateFails(g, s, t, base, gate, t.iteration, LoopInvalidState);
    } else {
      RetickCounted(s, t, Tick(t), base, gate);
      TimeoutLog(g, s, Tick(t), base, gate, t.loopState.value.iteration);
      if env.now(t.tick) < t.loopState.value.deadline && t.loopState.value.iteration + 1 <= Limit(g, gate) {
        ReenterAgrees(g, s, Tick(t), base, gate, t.loopState.value, inputs);
      }
    }
  }

  lemma ReenterAgrees(g: Layer, s: State, t: State, base: seq<Frame>, gate: nat, state: LoopState, inputs: Inputs)
    requires Flat(g) && GateTurn(g, s, t, base, gate) && Books(g, s) && "next" in inputs
    requires t.loopState == Some(state) && state.iteration + 1 <= Limit(g, gate)
    requires Books(g, Reenter(g, t, gate, state, inputs))
    ensures Agrees(g, Reenter(g, t, gate, state, inputs), gate)
  {
    hide Counted, EmitContinue, Books, Flat, Protocol, Advance, Limit, LevelLog, OneGate;
    var t1 := t.(loopState := Some(state.(iteration := state.iteration + 1)));
    RetickCounted(s, t, t1, base, gate);
    GateContinues(g, s, t1, base, gate, state.iteration + 1, inputs["next"], inputs);
    NotFailed(g, s, gate);
    RanStaysUnsettled(g, s, Reenter(g, t, gate, state, inputs), gate);
  }

  /** The two branches that fail the gate and end the run leave its log dead with the loop closed. */
  lemma TimeoutLog(g: Layer, s: State, t: State, base: seq<Frame>, gate: nat, iteration: nat)
    requires Flat(g) && GateTurn(g, s, t, base, gate)
    ensures PhaseOf(g, FailGateTimeout(g, t, gate, iteration), gate) == Dead(false)
    ensures PhaseOf(g, Exhaust(g, t, gate, iteration), gate) == Dead(false)
  {
    GateTimeoutQuiet(g, s, t, base, gate, iteration);
    ExhaustQuiet(g, s, t, base, gate, iteration);
    OneMore(Limit(g, gate), gate, LevelLog(s), Failed(gate, LoopTimeout, t.activations[gate], Some(iteration)));
    OneMore(Limit(g, gate), gate, LevelLog(s), Failed(gate, LoopBudgetExhausted, t.activations[gate], Some(iteration)));
  }

  lemma StopAgrees(g: Layer, s: State, t: State, base: seq<Frame>, gate: nat, inputs: Inputs)
    requires Flat(g) && GateTurn(g, s, t, base, gate) && "stop" in inputs
    ensures Agrees(g, GateStop(g, t, gate, inputs).s, gate)
  {
    hide Counted, Propagate;
    var k := if t.loopState.Some? then t.loopState.value.iteration else 0;
    StopQuiet(g, s, t, base, gate, inputs);
    OneMore(Limit(g, gate), gate, LevelLog(s),
            Finished(gate, GateOutputs("exit", inputs["stop"], inputs), t.activations[gate], Some(k)));
  }

  lemma GateAgrees(g: Layer, env: Env, s: State, base: seq<Frame>, gate: nat, inputs: Inputs)
    requires Flat(g) && OneGate(g, gate) && Agrees(g, s, gate) && Books(g, s) && Quiet(s, base) && gate !in s.settled
    requires Books(g, HandleGate(g, env, s, gate, inputs).s)
    ensures var r := HandleGate(g, env, s, gate, inputs);
      Obeys(g, r.s, gate) && (r.flow.Continue? ==> Agrees(g, r.s, gate))
  {
    hide FailGate, GateStart, GateNext, GateStop, GateBudget;
    var t, budget := Count(s, gate), GateBudget(g.nodes[gate]);
    assert GateTurn(g, s, t, base, gate);
    if budget.None? {
      GateFails(g, s, t, base, gate, s.iteration, LoopInvalidBudget);
    } else {
      BudgetIsPositive(g, gate);
      if "stop" in inputs {
        StopAgrees(g, s, t, base, gate, inputs);
      } else if "start" in inputs {
        StartAgrees(g, env, s, t, base, gate, budget.value.1, inputs);
      } else if "next" in inputs {
        NextAgrees(g, env, s, t, base, gate, inputs);
      } else {
        GateFails(g, s, t, base, gate, s.iteration, LoopMissingTrigger);
      }
    }
  }

  lemma GateIsNeverCut(g: Layer, env: Env, s: State, gate: nat, inputs: Inputs)
    requires Flat(g) && Sized(g, s) && gate < |g.nodes|
    ensures !HandleGate(g, env, s, gate, inputs).flow.Cut?
  {
    hide FailGate, FailGateTimeout, Exhaust, Reenter, EmitContinue, GateBudget;
  }

  // ---------------------------------------------------------------- the run loop

  /** What each step keeps. */
  ghost predicate Kept(g: Layer, r: Step, base: seq<Frame>, gate: nat)
    requires gate < |g.nodes|
  {
    && (if r.flow.Cut? then ObeysAt(g, r.s, base, gate) else Obeys(g, r.s, gate))
    && (r.flow.Continue? ==> Agrees(g, r.s, gate))
  }

  lemma ActivateKeeps(g: Layer, env: Env, fuel: nat, s: State, base: seq<Frame>, gate: nat, i: nat)
    requires ValidLayer(g) && OneGate(g, gate) && Good(g, s, {i}) && Running(g, s, i) && Quiet(s, base) &&
      Agrees(g, s, gate)
    ensures Kept(g, Activate(g, env, fuel, s, i), base, gate)
  {
    hide Live, HandleGate, RunNode, RunComposite, ConsumedInputs, ValidLayer, Books, Quiet, Agrees, Obeys;
    var t, inputs := Consume(g, s, i), ConsumedInputs(g, s, i);
    ConsumeGood(g, s, i);
    StaysQuiet(s, t, base);
    Carries(g, s, t, gate);
    NotSkipped(g, t, i);
    if i == gate {
      GateGood(g, env, t, i, inputs);
      GateAgrees(g, env, t, base, gate, inputs);
      GateIsNeverCut(g, env, t, gate, inputs);
    } else if g.nodes[i].Composite? {
      CompositeGood(g, env, fuel, t, i, inputs);
      CompositeTraced(g, env, fuel, t, base, i, inputs);
      CompositeLeaves(g, env, fuel, t, i, inputs);
      var r := RunComposite(g, env, fuel, t, i, inputs);
      if r.flow.Cut? { CutObeys(g, t, r, base, gate, i); } else { OtherNode(g, t, r, gate, i, t.activations[i] + 1); }
    } else {
      NodeGood(g, env, t, i, inputs);
      NodeQuiet(g, env, t, base, i, inputs);
      NodeLeaves(g, env, t, i, inputs);
      OtherNode(g, t, RunNode(g, env, t, i, inputs), gate, i, t.activations[i] + 1);
    }
  }

  lemma CutObeys(g: Layer, s: State, r: Step, base: seq<Frame>, gate: nat, i: nat)
    requires gate < |g.nodes| && Agrees(g, s, gate) && r.flow.Cut? && i < |s.activations|
    requires TracedOne(LevelLog(s), r, base, i, s.activations[i] + 1)
    ensures ObeysAt(g, r.s, base, gate)
  {
  }

  lemma AgreesObeys(g: Layer, s: State, gate: nat)
    requires gate < |g.nodes| && Agrees(g, s, gate)
    ensures Obeys(g, s, gate)
  {
  }

  lemma DispatchKeeps(g: Layer, env: Env, fuel: nat, s: State, base: seq<Frame>, gate: nat)
    requires ValidLayer(g) && OneGate(g, gate) && Good(g, s, {}) && Quiet(s, base) && Agrees(g, s, gate)
    requires s.queue != [] && s.queue[0] < |g.nodes|
    ensures Kept(g, Dispatch(g, env, fuel, Pop(s), s.queue[0]), base, gate)
  {
    hide Live, Activate, SkipNode, Evaluate, ValidLayer, Books, Quiet, Agrees, Obeys;
    var t, i := Pop(s), s.queue[0];
    PopGood(g, s);
    ForgetAhead(g, t, {i});
    PopEvaluate(g, s);
    StaysQuiet(s, t, base);
    Carries(g, s, t, gate);
    AgreesObeys(g, t, gate);
    if i !in t.settled {
      match Evaluate(g, t, i)
      case Blocked =>
        PoppedIsNotBlocked(g, s);
        SkipGood(g, t, {}, i, NoActiveInput);
        SkipNodeQuiet(g, t, base, i, NoActiveInput);
        Carries(g, t, SkipNode(g, t, i, NoActiveInput), gate);
        AgreesObeys(g, SkipNode(g, t, i, NoActiveInput), gate);
      case Wait =>
      case Go => ActivateKeeps(g, env, fuel, t, base, gate, i);
    }
  }

  lemma {:induction false} EnqueueOnlySkips(g: Layer, s: State, from: nat)
    requires Flat(g) && Sized(g, s) && from <= |g.nodes|
    ensures var t := EnqueueReady(g, s, from);
      t.loopState == s.loopState && t.failed == s.failed && t.activations == s.activations && s.settled <= t.settled
    decreases |g.nodes| - from
  {
    hide Evaluate, SkipNode, Flat;
    if from < |g.nodes| {
      if from in s.settled || from in s.queued {
        EnqueueOnlySkips(g, s, from + 1);
      } else {
        match Evaluate(g, s, from)
        case Go => EnqueueOnlySkips(g, s.(queued := s.queued + {from}, queue := s.queue + [from]), from + 1);
        case Blocked =>
          EnqueueOnlySkips(g, if s.activations[from] == 0 then SkipNode(g, s, from, NoActiveInput) else s, from + 1);
        case Wait => EnqueueOnlySkips(g, s, from + 1);
      }
    }
  }

  lemma TurnKeeps(g: Layer, env: Env, fuel: nat, s: State, base: seq<Frame>, gate: nat)
    requires ValidLayer(g) && OneGate(g, gate) && Good(g, s, {}) && Quiet(s, base) && Agrees(g, s, gate)
    ensures Kept(g, Turn(g, env, fuel, s), base, gate)
  {
    hide Live, EnqueueReady, Dispatch, ValidLayer, Books, Quiet, Agrees, Obeys;
    EnqueueGood(g, s, 0);
    EnqueueQuiet(g, s, base, 0);
    EnqueueOnlySkips(g, s, 0);
    var t := EnqueueReady(g, s, 0);
    Carries(g, s, t, gate);
    AgreesObeys(g, t, gate);
    if t.queue != [] {
      assert t.queue[0] in t.queue;
      DispatchKeeps(g, env, fuel, t, base, gate);
    }
  }

  lemma TimeoutObeys(g: Layer, s: State, base: seq<Frame>, gate: nat)
    requires Flat(g) && OneGate(g, gate) && Good(g, s, {}) && Quiet(s, base) && Agrees(g, s, gate)
    ensures Obeys(g, FailLoopTimeout(g, s), gate)
  {
    hide FailGateTimeout;
    if s.loopState.Some? {
      var state := s.loopState.value;
      var t := Count(s, gate);
      GateTimeoutQuiet(g, s, t, base, gate, state.iteration);
      OneMore(Limit(g, gate), gate, LevelLog(s), Failed(gate, LoopTimeout, t.activations[gate], Some(state.iteration)));
    }
  }

  lemma IterateKeeps(g: Layer, env: Env, fuel: nat, s: State, base: seq<Frame>, gate: nat)
    requires ValidLayer(g) && OneGate(g, gate) && Good(g, s, {}) && Quiet(s, base) && Agrees(g, s, gate)
    ensures Kept(g, Iterate(g, env, fuel, s), base, gate)
  {
    hide Books, Live, Quiet, Turn, FailLoopTimeout, ValidLayer, Agrees, Obeys;
    var s1, s2, s3 := Tick(s), Tick(Tick(s)), Tick(Tick(Tick(s)));
    TickGood(g, s, {});
    TickGood(g, s1, {});
    TickGood(g, s2, {});
    StaysQuiet(s, s3, base);
    TickAgrees(g, s, gate);
    TickAgrees(g, s1, gate);
    TickAgrees(g, s2, gate);
    TurnKeeps(g, env, fuel, s3, base, gate);
    TimeoutObeys(g, s3, base, gate);
  }

  lemma TickAgrees(g: Layer, s: State, gate: nat)
    requires gate < |g.nodes| && Agrees(g, s, gate)
    ensures Agrees(g, Tick(s), gate)
    ensures Obeys(g, Tick(s).(cancelled := true), gate) && Obeys(g, Tick(s).(timedOut := true), gate)
  {
  }

  lemma {:induction false} RunObeys(g: Layer, env: Env, fuel: nat, n: nat, s: State, base: seq<Frame>, gate: nat)
    requires ValidLayer(g) && OneGate(g, gate) && Good(g, s, {}) && Quiet(s, base) && Agrees(g, s, gate)
    ensures ObeysAt(g, Run(g, env, fuel, n, s).s, base, gate)
    decreases n
  {
    hide Books, Live, Iterate, SettleUnreached, Quiet, ValidLayer, Agrees, Obeys, ObeysAt;
    if n == 0 {
      AgreesObeys(g, s, gate);
      QuietObeys(g, s, base, gate);
    } else {
      var r := Iterate(g, env, fuel, s);
      IterateGood(g, env, fuel, s);
      IterateTraced(g, env, fuel, s, base);
      IterateKeeps(g, env, fuel, s, base, gate);
      match r.flow
      case Continue => RunObeys(g, env, fuel, n - 1, r.s, base, gate);
      case Cut =>
      case Break =>
        SettleQuiet(g, r.s, base, 0);
        SameLog(g, r.s, SettleUnreached(g, r.s, 0), gate);
        QuietObeys(g, SettleUnreached(g, r.s, 0), base, gate);
    }
  }

  lemma QuietObeys(g: Layer, s: State, base: seq<Frame>, gate: nat)
    requires gate < |g.nodes| && Quiet(s, base) && Obeys(g, s, gate)
    ensures ObeysAt(g, s, base, gate)
  {
    hide Quiet;
    QuietLog(s, base);
  }

  lemma SameLog(g: Layer, s: State, t: State, gate: nat)
    requires gate < |g.nodes| && LevelLog(s) == LevelLog(t) && Obeys(g, s, gate)
    ensures Obeys(g, t, gate)
  {
  }

  /** In every instance of a layer with one gate, after any number of turns, however the run ends
      and whether it ends or not, the gate's closed activations follow the protocol. */
  lemma EveryLoopObeysItsBudget(g: Layer, env: Env, fuel: nat, n: nat, s: State, base: seq<Frame>, gate: nat)
    requires ValidLayer(g) && OneGate(g, gate) && Sized(g, s) && Quiet(s, base)
    requires s == Fresh(g, s.scope, s.parentDeadline, s.seeds, s.nextSeq, s.trace, s.tick) && LevelLog(s) == []
    ensures !Protocol(Limit(g, gate), gate, LogAt(Run(g, env, fuel, n, Prepare(g, s, 0)).s, |base|)).Bad?
  {
    PrepareGood(g, s, 0);
    PrepareQuiet(g, s, base, 0);
    PrepareOnlySkips(g, s, 0);
    Carries(g, s, Prepare(g, s, 0), gate);
    RunObeys(g, env, fuel, n, Prepare(g, s, 0), base, gate);
  }

  lemma {:induction false} PrepareOnlySkips(g: Layer, s: State, from: nat)
    requires Flat(g) && Sized(g, s) && from <= |g.nodes|
    ensures var t := Prepare(g, s, from);
      t.loopState == s.loopState && t.failed == s.failed && t.activations == s.activations && s.settled <= t.settled
    decreases |g.nodes| - from
  {
    hide SkipNode, Flat;
    if from < |g.nodes| {
      PrepareOnlySkips(g, if g.nodes[from].enabled then s else SkipNode(g, s, from, Disabled), from + 1);
    }
  }

  /** A `next` that arrives with the budget used up fails the gate and ends the run. */
  lemma BudgetEndsTheRun(g: Layer, env: Env, s: State, base: seq<Frame>, gate: nat, inputs: Inputs)
    requires Flat(g) && OneGate(g, gate) && Agrees(g, s, gate) && Books(g, s) && Quiet(s, base) && gate !in s.settled
    requires Sized(g, s) && GateBudget(g.nodes[gate]).Some? && "next" in inputs && "stop" !in inputs &&
      "start" !in inputs
    requires PhaseOf(g, s, gate) == At(Limit(g, gate))
    ensures var r := HandleGate(g, env, s, gate, inputs);
      r.flow == Break && gate in r.s.failed && PhaseOf(g, r.s, gate) == Dead(false)
  {
    hide Books, Quiet, FailGate, FailGateTimeout, Exhaust, Reenter;
    var t := Count(s, gate);
    assert Counted(s, t, base, gate) by { CountedOf(g, s, base, gate); }
    RetickCounted(s, t, Tick(t), base, gate);
    TimeoutLog(g, s, Tick(t), base, gate, s.loopState.value.iteration);
    EndsInFailed(g, Tick(t), gate, s.loopState.value.iteration);
  }

  lemma CountedOf(g: Layer, s: State, base: seq<Frame>, gate: nat)
    requires Flat(g) && Books(g, s) && Quiet(s, base) && gate < |g.nodes| && gate !in s.settled
    ensures Counted(s, Count(s, gate), base, gate)
  {
  }

  lemma EndsInFailed(g: Layer, t: State, gate: nat, iteration: nat)
    requires Flat(g) && Sized(g, t) && gate < |g.nodes|
    ensures gate in FailGateTimeout(g, t, gate, iteration).failed
    ensures gate in Exhaust(g, t, gate, iteration).failed
  {
  }

  // ---------------------------------------------------------------- how often a gate fails

  /** The closed activations of `gate` that failed. */
  ghost function Failures(gate: nat, log: seq<Body>): nat {
    if log == [] then 0
    else
      var last := log[|log| - 1];
      Failures(gate, log[..|log| - 1]) + if last.Failed? && last.node == gate then 1 else 0
  }

  /** At position `j` the gate, failed with its loop left open, is failed by the loop's time out. */
  ghost predicate FailsAgainAt(limit: nat, gate: nat, log: seq<Body>, j: nat) {
    j < |log| && Protocol(limit, gate, log[..j]) == Dead(true) && log[j].Failed? && log[j].node == gate &&
      log[j].code == LoopTimeout
  }

  /** Following the protocol, a gate fails at most twice, and twice exactly when a loop that an
      earlier failure left open times out. */
  lemma {:induction false} FailuresAreCounted(limit: nat, gate: nat, log: seq<Body>)
    requires !Protocol(limit, gate, log).Bad?
    ensures match Protocol(limit, gate, log)
      case Dead(open) => 1 <= Failures(gate, log) <= 2 && (open ==> Failures(gate, log) == 1)
      case _ => Failures(gate, log) == 0
    ensures Failures(gate, log) == 2 <==> exists j :: FailsAgainAt(limit, gate, log, j)
  {
    if log != [] {
      var front, last := log[..|log| - 1], log[|log| - 1];
      FailuresAreCounted(limit, gate, front);
      assert forall j :: 0 <= j <= |front| ==> front[..j] == log[..j];
      assert forall j :: 0 <= j < |front| ==>
        (FailsAgainAt(limit, gate, front, j) <==> FailsAgainAt(limit, gate, log, j));
      assert FailsAgainAt(limit, gate, log, |front|) <==>
        Protocol(limit, gate, front) == Dead(true) && Failures(gate, log) == 2;
      if j: nat :| FailsAgainAt(limit, gate, log, j) {
        assert j < |front| ==> FailsAgainAt(limit, gate, front, j);
      }
      if j: nat :| FailsAgainAt(limit, gate, front, j) {
        assert FailsAgainAt(limit, gate, log, j);
      }
    }
  }

  /** So in a layer with one gate, in every run, the gate fails at most twice. */
  lemma GateFailsAtMostTwice(g: Layer, env: Env, fuel: nat, n: nat, s: State, base: seq<Frame>, gate: nat)
    requires ValidLayer(g) && OneGate(g, gate) && Sized(g, s) && Quiet(s, base)
    requires s == Fresh(g, s.scope, s.parentDeadline, s.seeds, s.nextSeq, s.trace, s.tick) && LevelLog(s) == []
    ensures var log := LogAt(Run(g, env, fuel, n, Prepare(g, s, 0)).s, |base|);
      && Failures(gate, log) <= 2
      && (Failures(gate, log) == 2 <==> exists j :: FailsAgainAt(Limit(g, gate), gate, log, j))
  {
    EveryLoopObeysItsBudget(g, env, fuel, n, s, base, gate);
    FailuresAreCounted(Limit(g, gate), gate, LogAt(Run(g, env, fuel, n, Prepare(g, s, 0)).s, |base|));
  }

  /** When the open loop times out, that fails its gate for the second time exactly if the gate
      was settled by then. */
  lemma TimeoutFailsAgainIff(g: Layer, s: State, base: seq<Frame>, gate: nat)
    requires Flat(g) && OneGate(g, gate) && Good(g, s, {}) && Quiet(s, base) && Agrees(g, s, gate) && s.loopState.Some?
    ensures Failures(gate, LevelLog(FailLoopTimeout(g, s))) == if gate in s.settled then 2 else 1
  {
    hide FailGateTimeout, Quiet, Books, Live, LevelLog;
    var state, t := s.loopState.value, Count(s, gate);
    assert gate !in s.skipped by { RanNotSkipped(g, s, gate); }
    GateTimeoutQuiet(g, s, t, base, gate, state.iteration);
    var body := Failed(gate, LoopTimeout, t.activations[gate], Some(state.iteration));
    assert (LevelLog(s) + [body])[..|LevelLog(s)|] == LevelLog(s);
    FailuresAreCounted(Limit(g, gate), gate, LevelLog(s));
  }

  lemma RanNotSkipped(g: Layer, s: State, gate: nat)
    requires Flat(g) && Books(g, s) && s.loopState.Some? && s.loopState.value.gate == gate
    ensures gate !in s.skipped
  {
  }

  // ---------------------------------------------------------------- what the loop state does not guard

  /** `next` does not ask which gate opened the loop.  An activation of gate `i` raises an open
      loop's iteration exactly on a `next` alone, in time and within the budget of `i`; so it takes
      the loop past its own gate's budget exactly when, in time, that is spent and `i` allows more. */
  lemma NextAdvancesAnyLoop(g: Layer, env: Env, s: State, i: nat, inputs: Inputs)
    requires Flat(g) && Sized(g, s) && i < |g.nodes| && s.loopState.Some?
    ensures var t, state := HandleGate(g, env, s, i, inputs).s, s.loopState.value;
      var inTime := "next" in inputs && "start" !in inputs && "stop" !in inputs && env.now(s.tick) < state.deadline;
      && (t.loopState == Some(state.(iteration := state.iteration + 1)) <==> inTime && state.iteration < Limit(g, i))
      && (state.iteration <= Limit(g, state.gate) ==>
            (t.loopState.Some? && t.loopState.value.iteration > Limit(g, state.gate) <==>
               inTime && state.iteration == Limit(g, state.gate) < Limit(g, i)))
      && (t.loopState.Some? ==> t.loopState.value.gate == state.gate)
  {
    hide GateNext, GateStart, GateStop, FailGate, Flat, GateBudget;
    var c := Count(s, i);
    var budget := GateBudget(g.nodes[i]);
    if budget.Some? {
      if "stop" in inputs {
        StopCloses(g, c, i, inputs);
      } else if "start" in inputs {
        StartLeavesOpen(g, env, c, i, budget.value.1, inputs);
      } else if "next" in inputs {
        NextAdvancesIff(g, env, c, i, budget.value.0, inputs);
      }
    }
  }

  lemma StopCloses(g: Layer, s: State, i: nat, inputs: Inputs)
    requires Flat(g) && Sized(g, s) && i < |g.nodes| && "stop" in inputs
    ensures GateStop(g, s, i, inputs).s.loopState.None?
  {
    hide Propagate, Flat;
  }

  lemma StartLeavesOpen(g: Layer, env: Env, s: State, i: nat, timeout: nat, inputs: Inputs)
    requires Flat(g) && Sized(g, s) && i < |g.nodes| && "start" in inputs && s.loopState.Some?
    ensures GateStart(g, env, s, i, timeout, inputs).s.loopState == s.loopState
  {
    hide FailGate, EmitContinue;
  }

  lemma NextAdvancesIff(g: Layer, env: Env, s: State, i: nat, limit: nat, inputs: Inputs)
    requires Flat(g) && Sized(g, s) && i < |g.nodes| && "next" in inputs && s.loopState.Some?
    ensures var t, state := GateNext(g, env, s, i, limit, inputs).s, s.loopState.value;
      t.loopState == if env.now(s.tick) < state.deadline && state.iteration < limit
        then Some(state.(iteration := state.iteration + 1)) else None
  {
    hide FailGate, FailGateTimeout, Exhaust, EmitContinue;
    ClosesLoop(g, Tick(s), i, s.loopState.value.iteration);
  }

  lemma ClosesLoop(g: Layer, s: State, i: nat, iteration: nat)
    requires Flat(g) && Sized(g, s) && i < |g.nodes|
    ensures FailGateTimeout(g, s, i, iteration).loopState.None? && Exhaust(g, s, i, iteration).loopState.None?
  {
  }

  /** An open loop is at an iteration between 1 and `limit`. */
  ghost predicate Capped(limit: nat, s: State) {
    s.loopState.Some? ==> 1 <= s.loopState.value.iteration <= limit
  }

  ghost predicate Allows(g: Layer, limit: nat) {
    forall i :: 0 <= i < |g.nodes| && g.nodes[i].IsGate() ==> Limit(g, i) <= limit
  }

  lemma StartOpensAtOne(g: Layer, env: Env, s: State, i: nat, timeout: nat, inputs: Inputs)
    requires Flat(g) && Sized(g, s) && i < |g.nodes| && "start" in inputs && s.loopState.None?
    ensures var t := GateStart(g, env, s, i, timeout, inputs).s; t.loopState.Some? && t.loopState.value.iteration == 1
  {
    hide EmitContinue;
  }

  lemma NextWithout(g: Layer, env: Env, s: State, i: nat, limit: nat, inputs: Inputs)
    requires Flat(g) && Sized(g, s) && i < |g.nodes| && "next" in inputs && s.loopState.None?
    ensures GateNext(g, env, s, i, limit, inputs).s.loopState.None?
  {
    hide FailGate;
  }

  lemma GateCapped(g: Layer, env: Env, s: State, i: nat, inputs: Inputs, limit: nat)
    requires Flat(g) && Sized(g, s) && i < |g.nodes| && g.nodes[i].IsGate() && Allows(g, limit) && Capped(limit, s)
    ensures Capped(limit, HandleGate(g, env, s, i, inputs).s)
  {
    hide GateNext, GateStart, GateStop, FailGate, Flat, GateBudget;
    var c, budget := Count(s, i), GateBudget(g.nodes[i]);
    if budget.Some? {
      BudgetIsPositive(g, i);
      if "stop" in inputs {
        StopCloses(g, c, i, inputs);
      } else if "start" in inputs {
        if s.loopState.Some? {
          StartLeavesOpen(g, env, c, i, budget.value.1, inputs);
        } else {
          StartOpensAtOne(g, env, c, i, budget.value.1, inputs);
        }
      } else if "next" in inputs {
        if s.loopState.Some? {
          NextAdvancesIff(g, env, c, i, budget.value.0, inputs);
        } else {
          NextWithout(g, env, c, i, budget.value.0, inputs);
        }
      }
    }
  }

  lemma ActivateCapped(g: Layer, env: Env, fuel: nat, s: State, i: nat, limit: nat)
    requires ValidLayer(g) && Sized(g, s) && i < |g.nodes| && Allows(g, limit) && Capped(limit, s)
    ensures Capped(limit, Activate(g, env, fuel, s, i).s)
  {
    hide HandleGate, RunNode, RunComposite, Consume, ConsumedInputs, ValidLayer, Flat, Allows;
    var c, inputs := Consume(g, s, i), ConsumedInputs(g, s, i);
    if g.nodes[i].IsGate() {
      GateCapped(g, env, c, i, inputs, limit);
    } else if g.nodes[i].Composite? {
      CompositeLeaves(g, env, fuel, c, i, inputs);
    } else {
      NodeLeaves(g, env, c, i, inputs);
    }
  }

  lemma TurnCapped(g: Layer, env: Env, fuel: nat, s: State, limit: nat)
    requires ValidLayer(g) && Sized(g, s) && Allows(g, limit) && Capped(limit, s)
    ensures Capped(limit, Turn(g, env, fuel, s).s)
  {
    hide EnqueueReady, Activate, SkipNode, Evaluate, ValidLayer, Flat, Allows;
    EnqueueOnlySkips(g, s, 0);
    var t := EnqueueReady(g, s, 0);
    if t.queue != [] { ActivateCapped(g, env, fuel, Pop(t), t.queue[0], limit); }
  }

  /** Whatever gates a layer has: however long its run is observed, an open loop's iteration is
      within the largest of their budgets. */
  lemma {:induction false} LargestBudgetHolds(g: Layer, env: Env, fuel: nat, n: nat, s: State, limit: nat)
    requires ValidLayer(g) && Sized(g, s) && Allows(g, limit) && Capped(limit, s)
    ensures Capped(limit, Run(g, env, fuel, n, s).s)
    decreases n
  {
    hide Turn, SettleUnreached, FailLoopTimeout, ValidLayer, Allows;
    if n > 0 {
      var r := Iterate(g, env, fuel, s);
      TurnCapped(g, env, fuel, Tick(Tick(Tick(s))), limit);
      TimeoutCloses(g, Tick(Tick(Tick(s))));
      match r.flow
      case Continue => LargestBudgetHolds(g, env, fuel, n - 1, r.s, limit);
      case Cut =>
      case Break => SettlesOnlySkip(g, r.s, 0);
    }
  }

  lemma TimeoutCloses(g: Layer, s: State)
    requires Flat(g) && Sized(g, s)
    ensures FailLoopTimeout(g, s).loopState.None?
  {
    hide FailGate;
  }

  lemma {:induction false} SettlesOnlySkip(g: Layer, s: State, from: nat)
    requires Flat(g) && Sized(g, s) && from <= |g.nodes|
    ensures SettleUnreached(g, s, from).loopState == s.loopState
    decreases |g.nodes| - from
  {
    hide SkipNode, Flat;
    if from < |g.nodes| {
      SettlesOnlySkip(g,
        if from in s.settled || s.activations[from] > 0 then s else SkipNode(g, s, from, NoActivationPath), from + 1);
    }
  }

  /** A second `start` fails the gate but leaves the loop open, so when the loop's deadline passes
      the gate is failed once more, under the next activation number. */
  lemma SecondStartFailsTwice(g: Layer, env: Env, s: State, base: seq<Frame>, i: nat, timeout: nat, inputs: Inputs)
    requires Flat(g) && Sized(g, s) && i < |g.nodes| && Counted(s, Count(s, i), base, i)
    requires Good(g, Count(s, i), {i}) && Running(g, Count(s, i), i)
    requires "start" in inputs && s.loopState.Some? && s.loopState.value.gate == i
    ensures var t := GateStart(g, env, Count(s, i), i, timeout, inputs).s;
      var a, k := s.activations[i] + 1, s.loopState.value.iteration;
      && t.loopState == s.loopState && i in t.failed
      && LevelLog(FailLoopTimeout(g, t)) ==
        LevelLog(s) + [Failed(i, LoopInvalidState, a, s.iteration), Failed(i, LoopTimeout, a + 1, Some(k))]
  {
    hide FailGate, Books, Live, Quiet, LevelLog, FailGateTimeout, EmitContinue;
    var c := Count(s, i);
    FailGateGood(g, c, i, s.iteration, LoopInvalidState);
    FailGateQuiet(g, s, c, base, i, s.iteration, LoopInvalidState);
    var t := FailGate(g, c, i, s.iteration, LoopInvalidState);
    assert i in t.failed && i !in t.skipped by { FailedIsListed(g, c, i, s.iteration, LoopInvalidState); }
    GateTimeoutQuiet(g, t, Count(t, i), base, i, s.loopState.value.iteration);
  }

  lemma FailedIsListed(g: Layer, s: State, i: nat, iteration: Option<nat>, code: Code)
    requires Flat(g) && Sized(g, s) && i < |g.nodes| && s.activations[i] > 0 &&
      Books(g, FailGate(g, s, i, iteration, code))
    ensures i in FailGate(g, s, i, iteration, code).failed && i !in FailGate(g, s, i, iteration, code).skipped
  {
  }
}
