/** The activations of executors and gates, each with its start and its closing in the stream, and
    what goes into a composite and comes out of it. */
module SchedulerActivations {
  import opened Wrappers
  import opened Json
  import opened Workflow
  import opened SchedulerSpec
  import opened SchedulerExit
  import opened SchedulerStream
  import opened SchedulerLaw
  import opened SchedulerLedger

  // ---------------------------------------------------------------- executors

  /** The activation stands in the stream with its closing, and the stores are as recorded. */
  ghost predicate Done(g: Layer, seeds: Seeds, s: State, r: Step, told: seq<Body>, start: Body, close: Body)
    requires Flat(g)
  {
    && Acts(g, s, r.s, start, close) && Records(g, seeds, r.s, told + Said(s, r.s))
    && r.s.cancelled == (s.cancelled || close.Cancelled?) && !r.flow.Cut? && (close.Cancelled? ==> r.flow.Break?)
    && r.s.timedOut == s.timedOut && r.s.parentDeadline == s.parentDeadline
  }

  /** The activation has been announced in `u`, and `v` is like it. */
  ghost predicate Announced(g: Layer, s: State, u: State, v: State, start: Body)
    requires Flat(g)
  {
    && Enters(g, s, u, start) && Said(s, u) == [start] && Alike(u, v) && Sized(g, v) && Unmarked(g, v)
    && v.cancelled == s.cancelled && v.timedOut == s.timedOut && v.parentDeadline == s.parentDeadline
  }

  lemma DoneFailed(g: Layer, seeds: Seeds, s: State, u: State, v: State, r: Step, told: seq<Body>, start: Body, i: nat,
      activation: nat, iteration: Option<nat>, code: Code)
    requires Flat(g) && Records(g, seeds, s, told) && Announced(g, s, u, v, start) && i < |g.nodes| && !r.flow.Cut?
    requires Alike(FailStarted(g, v, i, activation, iteration, code), r.s)
    requires r.s.cancelled == s.cancelled && r.s.timedOut == s.timedOut && r.s.parentDeadline == s.parentDeadline
    ensures Done(g, seeds, s, r, told, start, Failed(i, code, activation, iteration))
  {
    hide Enters, Records, FailStarted, Acts, Alike;
    var t := FailStarted(g, v, i, activation, iteration, code);
    FailEnters(g, v, i, activation, iteration, code);
    ThenActs(g, seeds, s, u, v, t, start, Failed(i, code, activation, iteration), told);
    AlikeActs(g, seeds, s, t, r.s, told, start, Failed(i, code, activation, iteration));
  }

  lemma AlikeActs(g: Layer, seeds: Seeds, s: State, t: State, u: State, told: seq<Body>, start: Body, close: Body)
    requires Flat(g) && Acts(g, s, t, start, close) && Records(g, seeds, t, told + Said(s, t)) && Alike(t, u)
    ensures Acts(g, s, u, start, close) && Records(g, seeds, u, told + Said(s, u))
  {
    hide Records, Neutral;
    AlikeRecords(g, seeds, t, u, told + Said(s, t));
    assert Said(s, u) == Said(s, t);
  }

  lemma DoneFinished(g: Layer, seeds: Seeds, s: State, u: State, v: State, told: seq<Body>, start: Body, i: nat,
      outputs: Inputs, iteration: Option<nat>)
    requires Flat(g) && Records(g, seeds, s, told) && Announced(g, s, u, v, start) && i < |g.nodes| &&
      !g.nodes[i].IsGate()
    ensures Done(g, seeds, s, Step(Finish(g, v, i, outputs, iteration), Continue), told, start,
      Finished(i, outputs, v.activations[i], iteration))
  {
    hide Enters, Records, Propagate, Acts, Alike;
    FinishEnters(g, v, i, outputs, iteration);
    ThenActs(g, seeds, s, u, v, Finish(g, v, i, outputs, iteration), start,
      Finished(i, outputs, v.activations[i], iteration), told);
  }

  lemma DoneCancelled(g: Layer, seeds: Seeds, s: State, u: State, v: State, told: seq<Body>, start: Body, i: nat,
      activation: nat, iteration: Option<nat>)
    requires Flat(g) && Records(g, seeds, s, told) && Announced(g, s, u, v, start) && i < |g.nodes|
    ensures var b := Cancelled(i, activation, iteration);
      Done(g, seeds, s, Step(Emit(v, b).(cancelled := true), Break), told, start, b)
  {
    hide Enters, Records, Acts, Alike;
    var b := Cancelled(i, activation, iteration);
    CancelEnters(g, v, i, activation, iteration);
    ThenActs(g, seeds, s, u, v, Emit(v, b).(cancelled := true), start, b, told);
  }

  lemma BeginAnnounces(g: Layer, seeds: Seeds, s: State, told: seq<Body>, i: nat)
    requires Flat(g) && Sized(g, s) && Records(g, seeds, s, told) && i < |g.nodes|
    ensures var u := Begin(g, Consume(g, s, i), i);
      && Announced(g, s, u, u, Started(i, s.activations[i] + 1, s.iteration, g.nodes[i].Composite?))
      && u.activations[i] == s.activations[i] + 1 && u.iteration == s.iteration && u.tick == s.tick
      && u.loopState == s.loopState && u.parentDeadline == s.parentDeadline
  {
    hide Enters, Consume;
    var c := Consume(g, s, i);
    RecordsUnmarked(g, seeds, s, told);
    StartEnters(g, s, Fire(g, Count(c, i), i), i, Started(i, s.activations[i] + 1, s.iteration, g.nodes[i].Composite?));
  }

  /** An executor activation: announced, closed as the executor's reply has it, and in the stores. */
  lemma NodeDone(g: Layer, env: Env, seeds: Seeds, s: State, told: seq<Body>, i: nat, inputs: Inputs)
      returns (close: Body)
    requires Flat(g) && Sized(g, s) && Records(g, seeds, s, told) && i < |g.nodes| && g.nodes[i].Task?
    requires !g.nodes[i].IsGate()
    ensures var start := Started(i, s.activations[i] + 1, s.iteration, false);
      && Done(g, seeds, s, RunNode(g, env, Consume(g, s, i), i, inputs), told, start, close)
      && ExecutorCloses(g, env, s.scope, inputs, Deadline(s).Some?, start, close)
  {
    hide Done, Announced, Records, Begin, FailStarted, Finish, Consume, Answered, Flat;
    var start, u := Started(i, s.activations[i] + 1, s.iteration, false), Begin(g, Consume(g, s, i), i);
    BeginAnnounces(g, seeds, s, told, i);
    var k := s.activations[i] + 1;
    if LacksInput(g, i, inputs) {
      close := Failed(i, MissingInput, k, s.iteration);
      NodeFails(g, seeds, s, u, u, told, start, i, MissingInput);
      assert ByReply(g, i, inputs, Deadline(s).Some?, env.execute(s.scope, i, k, inputs, 0), close);
    } else {
      var reply := env.execute(s.scope, i, k, inputs, s.tick);
      TickAnnounced(g, s, u, start);
      if reply.denied.Some? {
        close := Failed(i, reply.denied.value, k, s.iteration);
        NodeFails(g, seeds, s, u, Tick(u), told, start, i, reply.denied.value);
      } else {
        close := AnsweredDone(g, seeds, s, u, Tick(u), told, start, i, reply);
      }
      assert ByReply(g, i, inputs, Deadline(s).Some?, reply, close);
    }
  }

  lemma NodeFails(g: Layer, seeds: Seeds, s: State, u: State, v: State, told: seq<Body>, start: Body, i: nat,
      code: Code)
    requires Flat(g) && Records(g, seeds, s, told) && Announced(g, s, u, v, start) && i < |g.nodes|
    ensures var k, it := v.activations[i], s.iteration;
      Done(g, seeds, s, Step(FailStarted(g, v, i, k, it, code), Continue), told, start, Failed(i, code, k, it))
  {
    hide Records, Done;
    var t := FailStarted(g, v, i, v.activations[i], s.iteration, code);
    FailFlags(g, v, i, v.activations[i], s.iteration, code);
    DoneFailed(g, seeds, s, u, v, Step(t, Continue), told, start, i, v.activations[i], s.iteration, code);
  }

  lemma FailFlags(g: Layer, s: State, i: nat, activation: nat, iteration: Option<nat>, code: Code)
    requires Flat(g) && Sized(g, s) && i < |g.nodes|
    ensures var t := FailStarted(g, s, i, activation, iteration, code);
      t.cancelled == s.cancelled && t.timedOut == s.timedOut && t.parentDeadline == s.parentDeadline && t.tick == s.tick
  {
    hide DeactivateAll;
  }

  lemma TickAnnounced(g: Layer, s: State, u: State, start: Body)
    requires Flat(g) && Announced(g, s, u, u, start)
    ensures Announced(g, s, u, Tick(u), start)
  {
    hide Enters;
  }

  lemma AnsweredDone(g: Layer, seeds: Seeds, s: State, u: State, v: State, told: seq<Body>, start: Body, i: nat,
      reply: Reply) returns (close: Body)
    requires Flat(g) && Records(g, seeds, s, told) && Announced(g, s, u, v, start) && i < |g.nodes| &&
      !g.nodes[i].IsGate()
    requires start.Started? && start.node == i && start.activation == v.activations[i] &&
      start.iteration == s.iteration == v.iteration
    ensures Done(g, seeds, s, Answered(g, v, i, reply), told, start, close) && Same(start, close)
    ensures if reply.cancelled then close.Cancelled?
      else if Deadline(v).Some? && reply.expired then FailsWith(close, LoopTimeout)
      else match reply.answer
        case Ok(outputs) => close.Finished? && close.outputs == outputs
        case Err(code) => FailsWith(close, code)
  {
    hide Done, Records, FailStarted, Finish;
    var k, it := v.activations[i], v.iteration;
    if reply.cancelled {
      close := Cancelled(i, k, it);
      DoneCancelled(g, seeds, s, u, v, told, start, i, k, it);
    } else if Deadline(v).Some? && reply.expired {
      close := Failed(i, LoopTimeout, k, it);
      FailFlags(g, v, i, k, it, LoopTimeout);
      DoneFailed(g, seeds, s, u, v, Answered(g, v, i, reply), told, start, i, k, it, LoopTimeout);
    } else {
      match reply.answer
      case Ok(outputs) =>
        close := Finished(i, outputs, k, it);
        DoneFinished(g, seeds, s, u, v, told, start, i, outputs, it);
      case Err(code) =>
        close := Failed(i, code, k, it);
        NodeFails(g, seeds, s, u, v, told, start, i, code);
    }
  }

  // ---------------------------------------------------------------- gates

  /** `v` is `s` with the gate's activation counted and its inputs consumed. */
  ghost predicate Ringing(g: Layer, s: State, v: State, i: nat)
    requires Flat(g)
  {
    Begun(g, s, v, i) && Sized(g, v) && Unmarked(g, s) && v.cancelled == s.cancelled && v.timedOut == s.timedOut &&
      v.parentDeadline == s.parentDeadline
  }

  lemma CountRings(g: Layer, seeds: Seeds, s: State, told: seq<Body>, i: nat)
    requires Flat(g) && Sized(g, s) && Records(g, seeds, s, told) && i < |g.nodes|
    ensures var v := Count(Consume(g, s, i), i);
      && Ringing(g, s, v, i) && v.activations[i] == s.activations[i] + 1 && v.loopState == s.loopState
      && v.iteration == s.iteration && v.tick == s.tick
  {
    hide Consume;
    RecordsUnmarked(g, seeds, s, told);
  }

  lemma RingAnnounces(g: Layer, s: State, v: State, i: nat, iteration: Option<nat>)
    requires Flat(g) && Ringing(g, s, v, i)
    ensures var b := Started(i, v.activations[i], iteration, g.nodes[i].Composite?);
      Announced(g, s, Emit(v, b), Emit(v, b), b)
  {
    hide Enters;
    StartEnters(g, s, v, i, Started(i, v.activations[i], iteration, g.nodes[i].Composite?));
  }

  lemma GateFails(g: Layer, seeds: Seeds, s: State, v: State, r: Step, told: seq<Body>, i: nat, iteration: Option<nat>,
      code: Code)
    requires Flat(g) && Records(g, seeds, s, told) && Ringing(g, s, v, i) && i < |g.nodes| && !r.flow.Cut?
    requires Alike(FailGate(g, v, i, iteration, code), r.s)
    requires r.s.cancelled == s.cancelled && r.s.timedOut == s.timedOut && r.s.parentDeadline == s.parentDeadline
    ensures Done(g, seeds, s, r, told, Started(i, v.activations[i], iteration, g.nodes[i].Composite?),
      Failed(i, code, v.activations[i], iteration))
  {
    hide Done, Records, FailStarted, Alike, Ringing;
    var b := Started(i, v.activations[i], iteration, g.nodes[i].Composite?);
    RingAnnounces(g, s, v, i, iteration);
    DoneFailed(g, seeds, s, Emit(v, b), Emit(v, b), r, told, b, i, v.activations[i], iteration, code);
  }

  lemma FailGateFlags(g: Layer, s: State, i: nat, iteration: Option<nat>, code: Code)
    requires Flat(g) && Sized(g, s) && i < |g.nodes|
    ensures var t := FailGate(g, s, i, iteration, code);
      t.cancelled == s.cancelled && t.timedOut == s.timedOut && t.parentDeadline == s.parentDeadline &&
        t.loopState == s.loopState
  {
    hide DeactivateAll;
  }

  lemma LogSkims(g: Layer, s: State, i: nat)
    requires Flat(g)
    ensures Skims(g, s, Emit(s, Log(i)))
  {
    assert Said(s, Emit(s, Log(i))) == [Log(i)] && [Log(i)][0].Log?;
  }

  lemma HandsLater(g: Layer, s: State, t: State, u: State, b: Body, es: seq<nat>)
    requires Flat(g) && Hands(g, s, t, b, es) && u.tokens == t.tokens && u.freshData == t.freshData
    ensures Hands(g, s, u, b, es)
  {
  }

  lemma HandsSooner(g: Layer, s: State, t: State, u: State, b: Body, es: seq<nat>)
    requires Flat(g) && Hands(g, t, u, b, es) && s.tokens == t.tokens && s.freshData == t.freshData
    ensures Hands(g, s, u, b, es)
  {
  }

  /** Announced, handed on and logged. */
  lemma ContinueEnters(g: Layer, u: State, i: nat, close: Body)
    requires Flat(g) && Sized(g, u) && i < |g.nodes| && g.nodes[i].IsGate() && Unmarked(g, u)
    requires close.Finished? && close.node == i
    ensures Enters(g, u, Emit(Propagate(g, Emit(u, close), i, close.outputs, Out(g, i)), Log(i)), close)
  {
    hide Enters, Skims, Hands, Propagate, Flat;
    var u2 := Emit(u, close);
    OwnEdges(g, i);
    PropagateHands(g, u2, i, close.outputs, Out(g, i), close);
    var w := Propagate(g, u2, i, close.outputs, Out(g, i));
    LogSkims(g, w, i);
    SkimsTwice(g, u2, w, Emit(w, Log(i)));
    HandsLater(g, u2, w, Emit(w, Log(i)), close, Out(g, i));
    HandsEnter(g, u, u2, Emit(w, Log(i)), i, close);
  }

  lemma ContinueDone(g: Layer, seeds: Seeds, s: State, v: State, told: seq<Body>, i: nat, k: nat, payload: Json,
      inputs: Inputs)
    requires Flat(g) && Records(g, seeds, s, told) && Ringing(g, s, v, i) && i < |g.nodes| && g.nodes[i].IsGate()
    ensures var a, outputs := v.activations[i], GateOutputs("continue", payload, inputs);
      Done(g, seeds, s, Step(EmitContinue(g, v, i, k, payload, inputs), Continue), told,
        Started(i, a, Some(k), false), Finished(i, outputs, a, Some(k)))
  {
    hide Enters, Records, Acts, Skims, Hands, Propagate, GateOutputs, Flat, Begun;
    var a, outputs := v.activations[i], GateOutputs("continue", payload, inputs);
    var start, close := Started(i, a, Some(k), false), Finished(i, outputs, a, Some(k));
    var v1 := v.(iteration := Some(k));
    RingOn(g, s, v, v1, i);
    RingAnnounces(g, s, v1, i, Some(k));
    var u := Emit(v1, start);
    ContinueEnters(g, u, i, close);
    ThenActs(g, seeds, s, u, u, EmitContinue(g, v, i, k, payload, inputs), start, close, told);
  }

  lemma RingOn(g: Layer, s: State, v: State, w: State, i: nat)
    requires Flat(g) && Ringing(g, s, v, i) && Sized(g, w)
    requires w == v.(iteration := w.iteration, loopState := w.loopState, tick := w.tick)
    ensures Ringing(g, s, w, i)
  {
  }

  lemma StopDone(g: Layer, seeds: Seeds, s: State, v: State, told: seq<Body>, i: nat, inputs: Inputs)
    requires Flat(g) && Records(g, seeds, s, told) && Ringing(g, s, v, i) && i < |g.nodes| && g.nodes[i].IsGate()
    requires "stop" in inputs
    ensures var a, it := v.activations[i], Some(if v.loopState.Some? then v.loopState.value.iteration else 0);
      var outputs := GateOutputs("exit", inputs["stop"], inputs);
      && Done(g, seeds, s, GateStop(g, v, i, inputs), told, Started(i, a, it, false), Finished(i, outputs, a, it))
      && GateStop(g, v, i, inputs).s.loopState.None?
  {
    hide Enters, Records, Acts, Skims, Hands, Propagate, GateOutputs, Flat, Begun;
    var k := if v.loopState.Some? then v.loopState.value.iteration else 0;
    var a, outputs := v.activations[i], GateOutputs("exit", inputs["stop"], inputs);
    var start, close := Started(i, a, Some(k), false), Finished(i, outputs, a, Some(k));
    RingAnnounces(g, s, v, i, Some(k));
    var u := Emit(v, start);
    var u2 := Emit(u, close);
    var u3 := Closing(g, v, i, k, outputs);
    LogSkims(g, u2, i);
    SkimsAlike(g, u2, Emit(u2, Log(i)), u3);
    OwnEdges(g, i);
    PropagateHands(g, u3, i, outputs, Out(g, i), close);
    var w := Propagate(g, u3, i, outputs, Out(g, i));
    SkimsTwice(g, u2, u3, w);
    HandsSooner(g, u2, u3, w, close, Out(g, i));
    HandsEnter(g, u, u2, w, i, close);
    ThenActs(g, seeds, s, u, u, w, start, close, told);
  }

  lemma SkimsAlike(g: Layer, s: State, t: State, u: State)
    requires Flat(g) && Skims(g, s, t) && u.trace == t.trace && u.scope == t.scope && u.settled == t.settled
    ensures Skims(g, s, u)
  {
    SkimsNothing(g, t, u);
    SkimsTwice(g, s, t, u);
  }

  /** The open loop belongs to an enabled gate with a budget. */
  ghost predicate Owned(g: Layer, s: State) {
    s.loopState.Some? ==>
      var gate := s.loopState.value.gate;
      gate < |g.nodes| && g.nodes[gate].IsGate() && g.nodes[gate].enabled && GateBudget(g.nodes[gate]).Some?
  }

  /** A gate's activation, and what it means for the loop. */
  ghost predicate GateDone(g: Layer, seeds: Seeds, s: State, r: Step, told: seq<Body>, i: nat, inputs: Inputs,
      start: Body, close: Body)
    requires Flat(g)
  {
    && Done(g, seeds, s, r, told, start, close) && start.Started? && start.node == i < |s.activations| == |g.nodes|
    && start.activation == s.activations[i] + 1 && !start.composite && GateCloses(g, inputs, start, close)
    && (r.flow.Continue? ==> (r.s.loopState.Some? <==> OpenAfter(g, close, s.loopState.Some?)))
    && (Owned(g, s) ==> Owned(g, r.s))
  }

  lemma GateFinishCloses(g: Layer, i: nat, port: string, payload: Json, inputs: Inputs, start: Body, close: Body)
    requires i < |g.nodes| && g.nodes[i].IsGate() && GateBudget(g.nodes[i]).Some? && start.Started? && start.node == i
    requires Same(start, close) && close.Finished? && close.outputs == GateOutputs(port, payload, inputs)
    requires if "stop" in inputs then port == "exit" && payload == inputs["stop"]
      else port == "continue" && if "start" in inputs then payload == inputs["start"]
      else "next" in inputs && payload == inputs["next"]
    ensures GateCloses(g, inputs, start, close)
    ensures forall before :: OpenAfter(g, close, before) <==> "stop" !in inputs
  {
    assert "value"[0] != "exit"[0] && "value"[0] != "continue"[0] && "exit"[0] != "continue"[0];
  }

  ghost predicate EndsLoop(code: Code) {
    code == LoopTimeout || code == LoopBudgetExhausted
  }

  lemma FailureCloses(g: Layer, i: nat, code: Code, inputs: Inputs, start: Body, close: Body)
    requires i < |g.nodes| && g.nodes[i].IsGate() && start.Started? && start.node == i && Same(start, close)
    requires FailsWith(close, code) && (code == LoopInvalidBudget <==> GateBudget(g.nodes[i]).None?)
    requires code == LoopMissingTrigger ==> "stop" !in inputs && "start" !in inputs && "next" !in inputs
    ensures GateCloses(g, inputs, start, close)
    ensures forall before :: OpenAfter(g, close, before) <==> before && !EndsLoop(code)
  {
  }

  /** The gate goes on with its loop, at iteration `k`. */
  lemma RoundDone(g: Layer, seeds: Seeds, s: State, w: State, told: seq<Body>, i: nat, k: nat, payload: Json,
      inputs: Inputs) returns (start: Body, close: Body)
    requires Flat(g) && Records(g, seeds, s, told) && Ringing(g, s, w, i) && i < |g.nodes| && g.nodes[i].IsGate()
    requires GateBudget(g.nodes[i]).Some? && w.loopState.Some? && (Owned(g, s) ==> Owned(g, w))
    requires "stop" !in inputs && if "start" in inputs then payload == inputs["start"]
      else "next" in inputs && payload == inputs["next"]
    ensures GateDone(g, seeds, s, Step(EmitContinue(g, w, i, k, payload, inputs), Continue), told, i, inputs, start,
      close)
  {
    assert |s.activations| == |g.nodes| && w.activations[i] == s.activations[i] + 1;
    hide Records, Done, EmitContinue, GateBudget, GateOutputs, GateCloses, OpenAfter, Begun, Flat;
    var a := w.activations[i];
    start := Started(i, a, Some(k), false);
    close := Finished(i, GateOutputs("continue", payload, inputs), a, Some(k));
    ContinueDone(g, seeds, s, w, told, i, k, payload, inputs);
    GateFinishCloses(g, i, "continue", payload, inputs, start, close);
  }

  /** A failure that lets the run go on leaves the loop as it was. */
  lemma RefusalDone(g: Layer, seeds: Seeds, s: State, v: State, told: seq<Body>, i: nat, code: Code, inputs: Inputs)
      returns (start: Body, close: Body)
    requires Flat(g) && Records(g, seeds, s, told) && Ringing(g, s, v, i) && i < |g.nodes| && g.nodes[i].IsGate()
    requires v.loopState == s.loopState && v.iteration == s.iteration
    requires code == LoopInvalidBudget <==> GateBudget(g.nodes[i]).None?
    requires !EndsLoop(code)
    requires code == LoopMissingTrigger ==> "stop" !in inputs && "start" !in inputs && "next" !in inputs
    ensures GateDone(g, seeds, s, Step(FailGate(g, v, i, s.iteration, code), Continue), told, i, inputs, start, close)
  {
    assert |s.activations| == |g.nodes| == |v.activations| && v.activations[i] == s.activations[i] + 1 && Sized(g, v);
    hide Ringing, Sized, Records, Done, FailGate, GateBudget, GateCloses, OpenAfter, Begun, Flat;
    var a := v.activations[i];
    start, close := Started(i, a, s.iteration, false), Failed(i, code, a, s.iteration);
    FailureCloses(g, i, code, inputs, start, close);
    FailGateFlags(g, v, i, s.iteration, code);
    GateFails(g, seeds, s, v, Step(FailGate(g, v, i, s.iteration, code), Continue), told, i, s.iteration, code);
  }

  /** A failure that ends the run closes the loop. */
  lemma EndDone(g: Layer, seeds: Seeds, s: State, v: State, r: Step, told: seq<Body>, i: nat, k: nat, code: Code,
      inputs: Inputs) returns (start: Body, close: Body)
    requires Flat(g) && Records(g, seeds, s, told) && Ringing(g, s, v, i) && i < |g.nodes| && g.nodes[i].IsGate()
    requires GateBudget(g.nodes[i]).Some? && EndsLoop(code) && r.flow.Break?
    requires r.s == FailGate(g, v, i, Some(k), code).(loopState := None, iteration := r.s.iteration)
    ensures GateDone(g, seeds, s, r, told, i, inputs, start, close)
  {
    assert |s.activations| == |g.nodes| == |v.activations| && v.activations[i] == s.activations[i] + 1 && Sized(g, v);
    hide Ringing, Sized, Records, Done, FailGate, GateBudget, GateCloses, OpenAfter, Begun, Flat;
    var a := v.activations[i];
    start, close := Started(i, a, Some(k), false), Failed(i, code, a, Some(k));
    FailureCloses(g, i, code, inputs, start, close);
    FailGateFlags(g, v, i, Some(k), code);
    GateFails(g, seeds, s, v, r, told, i, Some(k), code);
  }

  /** A gate activation, whatever its budget and trigger. */
  lemma GateIsDone(g: Layer, env: Env, seeds: Seeds, s: State, told: seq<Body>, i: nat, inputs: Inputs)
      returns (start: Body, close: Body)
    requires Flat(g) && Sized(g, s) && Records(g, seeds, s, told) && i < |g.nodes| && g.nodes[i].IsGate()
    requires g.nodes[i].enabled
    ensures GateDone(g, seeds, s, HandleGate(g, env, Consume(g, s, i), i, inputs), told, i, inputs, start, close)
  {
    hide Records, GateDone, Begun, FailGate, GateStop, GateStart, GateNext, GateBudget, Consume, Flat;
    var v := Count(Consume(g, s, i), i);
    CountRings(g, seeds, s, told, i);
    var budget := GateBudget(g.nodes[i]);
    if budget.None? {
      start, close := RefusalDone(g, seeds, s, v, told, i, LoopInvalidBudget, inputs);
    } else if "stop" in inputs {
      start, close := ExitDone(g, seeds, s, v, told, i, inputs);
    } else if "start" in inputs {
      start, close := StartDone(g, env, seeds, s, v, told, i, budget.value.1, inputs);
    } else if "next" in inputs {
      start, close := NextDone(g, env, seeds, s, v, told, i, budget.value.0, inputs);
    } else {
      start, close := RefusalDone(g, seeds, s, v, told, i, LoopMissingTrigger, inputs);
    }
  }

  lemma ExitDone(g: Layer, seeds: Seeds, s: State, v: State, told: seq<Body>, i: nat, inputs: Inputs)
      returns (start: Body, close: Body)
    requires Flat(g) && Records(g, seeds, s, told) && Ringing(g, s, v, i) && i < |g.nodes| && g.nodes[i].IsGate()
    requires GateBudget(g.nodes[i]).Some? && "stop" in inputs
    ensures GateDone(g, seeds, s, GateStop(g, v, i, inputs), told, i, inputs, start, close)
  {
    assert |s.activations| == |g.nodes| == |v.activations| && v.activations[i] == s.activations[i] + 1 && Sized(g, v);
    hide Ringing, Sized, Records, Done, GateStop, GateBudget, GateOutputs, GateCloses, OpenAfter, Begun, Flat;
    var it := Some(if v.loopState.Some? then v.loopState.value.iteration else 0);
    start := Started(i, v.activations[i], it, false);
    close := Finished(i, GateOutputs("exit", inputs["stop"], inputs), v.activations[i], it);
    StopDone(g, seeds, s, v, told, i, inputs);
    GateFinishCloses(g, i, "exit", inputs["stop"], inputs, start, close);
  }

  lemma StartDone(g: Layer, env: Env, seeds: Seeds, s: State, v: State, told: seq<Body>, i: nat, timeout: nat,
      inputs: Inputs) returns (start: Body, close: Body)
    requires Flat(g) && Records(g, seeds, s, told) && Ringing(g, s, v, i) && i < |g.nodes| && g.nodes[i].IsGate()
    requires v.loopState == s.loopState && v.iteration == s.iteration && GateBudget(g.nodes[i]).Some?
    requires "stop" !in inputs && "start" in inputs && g.nodes[i].enabled
    ensures GateDone(g, seeds, s, GateStart(g, env, v, i, timeout, inputs), told, i, inputs, start, close)
  {
    hide Records, GateDone, FailGate, EmitContinue, GateBudget, Begun, Flat;
    if v.loopState.Some? {
      start, close := RefusalDone(g, seeds, s, v, told, i, LoopInvalidState, inputs);
    } else {
      var w := Tick(v).(loopState := Some(LoopState(i, 1, env.now(v.tick) + timeout)));
      RingOn(g, s, v, w, i);
      start, close := RoundDone(g, seeds, s, w, told, i, 1, inputs["start"], inputs);
    }
  }

  lemma NextDone(g: Layer, env: Env, seeds: Seeds, s: State, v: State, told: seq<Body>, i: nat, limit: nat,
      inputs: Inputs) returns (start: Body, close: Body)
    requires Flat(g) && Records(g, seeds, s, told) && Ringing(g, s, v, i) && i < |g.nodes| && g.nodes[i].IsGate()
    requires v.loopState == s.loopState && v.iteration == s.iteration && GateBudget(g.nodes[i]).Some?
    requires "stop" !in inputs && "start" !in inputs && "next" in inputs
    ensures GateDone(g, seeds, s, GateNext(g, env, v, i, limit, inputs), told, i, inputs, start, close)
  {
    hide Records, GateDone, FailGate, EmitContinue, GateBudget, Begun, Flat;
    if v.loopState.None? {
      start, close := RefusalDone(g, seeds, s, v, told, i, LoopInvalidState, inputs);
    } else {
      var state, w := v.loopState.value, Tick(v);
      var r := GateNext(g, env, v, i, limit, inputs);
      RingOn(g, s, v, w, i);
      if env.now(v.tick) >= state.deadline {
        start, close := EndDone(g, seeds, s, w, r, told, i, state.iteration, LoopTimeout, inputs);
      } else if state.iteration + 1 > limit {
        start, close := EndDone(g, seeds, s, w, r, told, i, state.iteration, LoopBudgetExhausted, inputs);
      } else {
        var x := w.(loopState := Some(state.(iteration := state.iteration + 1)));
        RingOn(g, s, w, x, i);
        start, close := RoundDone(g, seeds, s, x, told, i, state.iteration + 1, inputs["next"], inputs);
      }
    }
  }

  // ---------------------------------------------------------------- what goes into a composite, and what comes out

  ghost function ValueAt(ports: seq<SubgraphOutput>, latest: map<nat, Inputs>, k: nat): Option<Json> {
    if k < |ports| && ports[k].source.node in latest then Get(latest[ports[k].source.node], ports[k].source.port)
    else None
  }

  ghost predicate GivesAt(ports: seq<SubgraphOutput>, latest: map<nat, Inputs>, name: string, k: nat) {
    k < |ports| && ports[k].port.name == name && ValueAt(ports, latest, k).Some?
  }

  ghost predicate GivesLast(ports: seq<SubgraphOutput>, latest: map<nat, Inputs>, name: string, k: nat) {
    GivesAt(ports, latest, name, k) && forall l: nat :: k < l ==> !GivesAt(ports, latest, name, l)
  }

  lemma {:induction false} OutputsLaw(ports: seq<SubgraphOutput>, latest: map<nat, Inputs>, outputs: Inputs,
      name: string)
    ensures var r := CompositeOutputs(ports, latest, outputs);
      && ((exists k: nat :: GivesAt(ports, latest, name, k)) ==> name in r)
      && ((forall k: nat :: !GivesAt(ports, latest, name, k)) ==> Get(r, name) == Get(outputs, name))
      && (forall k: nat :: GivesLast(ports, latest, name, k) ==> Get(r, name) == ValueAt(ports, latest, k))
    decreases |ports|
  {
    if ports != [] {
      var p := ports[0];
      var next := if p.source.node in latest && p.source.port in latest[p.source.node]
        then outputs[p.port.name := latest[p.source.node][p.source.port]] else outputs;
      var r := CompositeOutputs(ports, latest, outputs);
      assert r == CompositeOutputs(ports[1..], latest, next);
      OutputsLaw(ports[1..], latest, next, name);
      assert !GivesAt(ports, latest, name, 0) ==> Get(next, name) == Get(outputs, name);
      forall k: nat | GivesAt(ports[1..], latest, name, k) ensures GivesAt(ports, latest, name, k + 1) {}
      forall k: nat | k > 0 && GivesAt(ports, latest, name, k) ensures GivesAt(ports[1..], latest, name, k - 1) {}
      forall k: nat | GivesLast(ports, latest, name, k) ensures Get(r, name) == ValueAt(ports, latest, k) {
        if k > 0 {
          assert GivesLast(ports[1..], latest, name, k - 1);
        } else {
          assert forall l: nat :: !GivesAt(ports[1..], latest, name, l);
        }
      }
      if exists k: nat :: GivesAt(ports, latest, name, k) {
        var k: nat :| GivesAt(ports, latest, name, k);
        if k > 0 { assert GivesAt(ports[1..], latest, name, k - 1); } else { assert name in next; }
      }
    }
  }

  /** A composite's outputs are what their sources last finished with, going by the stream. */
  lemma OutputsAre(node: Node, s: State, told: seq<Body>)
    requires node.Composite? && Results(node.layer, s, told)
    requires forall j :: 0 <= j < |node.outputs| ==> node.outputs[j].source.node < |node.layer.nodes|
    ensures OutputsOf(node, told, CompositeOutputs(node.outputs, s.latest, map[]))
  {
    hide Latest, Runs, HasFailed, WasSkipped, Failure, OutputOf;
    forall name ensures OutputOf(node, told, CompositeOutputs(node.outputs, s.latest, map[]), name) {
      OutputIs(node, s, told, name);
    }
  }

  lemma OutputIs(node: Node, s: State, told: seq<Body>, name: string)
    requires node.Composite? && Results(node.layer, s, told)
    requires forall j :: 0 <= j < |node.outputs| ==> node.outputs[j].source.node < |node.layer.nodes|
    ensures OutputOf(node, told, CompositeOutputs(node.outputs, s.latest, map[]), name)
  {
    hide Latest, Runs, HasFailed, WasSkipped, Failure, CompositeOutputs;
    forall k: nat ensures SourceValue(node, told, k) == ValueAt(node.outputs, s.latest, k) {
      if k < |node.outputs| {
        assert Get(s.latest, node.outputs[k].source.node) == Latest(node.layer, told, node.outputs[k].source.node);
      }
    }
    forall k: nat ensures Reads(node, told, name, k) <==> GivesAt(node.outputs, s.latest, name, k) {}
    forall k: nat ensures ReadsLast(node, told, name, k) <==> GivesLast(node.outputs, s.latest, name, k) {}
    OutputsLaw(node.outputs, s.latest, map[], name);
  }

  lemma {:induction false} BindLaw(targets: seq<Binding>, value: Json, seeds: Seeds, n: nat, port: string)
    ensures Get(Bind(targets, value, seeds), (n, port)) ==
      if Binding(n, port) in targets then Some(value) else Get(seeds, (n, port))
    decreases |targets|
  {
    if targets != [] { BindLaw(targets[1..], value, seeds[(targets[0].node, targets[0].port) := value], n, port); }
  }

  ghost predicate BindsHere(ports: seq<SubgraphInput>, inputs: Inputs, n: nat, port: string, a: nat) {
    a < |ports| && ports[a].port.name in inputs && Binding(n, port) in ports[a].targets
  }

  ghost predicate BindsHereLast(ports: seq<SubgraphInput>, inputs: Inputs, n: nat, port: string, a: nat) {
    BindsHere(ports, inputs, n, port, a) && forall c: nat :: a < c ==> !BindsHere(ports, inputs, n, port, c)
  }

  lemma {:induction false} SeedsLaw(ports: seq<SubgraphInput>, inputs: Inputs, seeds: Seeds, n: nat, port: string)
    ensures var r := SeedsFor(ports, inputs, seeds);
      && ((exists a: nat :: BindsHere(ports, inputs, n, port, a)) ==> (n, port) in r)
      && ((forall a: nat :: !BindsHere(ports, inputs, n, port, a)) ==> Get(r, (n, port)) == Get(seeds, (n, port)))
      && (forall a: nat :: BindsHereLast(ports, inputs, n, port, a) ==>
            Get(r, (n, port)) == Get(inputs, ports[a].port.name))
    decreases |ports|
  {
    if ports != [] {
      var p := ports[0];
      var next := if p.port.name in inputs then Bind(p.targets, inputs[p.port.name], seeds) else seeds;
      var r := SeedsFor(ports, inputs, seeds);
      assert r == SeedsFor(ports[1..], inputs, next);
      SeedsLaw(ports[1..], inputs, next, n, port);
      if p.port.name in inputs { BindLaw(p.targets, inputs[p.port.name], seeds, n, port); }
      forall a: nat | BindsHere(ports[1..], inputs, n, port, a) ensures BindsHere(ports, inputs, n, port, a + 1) {}
      forall a: nat | a > 0 && BindsHere(ports, inputs, n, port, a)
        ensures BindsHere(ports[1..], inputs, n, port, a - 1) {}
      assert !BindsHere(ports, inputs, n, port, 0) ==> Get(next, (n, port)) == Get(seeds, (n, port));
      forall a: nat | BindsHereLast(ports, inputs, n, port, a)
        ensures Get(r, (n, port)) == Get(inputs, ports[a].port.name)
      {
        if a > 0 {
          assert BindsHereLast(ports[1..], inputs, n, port, a - 1);
        } else {
          assert forall c: nat :: !BindsHere(ports[1..], inputs, n, port, c);
        }
      }
      if exists a: nat :: BindsHere(ports, inputs, n, port, a) {
        var a: nat :| BindsHere(ports, inputs, n, port, a);
        if a > 0 { assert BindsHere(ports[1..], inputs, n, port, a - 1); } else { assert (n, port) in next; }
      }
    }
  }

  /** The nested instance is seeded with the bound inputs. */
  lemma SeedsAreBound(ports: seq<SubgraphInput>, inputs: Inputs)
    ensures BoundSeeds(ports, inputs, SeedsFor(ports, inputs, map[]))
  {
    hide BoundSeed;
    forall n: nat, port ensures BoundSeed(ports, inputs, SeedsFor(ports, inputs, map[]), n, port) {
      SeedIsBound(ports, inputs, n, port);
    }
  }

  lemma SeedIsBound(ports: seq<SubgraphInput>, inputs: Inputs, n: nat, port: string)
    ensures BoundSeed(ports, inputs, SeedsFor(ports, inputs, map[]), n, port)
  {
    hide SeedsFor;
    SeedsLaw(ports, inputs, map[], n, port);
    forall a: nat, b: nat | Binds(ports, inputs, n, port, a, b) ensures BindsHere(ports, inputs, n, port, a) {}
    forall a: nat | BindsHere(ports, inputs, n, port, a) ensures exists b: nat :: Binds(ports, inputs, n, port, a, b) {
      var b :| 0 <= b < |ports[a].targets| && ports[a].targets[b] == Binding(n, port);
      assert Binds(ports, inputs, n, port, a, b);
    }
    forall a: nat, b: nat | BindsLast(ports, inputs, n, port, a, b)
      ensures BindsHereLast(ports, inputs, n, port, a)
    {
    }
  }
}
