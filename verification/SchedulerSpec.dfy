/** The token/activation scheduler of `control_flow.rs`, one function per method, over the
    scheduler's fields as a value.  `SchedulerObject` holds the methods that update those
    fields in place and proves them equal to these functions. */
module SchedulerSpec {
  import opened Wrappers
  import opened Json
  import opened Workflow

  type Inputs = map<string, Json>

  datatype Ready = Wait | Go | Blocked

  datatype Code =
    | MissingInput | LoopTimeout | LoopInvalidState | LoopBudgetExhausted
    | LoopInvalidBudget | LoopMissingTrigger | Other(text: string)

  datatype Reason = Disabled | NoActiveInput | NoActivationPath | Upstream(node: nat)

  datatype Body =
    | Started(node: nat, activation: nat, iteration: Option<nat>, composite: bool)
    | Finished(node: nat, outputs: Inputs, activation: nat, iteration: Option<nat>)
    | Failed(node: nat, code: Code, activation: nat, iteration: Option<nat>)
    | Cancelled(node: nat, activation: nat, iteration: Option<nat>)
    | Skipped(node: nat, reason: Reason, activation: nat, iteration: Option<nat>)
    | Log(node: nat)

  /** `scope` is the path of composite nodes, outermost first. */
  datatype Event = Event(seqNo: nat, scope: seq<nat>, body: Body)

  datatype LoopState = LoopState(gate: nat, iteration: nat, deadline: nat)

  datatype State = State(
    scope: seq<nat>, parentDeadline: Option<nat>, seeds: map<(nat, string), Json>,
    tokens: map<nat, Json>, freshData: set<nat>, inactive: set<nat>,
    queue: seq<nat>, queued: set<nat>, settled: set<nat>, fired: set<nat>,
    activations: seq<nat>, latest: map<nat, Inputs>, failed: seq<nat>, skipped: seq<nat>,
    firstFailure: Option<Code>, cancelled: bool, timedOut: bool,
    loopState: Option<LoopState>, iteration: Option<nat>,
    nextSeq: nat, trace: seq<Event>, tick: nat)

  /** How an executor answers: with its output ports or with an error. */
  datatype Answer = Ok(outputs: Inputs) | Err(code: Code)

  /** One executor call.  `cancelled` and `expired` say whether cancellation or the deadline
      comes before the answer; `denied` is the capability policy's first refusal. */
  datatype Reply = Reply(denied: Option<Code>, cancelled: bool, expired: bool, answer: Answer)

  /** Everything the scheduler observes but does not decide.  Each observation is made at the
      next tick, so the functions stand for any run of the outside world. */
  datatype Env = Env(
    cancelled: nat -> bool,
    resumed: nat -> bool,
    now: nat -> nat,
    execute: (seq<nat>, nat, nat, Inputs, nat) -> Reply)

  /** `Scheduler::new`: a fresh instance on the run's event stream. */
  function Fresh(g: Layer, scope: seq<nat>, deadline: Option<nat>, seeds: map<(nat, string), Json>,
                 nextSeq: nat, trace: seq<Event>, tick: nat): State {
    State(scope, deadline, seeds, map[], {}, {}, [], {}, {}, {},
          seq(|g.nodes|, _ => 0), map[], [], [], None, false, false, None, None,
          nextSeq, trace, tick)
  }

  function Tick(s: State): State {
    s.(tick := s.tick + 1)
  }

  /** `EventEmitter::emit`. */
  function Emit(s: State, body: Body): State {
    s.(trace := s.trace + [Event(s.nextSeq, s.scope, body)], nextSeq := s.nextSeq + 1)
  }

  /** What the type system and the constructor give: every list is as long as the document. */
  predicate Sized(g: Layer, s: State) {
    && |s.activations| == |g.nodes|
    && (forall i | i in s.queue :: i < |g.nodes|)
    && (forall i | i in s.settled :: i < |g.nodes|)
    && (s.loopState.Some? ==> s.loopState.value.gate < |g.nodes|)
  }

  // ---------------------------------------------------------------- readiness

  predicate Seeded(g: Layer, s: State, e: nat)
    requires e < |g.edges|
  {
    (g.edges[e].target, g.edges[e].targetPort) in s.seeds
  }

  predicate TokenOn(g: Layer, s: State, e: nat)
    requires e < |g.edges|
  {
    e in s.tokens || Seeded(g, s, e)
  }

  predicate SeededAny(s: State, i: nat) {
    exists k | k in s.seeds :: k.0 == i
  }

  predicate SeededControl(g: Layer, s: State, i: nat)
    requires i < |g.nodes|
  {
    exists k | k in s.seeds :: k.0 == i && ControlPort(g, i, k.1)
  }

  predicate ControlPort(g: Layer, i: nat, port: string)
    requires i < |g.nodes|
  {
    var p := FindPort(g.nodes[i].Inputs(), port);
    p.Some? && p.value.control
  }

  predicate IsControl(g: Layer, e: nat)
    requires e < |g.edges|
  {
    g.edges[e].kind == Control
  }

  predicate RequiredData(g: Layer, e: nat)
    requires Flat(g) && e < |g.edges|
  {
    var p := FindPort(g.nodes[g.edges[e].target].Inputs(), g.edges[e].targetPort);
    !IsControl(g, e) && p.Some? && p.value.required
  }

  predicate HasControl(g: Layer, s: State, i: nat)
    requires Flat(g) && i < |g.nodes|
  {
    SeededControl(g, s, i) || exists e | e in g.incoming[i] :: IsControl(g, e)
  }

  predicate ControlToken(g: Layer, s: State, i: nat)
    requires Flat(g) && i < |g.nodes|
  {
    SeededControl(g, s, i) || exists e | e in g.incoming[i] :: IsControl(g, e) && TokenOn(g, s, e)
  }

  predicate AnyData(g: Layer, s: State, i: nat)
    requires Flat(g) && i < |g.nodes|
  {
    exists e | e in g.incoming[i] :: !IsControl(g, e) && TokenOn(g, s, e)
  }

  predicate AnyFresh(g: Layer, s: State, i: nat)
    requires Flat(g) && i < |g.nodes|
  {
    exists e | e in g.incoming[i] :: !IsControl(g, e) && (e in s.freshData || Seeded(g, s, e))
  }

  predicate DataPending(g: Layer, s: State, i: nat)
    requires Flat(g) && i < |g.nodes|
  {
    exists e | e in g.incoming[i] :: !IsControl(g, e) && !TokenOn(g, s, e) && e !in s.inactive
  }

  predicate RequiredInactive(g: Layer, s: State, i: nat)
    requires Flat(g) && i < |g.nodes|
  {
    exists e | e in g.incoming[i] :: RequiredData(g, e) && e in s.inactive
  }

  predicate ActivePath(g: Layer, s: State, i: nat)
    requires Flat(g) && i < |g.nodes|
  {
    exists e | e in g.incoming[i] :: e !in s.inactive
  }

  function Evaluate(g: Layer, s: State, i: nat): Ready
    requires Flat(g) && Sized(g, s) && i < |g.nodes|
  {
    var ran := s.activations[i] > 0;
    if g.incoming[i] == [] then
      if !ran && i !in s.fired then Go else Wait
    else if RequiredInactive(g, s, i) then
      if ran then Wait else Blocked
    else if HasControl(g, s, i) then
      if ControlToken(g, s, i) then Go
      else if ran || ActivePath(g, s, i) then Wait
      else Blocked
    else if !ran then
      if (AnyData(g, s, i) || SeededAny(s, i)) && !DataPending(g, s, i) then Go
      else if !ActivePath(g, s, i) then Blocked
      else Wait
    else if AnyFresh(g, s, i) && !DataPending(g, s, i) then Go
    else if !ActivePath(g, s, i) then Blocked
    else Wait
  }

  // ---------------------------------------------------------------- the skip cascade

  /** Nodes not settled yet: what bounds the cascade. */
  function Unsettled(g: Layer, s: State): set<nat> {
    set i | 0 <= i < |g.nodes| && i !in s.settled
  }

  /** What a cascade may change, and in which direction. */
  ghost predicate Cascades(g: Layer, s: State, t: State) {
    && t == s.(settled := t.settled, inactive := t.inactive, skipped := t.skipped, nextSeq := t.nextSeq,
      trace := t.trace)
    && s.settled <= t.settled
    && s.inactive <= t.inactive
    && Sized(g, t)
    && Unsettled(g, t) <= Unsettled(g, s)
  }

  predicate EdgesOf(g: Layer, es: seq<nat>) {
    forall k | 0 <= k < |es| :: es[k] < |g.edges|
  }

  function Out(g: Layer, i: nat): (es: seq<nat>)
    requires Flat(g) && i < |g.nodes|
    ensures EdgesOf(g, es)
  {
    assert forall k | 0 <= k < |g.outgoing[i]| :: g.outgoing[i][k] in g.outgoing[i];
    g.outgoing[i]
  }

  function In(g: Layer, i: nat): (es: seq<nat>)
    requires Flat(g) && i < |g.nodes|
    ensures EdgesOf(g, es)
  {
    assert forall k | 0 <= k < |g.incoming[i]| :: g.incoming[i][k] in g.incoming[i];
    g.incoming[i]
  }

  function SkipNode(g: Layer, s: State, i: nat, reason: Reason): (t: State)
    requires Flat(g) && Sized(g, s) && i < |g.nodes|
    ensures Cascades(g, s, t)
    decreases |Unsettled(g, s)|, 0, 0
  {
    if i in s.settled then s
    else
      var s1 := MarkSkipped(s, i, reason);
      assert i in Unsettled(g, s) && i !in Unsettled(g, s1);
      SubsetCardinality(Unsettled(g, s1), Unsettled(g, s));
      DeactivateAll(g, s1, Out(g, i))
  }

  function MarkSkipped(s: State, i: nat, reason: Reason): State
    requires i < |s.activations|
  {
    var s1 := Emit(s.(settled := s.settled + {i}), Skipped(i, reason, s.activations[i], s.iteration));
    s1.(skipped := if i in s.skipped then s.skipped else s.skipped + [i])
  }

  function DeactivateAll(g: Layer, s: State, es: seq<nat>): (t: State)
    requires Flat(g) && Sized(g, s) && EdgesOf(g, es)
    ensures Cascades(g, s, t)
    decreases |Unsettled(g, s)|, 2, |es|
  {
    if es == [] then s
    else
      var s1 := DeactivateEdge(g, s, es[0]);
      SubsetCardinality(Unsettled(g, s1), Unsettled(g, s));
      DeactivateAll(g, s1, es[1..])
  }

  function DeactivateEdge(g: Layer, s: State, e: nat): (t: State)
    requires Flat(g) && Sized(g, s) && e < |g.edges|
    ensures Cascades(g, s, t)
    decreases |Unsettled(g, s)|, 1, 0
  {
    if e in s.inactive then s
    else
      var s1 := s.(inactive := s.inactive + {e});
      var target := g.edges[e].target;
      if target !in s.settled && s.activations[target] == 0 && Evaluate(g, s1, target) == Blocked
      then SkipNode(g, s1, target, NoActiveInput)
      else s1
  }

  // ---------------------------------------------------------------- one activation

  function EnqueueReady(g: Layer, s: State, from: nat): (t: State)
    requires Flat(g) && Sized(g, s) && from <= |g.nodes|
    ensures Sized(g, t)
    decreases |g.nodes| - from
  {
    if from == |g.nodes| then s
    else if from in s.settled || from in s.queued then EnqueueReady(g, s, from + 1)
    else match Evaluate(g, s, from)
      case Go => EnqueueReady(g, s.(queued := s.queued + {from}, queue := s.queue + [from]), from + 1)
      case Blocked =>
        EnqueueReady(g, if s.activations[from] == 0 then SkipNode(g, s, from, NoActiveInput) else s, from + 1)
      case Wait => EnqueueReady(g, s, from + 1)
  }

  /** The value each incoming edge delivers; a later edge into the same port wins. */
  function EdgeInputs(g: Layer, s: State, es: seq<nat>, inputs: Inputs): Inputs
    requires EdgesOf(g, es)
  {
    if es == [] then inputs
    else
      var edge, key := g.edges[es[0]], (g.edges[es[0]].target, g.edges[es[0]].targetPort);
      EdgeInputs(g, s, es[1..],
        if es[0] in s.tokens then inputs[edge.targetPort := s.tokens[es[0]]]
        else if key in s.seeds then inputs[edge.targetPort := s.seeds[key]]
        else inputs)
  }

  function SeedInputs(s: State, i: nat): Inputs {
    map k | k in s.seeds && k.0 == i :: k.1 := s.seeds[k]
  }

  function ConsumedInputs(g: Layer, s: State, i: nat): Inputs
    requires Flat(g) && i < |g.nodes|
  {
    EdgeInputs(g, s, In(g, i), map[]) + SeedInputs(s, i)
  }

  predicate NamedControl(g: Layer, i: nat, port: string)
    requires i < |g.nodes|
  {
    exists p | p in g.nodes[i].Inputs() :: p.control && p.name == port
  }

  /** `consume_inputs`: control tokens, control seeds and fresh marks are used up; data stays. */
  function Consume(g: Layer, s: State, i: nat): (t: State)
    requires Flat(g) && i < |g.nodes|
    ensures t == s.(tokens := t.tokens, freshData := t.freshData, seeds := t.seeds)
  {
    s.(tokens := s.tokens - (set e | e in g.incoming[i] && IsControl(g, e)),
       freshData := s.freshData - (set e | e in g.incoming[i] && !IsControl(g, e)),
       seeds := s.seeds - (set k | k in s.seeds && k.0 == i && NamedControl(g, i, k.1)))
  }

  function Deliver(g: Layer, s: State, e: nat, value: Json): State
    requires e < |g.edges|
  {
    s.(inactive := s.inactive - {e}, tokens := s.tokens[e := value],
       freshData := if IsControl(g, e) then s.freshData else s.freshData + {e})
  }

  function Withdraw(s: State, e: nat): State {
    s.(tokens := s.tokens - {e}, freshData := s.freshData - {e})
  }

  /** What handing on outputs may change. */
  ghost predicate Routes(s: State, t: State) {
    && t == s.(settled := t.settled, inactive := t.inactive, skipped := t.skipped, nextSeq := t.nextSeq,
               trace := t.trace, tokens := t.tokens, freshData := t.freshData)
    && s.settled <= t.settled
  }

  /** `propagate_outputs` over the edges `es` of node `i`. */
  function Propagate(g: Layer, s: State, i: nat, outputs: Inputs, es: seq<nat>): (t: State)
    requires Flat(g) && Sized(g, s) && i < |g.nodes| && EdgesOf(g, es)
    ensures Sized(g, t) && Routes(s, t)
    decreases |es|
  {
    if es == [] then s
    else
      var e, port := es[0], g.edges[es[0]].sourcePort;
      Propagate(g,
        if port in outputs then Deliver(g, s, e, outputs[port])
        else if g.nodes[i].IsGate() then s
        else if !IsControl(g, e) then Withdraw(s, e)
        else DeactivateEdge(g, s, e),
        i, outputs, es[1..])
  }

  /** What closing an activation of `i` leaves alone. */
  ghost predicate Spares(s: State, t: State, i: nat) {
    && t.activations == s.activations && t.loopState == s.loopState
    && t.queue == s.queue && t.queued == s.queued && t.seeds == s.seeds && t.fired == s.fired
    && s.settled <= t.settled && forall j :: j in t.failed ==> j in s.failed || j == i
  }

  function FailStarted(g: Layer, s: State, i: nat, activation: nat, iteration: Option<nat>, code: Code): (t: State)
    requires Flat(g) && Sized(g, s) && i < |g.nodes|
    ensures Sized(g, t) && Spares(s, t, i) && i in t.settled
  {
    var s1 := Emit(s.(firstFailure := if s.firstFailure.None? then Some(code) else s.firstFailure),
                   Failed(i, code, activation, iteration));
    var s2 := s1.(settled := s1.settled + {i}, failed := if i in s1.failed then s1.failed else s1.failed + [i]);
    DeactivateAll(g, s2, Out(g, i))
  }

  function Count(s: State, i: nat): State
    requires i < |s.activations|
  {
    s.(activations := s.activations[i := s.activations[i] + 1])
  }

  function Fire(g: Layer, s: State, i: nat): State
    requires Flat(g) && i < |g.nodes|
  {
    if g.incoming[i] == [] then s.(fired := s.fired + {i}) else s
  }

  /** `deadline`: the loop's and the parent's, whichever comes first. */
  function Deadline(s: State): Option<nat> {
    match (s.loopState, s.parentDeadline)
    case (Some(inner), Some(outer)) => Some(Min(inner.deadline, outer))
    case (Some(inner), None) => Some(inner.deadline)
    case (None, outer) => outer
  }

  datatype Flow = Continue | Break | Cut

  /** A state and whether the run loop goes on.  `Cut` marks a nested run that was observed
      for its whole step budget without ending. */
  datatype Step = Step(s: State, flow: Flow)

  function Finish(g: Layer, s: State, i: nat, outputs: Inputs, iteration: Option<nat>): (t: State)
    requires Flat(g) && Sized(g, s) && i < |g.nodes|
    ensures Sized(g, t) && Spares(s, t, i) && t.failed == s.failed
  {
    var s1 := Emit(s, Finished(i, outputs, s.activations[i], iteration));
    Propagate(g, s1.(latest := s1.latest[i := outputs]), i, outputs, Out(g, i))
  }

  /** A node's next activation has begun and is announced. */
  function Begin(g: Layer, s: State, i: nat): (t: State)
    requires Flat(g) && Sized(g, s) && i < |g.nodes|
    ensures Sized(g, t) && t.activations == Count(s, i).activations
  {
    Emit(Fire(g, Count(s, i), i), Started(i, s.activations[i] + 1, s.iteration, g.nodes[i].Composite?))
  }

  predicate LacksInput(g: Layer, i: nat, inputs: Inputs)
    requires i < |g.nodes|
  {
    exists p | p in g.nodes[i].Inputs() :: p.required && !p.control && p.name !in inputs
  }

  /** The executor's answer, unless cancellation or the deadline wins the race. */
  function Answered(g: Layer, s: State, i: nat, reply: Reply): (r: Step)
    requires Flat(g) && Sized(g, s) && i < |g.nodes|
    ensures Sized(g, r.s) && r.s.activations == s.activations
  {
    if reply.cancelled then
      Step(Emit(s, Cancelled(i, s.activations[i], s.iteration)).(cancelled := true), Break)
    else if Deadline(s).Some? && reply.expired then
      Step(FailStarted(g, s, i, s.activations[i], s.iteration, LoopTimeout).(loopState := None), Break)
    else match reply.answer
      case Ok(outputs) => Step(Finish(g, s, i, outputs, s.iteration), Continue)
      case Err(code) => Step(FailStarted(g, s, i, s.activations[i], s.iteration, code), Continue)
  }

  function RunNode(g: Layer, env: Env, s: State, i: nat, inputs: Inputs): (r: Step)
    requires Flat(g) && Sized(g, s) && i < |g.nodes|
    ensures Sized(g, r.s) && r.s.activations == Count(s, i).activations
  {
    var s1 := Begin(g, s, i);
    if LacksInput(g, i, inputs) then
      Step(FailStarted(g, s1, i, s1.activations[i], s.iteration, MissingInput), Continue)
    else
      var reply, s2 := env.execute(s.scope, i, s1.activations[i], inputs, s.tick), Tick(s1);
      if reply.denied.Some? then
        Step(FailStarted(g, s2, i, s2.activations[i], s.iteration, reply.denied.value), Continue)
      else
        Answered(g, s2, i, reply)
  }

  // ---------------------------------------------------------------- the loop gate

  const U64_MAX: nat := 0xFFFF_FFFF_FFFF_FFFF

  function PositiveInteger(value: Json): Option<nat> {
    if !value.Num? then None
    else match value.n
      case PosInt(u) => if u > 0 then Some(u) else None
      case NegInt(_) => None
      case Float(f) => if f >= 1.0 && f.Floor as real == f then Some(Min(f.Floor, U64_MAX)) else None
  }

  function Param(node: Node, name: string): Option<nat> {
    if node.Task? && name in node.params then PositiveInteger(node.params[name]) else None
  }

  /** `gate_budget`: the iteration and time limits, if both are set. */
  function GateBudget(node: Node): Option<(nat, nat)> {
    var iterations, timeout := Param(node, "maxIterations"), Param(node, "timeoutMs");
    if iterations.Some? && timeout.Some? then Some((iterations.value, timeout.value)) else None
  }

  function GateOutputs(port: string, payload: Json, inputs: Inputs): Inputs {
    var outputs: Inputs := map[port := payload];
    if "value" in inputs then outputs["value" := inputs["value"]] else outputs
  }

  /** Started and Failed for one gate activation. */
  function FailGate(g: Layer, s: State, i: nat, iteration: Option<nat>, code: Code): (t: State)
    requires Flat(g) && Sized(g, s) && i < |g.nodes|
    ensures Sized(g, t) && Spares(s, t, i) && i in t.settled
  {
    FailStarted(g, Emit(s, Started(i, s.activations[i], iteration, g.nodes[i].Composite?)), i, s.activations[i],
      iteration, code)
  }

  function FailGateTimeout(g: Layer, s: State, i: nat, iteration: nat): (t: State)
    requires Flat(g) && Sized(g, s) && i < |g.nodes|
    ensures Sized(g, t) && t.activations == s.activations
  {
    FailGate(g, s, i, Some(iteration), LoopTimeout).(loopState := None, iteration := Some(iteration))
  }

  function FailLoopTimeout(g: Layer, s: State): (t: State)
    requires Flat(g) && Sized(g, s)
    ensures Sized(g, t)
  {
    if s.loopState.None? then s
    else
      var state := s.loopState.value;
      FailGateTimeout(g, Count(s, state.gate), state.gate, state.iteration)
  }

  /** One `continue`: the gate starts, finishes and opens the body for iteration `k`. */
  function EmitContinue(g: Layer, s: State, i: nat, k: nat, payload: Json, inputs: Inputs): (t: State)
    requires Flat(g) && Sized(g, s) && i < |g.nodes|
    ensures Sized(g, t) && Spares(s, t, i) && t.failed == s.failed
  {
    var s1 := Emit(s.(iteration := Some(k)), Started(i, s.activations[i], Some(k), g.nodes[i].Composite?));
    var outputs := GateOutputs("continue", payload, inputs);
    var s2 := Emit(s1, Finished(i, outputs, s.activations[i], Some(k)));
    Emit(Propagate(g, s2, i, outputs, Out(g, i)), Log(i))
  }

  function GateStart(g: Layer, env: Env, s: State, i: nat, timeout: nat, inputs: Inputs): (r: Step)
    requires Flat(g) && Sized(g, s) && i < |g.nodes| && "start" in inputs
    ensures Sized(g, r.s) && r.s.activations == s.activations
  {
    if s.loopState.Some? then
      Step(FailGate(g, s, i, s.iteration, LoopInvalidState), Continue)
    else
      var s1 := Tick(s).(loopState := Some(LoopState(i, 1, env.now(s.tick) + timeout)));
      Step(EmitContinue(g, s1, i, 1, inputs["start"], inputs), Continue)
  }

  /** The branch does not ask which gate opened the loop. */
  function GateNext(g: Layer, env: Env, s: State, i: nat, limit: nat, inputs: Inputs): (r: Step)
    requires Flat(g) && Sized(g, s) && i < |g.nodes| && "next" in inputs
    ensures Sized(g, r.s) && r.s.activations == s.activations
  {
    if s.loopState.None? then
      Step(FailGate(g, s, i, s.iteration, LoopInvalidState), Continue)
    else if env.now(s.tick) >= s.loopState.value.deadline then
      Step(FailGateTimeout(g, Tick(s), i, s.loopState.value.iteration), Break)
    else if s.loopState.value.iteration + 1 > limit then
      Step(Exhaust(g, Tick(s), i, s.loopState.value.iteration), Break)
    else
      Step(Reenter(g, Tick(s), i, s.loopState.value, inputs), Continue)
  }

  function Exhaust(g: Layer, s: State, i: nat, iteration: nat): (t: State)
    requires Flat(g) && Sized(g, s) && i < |g.nodes|
    ensures Sized(g, t) && t.activations == s.activations
  {
    FailGate(g, s, i, Some(iteration), LoopBudgetExhausted).(loopState := None)
  }

  function Reenter(g: Layer, s: State, i: nat, state: LoopState, inputs: Inputs): (t: State)
    requires Flat(g) && Sized(g, s) && i < |g.nodes| && state.gate < |g.nodes| && "next" in inputs
    ensures Sized(g, t) && t.activations == s.activations
  {
    var s1 := s.(loopState := Some(state.(iteration := state.iteration + 1)));
    EmitContinue(g, s1, i, state.iteration + 1, inputs["next"], inputs)
  }

  /** The exit is announced and the loop closed. */
  function Closing(g: Layer, s: State, i: nat, k: nat, outputs: Inputs): (t: State)
    requires Sized(g, s) && i < |g.nodes|
    ensures t == s.(loopState := None, iteration := Some(k), nextSeq := t.nextSeq, trace := t.trace)
  {
    var s1 := Emit(s, Started(i, s.activations[i], Some(k), g.nodes[i].Composite?));
    var s2 := Emit(Emit(s1, Finished(i, outputs, s.activations[i], Some(k))), Log(i));
    s2.(loopState := None, iteration := Some(k))
  }

  function GateStop(g: Layer, s: State, i: nat, inputs: Inputs): (r: Step)
    requires Flat(g) && Sized(g, s) && i < |g.nodes| && "stop" in inputs
    ensures Sized(g, r.s) && r.s.activations == s.activations
  {
    var k := if s.loopState.Some? then s.loopState.value.iteration else 0;
    var outputs := GateOutputs("exit", inputs["stop"], inputs);
    Step(Propagate(g, Closing(g, s, i, k, outputs), i, outputs, Out(g, i)), Continue)
  }

  function HandleGate(g: Layer, env: Env, s: State, i: nat, inputs: Inputs): (r: Step)
    requires Flat(g) && Sized(g, s) && i < |g.nodes|
    ensures Sized(g, r.s) && r.s.activations == Count(s, i).activations
  {
    var s1 := Count(s, i);
    var budget := GateBudget(g.nodes[i]);
    if budget.None? then Step(FailGate(g, s1, i, s.iteration, LoopInvalidBudget), Continue)
    else if "stop" in inputs then GateStop(g, s1, i, inputs)
    else if "start" in inputs then GateStart(g, env, s1, i, budget.value.1, inputs)
    else if "next" in inputs then GateNext(g, env, s1, i, budget.value.0, inputs)
    else Step(FailGate(g, s1, i, s.iteration, LoopMissingTrigger), Continue)
  }

  // ---------------------------------------------------------------- composites and the run loop

  function Bind(targets: seq<Binding>, value: Json, seeds: map<(nat, string), Json>): map<(nat, string), Json> {
    if targets == [] then seeds
    else Bind(targets[1..], value, seeds[(targets[0].node, targets[0].port) := value])
  }

  function SeedsFor(ports: seq<SubgraphInput>, inputs: Inputs, seeds: map<(nat, string), Json>)
    : map<(nat, string), Json>
  {
    if ports == [] then seeds
    else SeedsFor(ports[1..], inputs,
           if ports[0].port.name in inputs then Bind(ports[0].targets, inputs[ports[0].port.name], seeds) else seeds)
  }

  function CompositeOutputs(ports: seq<SubgraphOutput>, latest: map<nat, Inputs>, outputs: Inputs): Inputs {
    if ports == [] then outputs
    else
      var p := ports[0];
      CompositeOutputs(ports[1..], latest,
        if p.source.node in latest && p.source.port in latest[p.source.node]
        then outputs[p.port.name := latest[p.source.node][p.source.port]] else outputs)
  }

  /** The instance a composite activation runs: bound inputs become seeds. */
  function Nested(g: Layer, s: State, i: nat, inputs: Inputs): State
    requires i < |g.nodes| && g.nodes[i].Composite?
    ensures Sized(g.nodes[i].layer, Nested(g, s, i, inputs))
  {
    Fresh(g.nodes[i].layer, s.scope + [i], Deadline(s), SeedsFor(g.nodes[i].ports, inputs, map[]),
          s.nextSeq, s.trace, s.tick)
  }

  /** Back in the parent after the nested run: the shared stream and clock have moved on. */
  function Resume(s: State, inner: State): (t: State)
    ensures t.activations == s.activations
  {
    s.(nextSeq := inner.nextSeq, trace := inner.trace, tick := inner.tick)
  }

  predicate LacksPort(g: Layer, i: nat, inputs: Inputs)
    requires i < |g.nodes| && g.nodes[i].Composite?
  {
    exists p | p in g.nodes[i].ports :: p.port.required && p.port.name !in inputs
  }

  /** The composite's own outcome, read off the instance that ran. */
  function Closed(g: Layer, s: State, i: nat, inner: State, cancelled: bool): (r: Step)
    requires Flat(g) && Sized(g, s) && i < |g.nodes| && g.nodes[i].Composite?
    ensures Sized(g, r.s) && r.s.activations == s.activations
  {
    if inner.cancelled || cancelled then
      Step(Emit(s, Cancelled(i, s.activations[i], s.iteration)).(cancelled := true), Break)
    else if inner.timedOut || inner.failed != [] then
      var code := if inner.firstFailure.Some? then inner.firstFailure.value else LoopTimeout;
      Step(FailStarted(g, s, i, s.activations[i], s.iteration, code), Continue)
    else
      Step(Finish(g, s, i, CompositeOutputs(g.nodes[i].outputs, inner.latest, map[]), s.iteration), Continue)
  }

  /** The parent's side of a nested run. */
  function Return(g: Layer, env: Env, s: State, i: nat, r: Step): (t: Step)
    requires Flat(g) && Sized(g, s) && i < |g.nodes| && g.nodes[i].Composite?
    ensures Sized(g, t.s) && t.s.activations == s.activations
  {
    var s1 := Resume(s, r.s);
    if r.flow.Cut? then Step(s1, Cut) else Closed(g, Tick(s1), i, r.s, env.cancelled(s1.tick))
  }

  function RunComposite(g: Layer, env: Env, fuel: nat, s: State, i: nat, inputs: Inputs): (r: Step)
    requires ValidLayer(g) && Sized(g, s) && i < |g.nodes| && g.nodes[i].Composite?
    ensures Sized(g, r.s) && r.s.activations == Count(s, i).activations
    decreases g, 0, 0
  {
    var s1 := Begin(g, s, i);
    if LacksPort(g, i, inputs) then
      Step(FailStarted(g, s1, i, s1.activations[i], s.iteration, MissingInput), Continue)
    else
      var layer := g.nodes[i].layer;
      Return(g, env, s1, i, Run(layer, env, fuel, fuel, Prepare(layer, Nested(g, s1, i, inputs), 0)))
  }

  /** `prepare`: disabled nodes are skipped before the run starts. */
  function Prepare(g: Layer, s: State, from: nat): (t: State)
    requires Flat(g) && Sized(g, s) && from <= |g.nodes|
    ensures Sized(g, t)
    decreases |g.nodes| - from
  {
    if from == |g.nodes| then s
    else Prepare(g, if g.nodes[from].enabled then s else SkipNode(g, s, from, Disabled), from + 1)
  }

  function Activate(g: Layer, env: Env, fuel: nat, s: State, i: nat): (r: Step)
    requires ValidLayer(g) && Sized(g, s) && i < |g.nodes|
    ensures Sized(g, r.s) && r.s.activations == Count(s, i).activations
    decreases g, 1, 0
  {
    hide HandleGate, RunNode, RunComposite, ConsumedInputs, Consume, ValidLayer;
    var s1, inputs := Consume(g, s, i), ConsumedInputs(g, s, i);
    if g.nodes[i].IsGate() then HandleGate(g, env, s1, i, inputs)
    else if g.nodes[i].Composite? then RunComposite(g, env, fuel, s1, i, inputs)
    else RunNode(g, env, s1, i, inputs)
  }

  function Expired(env: Env, s: State): bool {
    Deadline(s).Some? && env.now(s.tick) >= Deadline(s).value
  }

  function Pop(s: State): (t: State)
    requires s.queue != []
    ensures s.queue[0] in s.queue && forall i :: i in t.queue ==> i in s.queue
  {
    s.(queue := s.queue[1..], queued := s.queued - {s.queue[0]})
  }

  /** The rest of one turn of the run loop, once a node is popped. */
  function Dispatch(g: Layer, env: Env, fuel: nat, s: State, i: nat): (r: Step)
    requires ValidLayer(g) && Sized(g, s) && i < |g.nodes|
    ensures Sized(g, r.s)
    decreases g, 2, 0
  {
    if i in s.settled then Step(s, Continue)
    else match Evaluate(g, s, i)
      case Blocked => Step(SkipNode(g, s, i, NoActiveInput), Continue)
      case Wait => Step(s, Continue)
      case Go => Activate(g, env, fuel, s, i)
  }

  function Turn(g: Layer, env: Env, fuel: nat, s: State): (r: Step)
    requires ValidLayer(g) && Sized(g, s)
    ensures Sized(g, r.s)
    decreases g, 3, 0
  {
    hide EnqueueReady, Dispatch, ValidLayer;
    var t := EnqueueReady(g, s, 0);
    if t.queue == [] then Step(t, Break)
    else Dispatch(g, env, fuel, Pop(t), t.queue[0])
  }

  /** One turn of the run loop, from its safe point on. */
  function Iterate(g: Layer, env: Env, fuel: nat, s: State): (r: Step)
    requires ValidLayer(g) && Sized(g, s)
    ensures Sized(g, r.s)
    decreases g, 4, 0
  {
    if env.cancelled(s.tick) then Step(Tick(s).(cancelled := true), Break)
    else
      var s1 := Tick(s);
      if !env.resumed(s1.tick) then Step(Tick(s1).(cancelled := true), Break)
      else
        var s2 := Tick(s1);
        var s3 := Tick(s2);
        if Expired(env, s2) then
          Step(if s.loopState.Some? then FailLoopTimeout(g, s3) else s3.(timedOut := true), Break)
        else Turn(g, env, fuel, s3)
  }

  function SettleUnreached(g: Layer, s: State, from: nat): (t: State)
    requires Flat(g) && Sized(g, s) && from <= |g.nodes|
    ensures Sized(g, t)
    decreases |g.nodes| - from
  {
    if from == |g.nodes| then s
    else SettleUnreached(g,
           if from in s.settled || s.activations[from] > 0 then s else SkipNode(g, s, from, NoActivationPath),
           from + 1)
  }

  /** `run`, observed for at most `n` turns of its loop; nested runs for at most `fuel`.
      `Break` means the run ended and `Cut` that it had not ended by then. */
  function Run(g: Layer, env: Env, fuel: nat, n: nat, s: State): (r: Step)
    requires ValidLayer(g) && Sized(g, s)
    ensures Sized(g, r.s) && !r.flow.Continue?
    decreases g, 5, n
  {
    if n == 0 then Step(s, Cut)
    else
      var r := Iterate(g, env, fuel, s);
      match r.flow
      case Continue => Run(g, env, fuel, n - 1, r.s)
      case Break => Step(SettleUnreached(g, r.s, 0), Break)
      case Cut => r
  }

  datatype Status = Completed | FailedRun | CancelledRun

  /** `finish`: the status the run reports. */
  function StatusOf(s: State): Status {
    if s.cancelled then CancelledRun
    else if s.failed == [] then Completed
    else FailedRun
  }

  /** `execute`: the root instance on a new event stream. */
  function Execute(g: Layer, env: Env, fuel: nat): (r: Step)
    requires ValidLayer(g)
  {
    Run(g, env, fuel, fuel, Prepare(g, Fresh(g, [], None, map[], 0, [], 0), 0))
  }

  lemma SubsetCardinality(a: set<nat>, b: set<nat>)
    requires a <= b
    ensures |a| <= |b|
    ensures a < b ==> |a| < |b|
  {
    if a != {} {
      var x :| x in a;
      SubsetCardinality(a - {x}, b - {x});
    } else if b != {} {
      assert |b| > 0;
    }
  }
}
