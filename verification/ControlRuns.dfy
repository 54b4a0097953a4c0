/** Runs of documents whose edges all carry control: what the scheduler does to such a document in
    one turn, as a small step on a snapshot of its state. */
module ControlRuns {
  import opened Wrappers
  import opened Json
  import opened Workflow
  import opened SchedulerSpec
  import opened SchedulerExit
  import opened SchedulerTrace
  import opened SchedulerGate

  /** Enabled plain nodes joined by control edges; a node other than a gate emits on "out". */
  ghost predicate ControlDocument(g: Layer)
    ensures ControlDocument(g) ==> ValidLayer(g) && Flat(g)
  {
    && ValidLayer(g)
    && (forall i :: 0 <= i < |g.nodes| ==> g.nodes[i].Task? && g.nodes[i].enabled)
    && (forall i, p {:trigger p in g.nodes[i].Inputs()} :: 0 <= i < |g.nodes| && p in g.nodes[i].Inputs() ==> p.control)
    && (forall e :: 0 <= e < |g.edges| ==> g.edges[e].kind == Control)
    && (forall e :: 0 <= e < |g.edges| ==>
          if g.nodes[g.edges[e].source].IsGate() then g.edges[e].sourcePort in {"continue", "exit"}
          else g.edges[e].sourcePort == "out")
  }

  /** Nothing is cancelled, paused or denied, and every executor answers on "out". */
  function Calm(now: nat -> nat): Env {
    Env(_ => false, _ => true, now, (_, _, _, _, _) => Reply(None, false, false, Ok(map["out" := Null])))
  }

  /** The queue, the edges that hold a token, the nodes that have run, those settled, and the loop. */
  datatype Snap = Snap(queue: seq<nat>, tokens: set<nat>, ran: set<nat>, settled: set<nat>,
                       loop: Option<LoopState>, tick: nat)

  const START := Snap([], {}, {}, {}, None, 0)

  ghost predicate Shows(g: Layer, s: State, a: Snap) {
    && Sized(g, s) && s.queue == a.queue && Distinct(s.queue) && (forall i :: i in s.queued <==> i in s.queue)
    && s.tokens.Keys == a.tokens && s.settled == a.settled && s.loopState == a.loop && s.tick == a.tick
    && (forall i :: i in a.ran <==> 0 <= i < |g.nodes| && s.activations[i] > 0) && s.fired <= a.ran
    && s.freshData == {} && s.inactive == {} && s.seeds == map[] && s.parentDeadline.None?
  }

  /** The edges into the node. */
  ghost function Leads(g: Layer, i: nat): set<nat>
    requires Flat(g) && i < |g.nodes|
  {
    set e | 0 <= e < |g.edges| && g.edges[e].target == i
  }

  /** A token waits for the node, or nothing leads to it and it has not run. */
  ghost predicate IsReady(g: Layer, a: Snap, i: nat)
    requires Flat(g) && i < |g.nodes|
  {
    if Leads(g, i) == {} then i !in a.ran else !(Leads(g, i) !! a.tokens)
  }

  lemma EvaluateIs(g: Layer, s: State, a: Snap, i: nat)
    requires ControlDocument(g) && Shows(g, s, a) && i < |g.nodes|
    ensures Evaluate(g, s, i) != Blocked && (Evaluate(g, s, i) == Go <==> IsReady(g, a, i))
  {
    if g.incoming[i] != [] {
      assert g.incoming[i][0] in g.incoming[i];
      assert IsControl(g, g.incoming[i][0]);
      assert !RequiredInactive(g, s, i) && HasControl(g, s, i) && ActivePath(g, s, i);
    }
  }

  // ---------------------------------------------------------------- filling the queue

  ghost predicate New(g: Layer, a: Snap, i: nat)
    requires Flat(g) && i < |g.nodes|
  {
    i !in a.settled && i !in a.queue && IsReady(g, a, i)
  }

  /** The nodes that became ready, in document order. */
  ghost function Arrivals(g: Layer, a: Snap, from: nat): seq<nat>
    requires Flat(g) && from <= |g.nodes|
    decreases |g.nodes| - from
  {
    if from == |g.nodes| then []
    else (if New(g, a, from) then [from] else []) + Arrivals(g, a, from + 1)
  }

  ghost function Enlisted(a: Snap, more: seq<nat>): Snap {
    a.(queue := a.queue + more)
  }

  lemma NewMeans(g: Layer, s: State, a: Snap, i: nat)
    requires ControlDocument(g) && Shows(g, s, a) && i < |g.nodes|
    ensures New(g, a, i) <==> i !in s.settled && i !in s.queued && Evaluate(g, s, i) == Go
    ensures Evaluate(g, s, i) != Blocked
  {
    hide Evaluate;
    EvaluateIs(g, s, a, i);
  }

  lemma OneQueued(g: Layer, s: State, a: Snap, i: nat)
    requires Flat(g) && Sized(g, s) && Shows(g, s, a) && i < |g.nodes| && New(g, a, i)
    ensures Sized(g, Queued(s, i)) && Shows(g, Queued(s, i), Enlisted(a, [i]))
  {
  }

  lemma OthersStayNew(g: Layer, a: Snap, i: nat)
    requires Flat(g)
    ensures forall j :: 0 <= j < |g.nodes| && j != i ==> (New(g, a, j) <==> New(g, Enlisted(a, [i]), j))
  {
  }

  ghost function Queued(s: State, i: nat): State {
    s.(queued := s.queued + {i}, queue := s.queue + [i])
  }

  lemma NothingToQueue(g: Layer, s: State)
    requires Flat(g) && Sized(g, s)
    ensures EnqueueReady(g, s, |g.nodes|) == s
  {
  }

  lemma EnqueueStep(g: Layer, s: State, a: Snap, from: nat)
    requires ControlDocument(g) && Sized(g, s) && Shows(g, s, a) && from < |g.nodes|
    ensures EnqueueReady(g, s, from) == EnqueueReady(g, if New(g, a, from) then Queued(s, from) else s, from + 1)
  {
    hide Evaluate, SkipNode, Shows, New, Flat, ControlDocument;
    NewMeans(g, s, a, from);
  }

  /** The node first, and then those that `EnqueueReady` finds behind it. */
  lemma FirstEnlisted(g: Layer, a: Snap, from: nat)
    requires Flat(g) && from < |g.nodes|
    ensures var b := if New(g, a, from) then Enlisted(a, [from]) else a;
      Enlisted(a, Arrivals(g, a, from)) == Enlisted(b, Arrivals(g, b, from + 1))
  {
    hide IsReady;
    var rest := Arrivals(g, a, from + 1);
    if New(g, a, from) {
      SameArrivals(g, a, Enlisted(a, [from]), from + 1) by { OthersStayNew(g, a, from); }
      assert a.queue + ([from] + rest) == a.queue + [from] + rest;
    } else {
      assert [] + rest == rest;
    }
  }

  lemma {:induction false} EnqueueShows(g: Layer, s: State, a: Snap, from: nat)
    requires ControlDocument(g) && Sized(g, s) && Shows(g, s, a) && from <= |g.nodes|
    ensures Shows(g, EnqueueReady(g, s, from), Enlisted(a, Arrivals(g, a, from)))
    decreases |g.nodes| - from
  {
    hide EnqueueReady, Evaluate, Shows, New, ControlDocument, Queued, Sized, Flat;
    if from == |g.nodes| {
      NothingToQueue(g, s);
      assert a.queue + [] == a.queue;
    } else {
      hide Arrivals, Enlisted;
      EnqueueStep(g, s, a, from);
      FirstEnlisted(g, a, from);
      if New(g, a, from) {
        OneQueued(g, s, a, from);
        EnqueueShows(g, Queued(s, from), Enlisted(a, [from]), from + 1);
      } else {
        EnqueueShows(g, s, a, from + 1);
      }
    }
  }

  lemma {:induction false} SameArrivals(g: Layer, a: Snap, b: Snap, from: nat)
    requires Flat(g) && from <= |g.nodes|
    requires forall i :: from <= i < |g.nodes| ==> (New(g, a, i) <==> New(g, b, i))
    ensures Arrivals(g, a, from) == Arrivals(g, b, from)
    decreases |g.nodes| - from
  {
    if from < |g.nodes| { SameArrivals(g, a, b, from + 1); }
  }

  ghost predicate Rises(ns: seq<nat>) {
    forall j, k :: 0 <= j < k < |ns| ==> ns[j] < ns[k]
  }

  /** An ascending list of the new nodes from `from` on is the list. */
  lemma {:induction false} ArrivalsAre(g: Layer, a: Snap, from: nat, ns: seq<nat>)
    requires Flat(g) && from <= |g.nodes| && Rises(ns)
    requires forall i :: i in ns ==> from <= i < |g.nodes|
    requires forall i :: from <= i < |g.nodes| ==> (New(g, a, i) <==> i in ns)
    ensures Arrivals(g, a, from) == ns
    decreases |g.nodes| - from
  {
    hide New;
    assert ns == [] || ns[0] in ns;
    if from < |g.nodes| && from in ns {
      FirstArrival(ns, from);
      ArrivalsAre(g, a, from + 1, ns[1..]);
    } else if from < |g.nodes| {
      ArrivalsAre(g, a, from + 1, ns);
      assert [] + ns == ns;
    }
  }

  lemma FirstArrival(ns: seq<nat>, from: nat)
    requires Rises(ns) && from in ns && forall i :: i in ns ==> from <= i
    ensures ns == [from] + ns[1..] && Rises(ns[1..]) && from !in ns[1..]
    ensures forall i :: i in ns <==> i == from || i in ns[1..]
  {
    var k :| 0 <= k < |ns| && ns[k] == from;
    assert ns[0] in ns;
    assert k == 0;
  }

  // ---------------------------------------------------------------- one activation

  /** The input ports of the node that hold a token. */
  ghost function Ports(g: Layer, a: Snap, i: nat): set<string>
    requires Flat(g) && i < |g.nodes|
  {
    set e | e in Leads(g, i) && e in a.tokens :: g.edges[e].targetPort
  }

  ghost function Laid(g: Layer, i: nat, port: string): set<nat>
    requires Flat(g) && i < |g.nodes|
  {
    set e | 0 <= e < |g.edges| && g.edges[e].source == i && g.edges[e].sourcePort == port
  }

  ghost function Consumed(g: Layer, a: Snap, i: nat): Snap
    requires Flat(g) && i < |g.nodes|
  {
    a.(tokens := a.tokens - Leads(g, i), ran := a.ran + {i})
  }

  /** What activating the node does to the snapshot. */
  ghost function Stepped(g: Layer, now: nat -> nat, a: Snap, i: nat): Snap
    requires Flat(g) && i < |g.nodes|
  {
    var c, ports, budget := Consumed(g, a, i), Ports(g, a, i), GateBudget(g.nodes[i]);
    if !g.nodes[i].IsGate() then c.(tokens := c.tokens + Laid(g, i, "out"), tick := c.tick + 1)
    else if "stop" in ports then c.(tokens := c.tokens + Laid(g, i, "exit"), loop := None)
    else if "start" in ports && a.loop.None? then
      var deadline := now(a.tick) + if budget.Some? then budget.value.1 else 0;
      c.(tokens := c.tokens + Laid(g, i, "continue"), loop := Some(LoopState(i, 1, deadline)), tick := c.tick + 1)
    else if "start" in ports then c.(settled := c.settled + {i})
    else if a.loop.Some? then
      c.(tokens := c.tokens + Laid(g, i, "continue"), tick := c.tick + 1,
         loop := Some(a.loop.value.(iteration := a.loop.value.iteration + 1)))
    else c
  }

  ghost predicate Ends(g: Layer, i: nat) {
    forall e :: 0 <= e < |g.edges| ==> g.edges[e].source != i
  }

  /** The activations that `Stepped` speaks of: a gate with a budget stops, starts or goes round; a
      start on an open loop only where nothing follows the gate. */
  ghost predicate Steps(g: Layer, now: nat -> nat, a: Snap, i: nat)
    requires Flat(g) && i < |g.nodes|
  {
    g.nodes[i].IsGate() ==>
      var ports, budget := Ports(g, a, i), GateBudget(g.nodes[i]);
      && budget.Some?
      && ("stop" in ports || ("start" in ports && (a.loop.None? || Ends(g, i)))
          || ("start" !in ports && "next" in ports && a.loop.Some? && now(a.tick) < a.loop.value.deadline
              && a.loop.value.iteration + 1 <= budget.value.0))
  }

  lemma {:induction false} EdgeInputsAre(g: Layer, s: State, es: seq<nat>, inputs: Inputs)
    requires EdgesOf(g, es) && s.seeds == map[]
    ensures EdgeInputs(g, s, es, inputs).Keys ==
      inputs.Keys + (set e | e in es && e in s.tokens :: g.edges[e].targetPort)
    decreases |es|
  {
    if es != [] {
      var next := if es[0] in s.tokens then inputs[g.edges[es[0]].targetPort := s.tokens[es[0]]] else inputs;
      EdgeInputsAre(g, s, es[1..], next);
      assert forall e :: e in es <==> e == es[0] || e in es[1..];
    }
  }

  lemma LeadsAre(g: Layer, i: nat)
    requires Flat(g) && i < |g.nodes|
    ensures forall e :: e in Leads(g, i) <==> e in g.incoming[i]
  {
  }

  lemma ConsumeShows(g: Layer, s: State, a: Snap, i: nat)
    requires ControlDocument(g) && Shows(g, s, a) && i < |g.nodes|
    ensures Sized(g, Consume(g, s, i)) && Shows(g, Count(Consume(g, s, i), i), Consumed(g, a, i))
    ensures ConsumedInputs(g, s, i).Keys == Ports(g, a, i)
  {
    hide Consume, ConsumedInputs, Leads, ControlDocument, Ports;
    UsesUp(g, s, a, i);
    TakesIn(g, s, a, i);
  }

  lemma UsesUp(g: Layer, s: State, a: Snap, i: nat)
    requires ControlDocument(g) && Shows(g, s, a) && i < |g.nodes|
    ensures var c := Consume(g, s, i);
      c == s.(tokens := c.tokens) && c.tokens.Keys == a.tokens - Leads(g, i)
  {
    hide Leads, ValidLayer;
    LeadsAre(g, i);
    assert forall e :: e in g.incoming[i] ==> IsControl(g, e);
    var c := Consume(g, s, i);
    assert c.seeds == map[] && c.freshData == {};
  }

  lemma TakesIn(g: Layer, s: State, a: Snap, i: nat)
    requires ControlDocument(g) && Shows(g, s, a) && i < |g.nodes|
    ensures ConsumedInputs(g, s, i).Keys == Ports(g, a, i)
  {
    hide Leads, ControlDocument, ValidLayer, EdgeInputs;
    LeadsAre(g, i);
    EdgeInputsAre(g, s, In(g, i), map[]);
    assert SeedInputs(s, i) == map[];
  }

  /** Outputs on `port` lay tokens there and change nothing else. */
  lemma {:induction false} PropagateLays(g: Layer, s: State, i: nat, outputs: Inputs, es: seq<nat>)
    requires ControlDocument(g) && Sized(g, s) && i < |g.nodes| && EdgesOf(g, es) && s.inactive == {}
    requires forall k :: 0 <= k < |es| ==> g.nodes[i].IsGate() || g.edges[es[k]].sourcePort in outputs
    ensures var t := Propagate(g, s, i, outputs, es);
      && t == s.(tokens := t.tokens)
      && t.tokens.Keys == s.tokens.Keys + (set e | e in es && g.edges[e].sourcePort in outputs)
    decreases |es|
  {
    hide ValidLayer;
    if es != [] {
      var e := es[0];
      assert IsControl(g, e) && s.inactive - {e} == {};
      var s1 := if g.edges[e].sourcePort in outputs then Deliver(g, s, e, outputs[g.edges[e].sourcePort]) else s;
      PropagateLays(g, s1, i, outputs, es[1..]);
      assert forall d :: d in es <==> d == e || d in es[1..];
    }
  }

  /** Outputs that reach the edges on `port` alone lay a token on each of those. */
  lemma OutputsShow(g: Layer, s: State, a: Snap, i: nat, outputs: Inputs, port: string)
    requires ControlDocument(g) && Sized(g, s) && Shows(g, s, a) && i < |g.nodes|
    requires forall e :: e in g.outgoing[i] ==> (g.edges[e].sourcePort in outputs <==> g.edges[e].sourcePort == port)
    requires g.nodes[i].IsGate() || port == "out"
    ensures var t := Propagate(g, s, i, outputs, Out(g, i));
      Shows(g, t, a.(tokens := a.tokens + Laid(g, i, port))) && t == s.(tokens := t.tokens)
  {
    hide Propagate;
    PropagateLays(g, s, i, outputs, Out(g, i));
    assert (set e | e in Out(g, i) && g.edges[e].sourcePort in outputs) == Laid(g, i, port);
  }

  /** The rest of the state does not show. */
  lemma Unseen(g: Layer, s: State, a: Snap, t: State)
    requires Flat(g) && Sized(g, s) && Shows(g, s, a)
    requires t == s.(latest := t.latest, failed := t.failed, firstFailure := t.firstFailure,
                     iteration := t.iteration, nextSeq := t.nextSeq, trace := t.trace, tick := t.tick,
                     loopState := t.loopState, fired := t.fired)
    requires t.fired <= a.ran && Sized(g, t)
    ensures Shows(g, t, a.(tick := t.tick, loop := t.loopState))
  {
  }

  lemma LacksNothing(g: Layer, i: nat, inputs: Inputs)
    requires ControlDocument(g) && i < |g.nodes|
    ensures g.nodes[i].Task? && !LacksInput(g, i, inputs)
  {
  }

  lemma EmitsOnOut(g: Layer, i: nat)
    requires ControlDocument(g) && i < |g.nodes| && !g.nodes[i].IsGate()
    ensures forall e :: e in g.outgoing[i] ==> g.edges[e].sourcePort == "out"
  {
  }

  lemma NodeShows(g: Layer, now: nat -> nat, c: State, b: Snap, i: nat, inputs: Inputs)
    requires ControlDocument(g) && Sized(g, c) && i < |g.nodes| && !g.nodes[i].IsGate() && Shows(g, Count(c, i), b)
    ensures var r := RunNode(g, Calm(now), c, i, inputs);
      r.flow.Continue? && Shows(g, r.s, b.(tokens := b.tokens + Laid(g, i, "out"), tick := b.tick + 1))
  {
    hide Finish, Shows, Flat, Laid, ControlDocument, ValidLayer, FailStarted, LacksInput;
    LacksNothing(g, i, inputs);
    ShownFields(g, Count(c, i), b);
    var s1 := Tick(Begin(g, c, i));
    BegunShows(g, c, b, i, s1);
    FinishShows(g, s1, b.(tick := b.tick + 1), i, map["out" := Null], c.iteration);
  }

  lemma FinishShows(g: Layer, s: State, a: Snap, i: nat, outputs: Inputs, iteration: Option<nat>)
    requires ControlDocument(g) && Sized(g, s) && Shows(g, s, a) && i < |g.nodes| && !g.nodes[i].IsGate()
    requires outputs.Keys == {"out"}
    ensures Shows(g, Finish(g, s, i, outputs, iteration), a.(tokens := a.tokens + Laid(g, i, "out")))
  {
    hide Propagate, Shows, Flat, Laid, ControlDocument;
    ShownFields(g, s, a);
    var t := Emit(s, Finished(i, outputs, s.activations[i], iteration)).(latest := s.latest[i := outputs]);
    Unseen(g, s, a, t);
    EmitsOnOut(g, i);
    OutputsShow(g, t, a, i, outputs, "out");
  }

  lemma PlainRuns(g: Layer, now: nat -> nat, fuel: nat, s: State, a: Snap, i: nat)
    requires ControlDocument(g) && Shows(g, s, a) && i < |g.nodes| && !g.nodes[i].IsGate()
    ensures var r := Activate(g, Calm(now), fuel, s, i); r.flow.Continue? && Shows(g, r.s, Stepped(g, now, a, i))
  {
    hide RunNode, RunComposite, HandleGate, Consume, ConsumedInputs, Shows, Flat, Laid, Ports, ControlDocument,
      ValidLayer;
    LacksNothing(g, i, map[]);
    ConsumeShows(g, s, a, i);
    NodeShows(g, now, Consume(g, s, i), Consumed(g, a, i), i, ConsumedInputs(g, s, i));
  }

  lemma BegunShows(g: Layer, c: State, b: Snap, i: nat, t: State)
    requires ControlDocument(g) && Sized(g, c) && i < |g.nodes| && Shows(g, Count(c, i), b)
    requires t == Fire(g, Count(c, i), i).(latest := t.latest, nextSeq := t.nextSeq, trace := t.trace, tick := t.tick)
    ensures Sized(g, t) && Shows(g, t, b.(tick := t.tick))
  {
    assert i in b.ran;
    Unseen(g, Count(c, i), b, t);
  }

  lemma GateOutputsReach(g: Layer, i: nat, port: string, payload: Json, inputs: Inputs)
    requires ControlDocument(g) && i < |g.nodes| && g.nodes[i].IsGate() && port in {"continue", "exit"}
    ensures forall e :: e in g.outgoing[i] ==>
      (g.edges[e].sourcePort in GateOutputs(port, payload, inputs) <==> g.edges[e].sourcePort == port)
  {
    assert "value"[0] != "continue"[0] && "value"[0] != "exit"[0];
  }

  lemma ContinueShows(g: Layer, s: State, a: Snap, i: nat, k: nat, payload: Json, inputs: Inputs)
    requires ControlDocument(g) && Sized(g, s) && Shows(g, s, a) && i < |g.nodes| && g.nodes[i].IsGate()
    ensures Shows(g, EmitContinue(g, s, i, k, payload, inputs), a.(tokens := a.tokens + Laid(g, i, "continue")))
  {
    hide Propagate, Shows, Flat, GateOutputs;
    var outputs := GateOutputs("continue", payload, inputs);
    GateOutputsReach(g, i, "continue", payload, inputs);
    var s1 := Emit(s.(iteration := Some(k)), Started(i, s.activations[i], Some(k), g.nodes[i].Composite?));
    var s2 := Emit(s1, Finished(i, outputs, s.activations[i], Some(k)));
    ShownFields(g, s, a);
    Unseen(g, s, a, s2);
    OutputsShow(g, s2, a, i, outputs, "continue");
    var s3 := Propagate(g, s2, i, outputs, Out(g, i));
    var b := a.(tokens := a.tokens + Laid(g, i, "continue"));
    ShownFields(g, s3, b);
    Unseen(g, s3, b, Emit(s3, Log(i)));
  }

  lemma ShownFields(g: Layer, s: State, a: Snap)
    requires Flat(g) && Shows(g, s, a)
    ensures s.tick == a.tick && s.loopState == a.loop && s.fired <= a.ran && s.settled == a.settled
    ensures s.inactive == {} && s.seeds == map[] && s.parentDeadline.None?
  {
  }

  lemma StopShows(g: Layer, s: State, a: Snap, i: nat, inputs: Inputs)
    requires ControlDocument(g) && Sized(g, s) && Shows(g, s, a) && i < |g.nodes| && g.nodes[i].IsGate()
    requires "stop" in inputs
    ensures var r := GateStop(g, s, i, inputs);
      r.flow.Continue? && Shows(g, r.s, a.(tokens := a.tokens + Laid(g, i, "exit"), loop := None))
  {
    hide Propagate, Shows, Flat, GateOutputs, Closing;
    var k := if s.loopState.Some? then s.loopState.value.iteration else 0;
    var outputs := GateOutputs("exit", inputs["stop"], inputs);
    GateOutputsReach(g, i, "exit", inputs["stop"], inputs);
    ShownFields(g, s, a);
    Unseen(g, s, a, Closing(g, s, i, k, outputs));
    OutputsShow(g, Closing(g, s, i, k, outputs), a.(loop := None), i, outputs, "exit");
  }

  lemma StartShows(g: Layer, now: nat -> nat, s: State, a: Snap, i: nat, timeout: nat, inputs: Inputs)
    requires ControlDocument(g) && Sized(g, s) && Shows(g, s, a) && i < |g.nodes| && g.nodes[i].IsGate()
    requires "start" in inputs && a.loop.None?
    ensures var r := GateStart(g, Calm(now), s, i, timeout, inputs);
      r.flow.Continue? && Shows(g, r.s, a.(tokens := a.tokens + Laid(g, i, "continue"), tick := a.tick + 1,
                                           loop := Some(LoopState(i, 1, now(a.tick) + timeout))))
  {
    hide EmitContinue, Shows, Flat;
    ShownFields(g, s, a);
    var s1 := Tick(s).(loopState := Some(LoopState(i, 1, now(s.tick) + timeout)));
    Unseen(g, s, a, s1);
    ContinueShows(g, s1, a.(tick := s1.tick, loop := s1.loopState), i, 1, inputs["start"], inputs);
  }

  lemma StartFailShows(g: Layer, now: nat -> nat, s: State, a: Snap, i: nat, timeout: nat, inputs: Inputs)
    requires ControlDocument(g) && Sized(g, s) && Shows(g, s, a) && i < |g.nodes| && g.nodes[i].IsGate()
    requires "start" in inputs && a.loop.Some? && Ends(g, i)
    ensures var r := GateStart(g, Calm(now), s, i, timeout, inputs);
      r.flow.Continue? && Shows(g, r.s, a.(settled := a.settled + {i}))
  {
    hide EmitContinue, Flat, DeactivateEdge;
    NothingFollows(g, i);
  }

  lemma NothingFollows(g: Layer, i: nat)
    requires Flat(g) && i < |g.nodes| && Ends(g, i)
    ensures Out(g, i) == []
  {
    if g.outgoing[i] != [] { assert g.outgoing[i][0] in g.outgoing[i]; }
  }

  lemma NextShows(g: Layer, now: nat -> nat, s: State, a: Snap, i: nat, limit: nat, inputs: Inputs)
    requires ControlDocument(g) && Sized(g, s) && Shows(g, s, a) && i < |g.nodes| && g.nodes[i].IsGate()
    requires "next" in inputs && a.loop.Some?
    requires now(a.tick) < a.loop.value.deadline && a.loop.value.iteration + 1 <= limit
    ensures var r := GateNext(g, Calm(now), s, i, limit, inputs);
      r.flow.Continue? && Shows(g, r.s, a.(tokens := a.tokens + Laid(g, i, "continue"), tick := a.tick + 1,
                                           loop := Some(a.loop.value.(iteration := a.loop.value.iteration + 1))))
  {
    hide EmitContinue, Shows, Flat, FailGate, FailGateTimeout, Exhaust;
    ShownFields(g, s, a);
    var k := a.loop.value.iteration + 1;
    var s1 := Tick(s).(loopState := Some(a.loop.value.(iteration := k)));
    Unseen(g, s, a, s1);
    ContinueShows(g, s1, a.(tick := s1.tick, loop := s1.loopState), i, k, inputs["next"], inputs);
  }

  lemma GateActs(g: Layer, now: nat -> nat, fuel: nat, s: State, a: Snap, i: nat)
    requires ControlDocument(g) && Shows(g, s, a) && i < |g.nodes| && g.nodes[i].IsGate() && Steps(g, now, a, i)
    ensures var r := Activate(g, Calm(now), fuel, s, i); r.flow.Continue? && Shows(g, r.s, Stepped(g, now, a, i))
  {
    hide Consume, ConsumedInputs, Shows, Flat, GateStop, GateStart, GateNext, FailGate, ControlDocument, GateBudget,
      ValidLayer, Laid, Ports;
    ConsumeShows(g, s, a, i);
    var c, inputs, b := Consume(g, s, i), ConsumedInputs(g, s, i), Consumed(g, a, i);
    var s1, budget := Count(c, i), GateBudget(g.nodes[i]).value;
    if "stop" in inputs {
      StopShows(g, s1, b, i, inputs);
    } else if "start" in inputs && a.loop.None? {
      StartShows(g, now, s1, b, i, budget.1, inputs);
    } else if "start" in inputs {
      StartFailShows(g, now, s1, b, i, budget.1, inputs);
    } else {
      NextShows(g, now, s1, b, i, budget.0, inputs);
    }
  }

  // ---------------------------------------------------------------- turns

  /** One turn of the run loop in time, with a ready node at the head of the queue. */
  ghost predicate Turns(g: Layer, now: nat -> nat, a: Snap, b: Snap)
    requires Flat(g)
  {
    var q := a.queue + Arrivals(g, a, 0);
    && (a.loop.Some? ==> now(a.tick + 2) < a.loop.value.deadline)
    && q != [] && q[0] < |g.nodes| && q[0] !in a.settled
    && var c := a.(queue := q[1..], tick := a.tick + 3);
       IsReady(g, c, q[0]) && Steps(g, now, c, q[0]) && b == Stepped(g, now, c, q[0])
  }

  lemma TickShows(g: Layer, s: State, a: Snap, t: State)
    requires Shows(g, s, a) && t == s.(tick := t.tick)
    ensures Shows(g, t, a.(tick := t.tick))
  {
  }

  lemma PopShows(g: Layer, s: State, a: Snap)
    requires Shows(g, s, a) && s.queue != []
    ensures Shows(g, Pop(s), a.(queue := a.queue[1..]))
  {
    assert forall i :: i in s.queue <==> i == s.queue[0] || i in s.queue[1..];
  }

  lemma DispatchShows(g: Layer, now: nat -> nat, fuel: nat, s: State, a: Snap, i: nat)
    requires ControlDocument(g) && Shows(g, s, a) && i < |g.nodes| && i !in a.settled
    requires IsReady(g, a, i) && Steps(g, now, a, i)
    ensures var r := Dispatch(g, Calm(now), fuel, s, i); r.flow.Continue? && Shows(g, r.s, Stepped(g, now, a, i))
  {
    hide Activate, Evaluate, ValidLayer, Flat, Stepped, Steps, ControlDocument, IsReady;
    EvaluateIs(g, s, a, i);
    if g.nodes[i].IsGate() { GateActs(g, now, fuel, s, a, i); } else { PlainRuns(g, now, fuel, s, a, i); }
  }

  /** The queue that the turn pops from. */
  lemma FillShows(g: Layer, s: State, a: Snap, t: State)
    requires ControlDocument(g) && Sized(g, s) && Shows(g, s, a) && t == s.(tick := t.tick)
    ensures var u, c := EnqueueReady(g, t, 0), a.(queue := a.queue + Arrivals(g, a, 0), tick := t.tick);
      Shows(g, u, c) && u.queue == c.queue && (c.queue != [] ==> Shows(g, Pop(u), c.(queue := c.queue[1..])))
  {
    hide EnqueueReady, Shows, Pop, Arrivals, ControlDocument;
    var b := a.(tick := t.tick);
    TickShows(g, s, a, t);
    RetickedArrivals(g, a, b);
    EnqueueShows(g, t, b, 0);
    var u, c := EnqueueReady(g, t, 0), Enlisted(b, Arrivals(g, a, 0));
    ShownQueue(g, u, c);
    if c.queue != [] { PopShows(g, u, c); }
  }

  lemma TurnShows(g: Layer, now: nat -> nat, fuel: nat, s: State, a: Snap, b: Snap)
    requires ControlDocument(g) && Sized(g, s) && Shows(g, s, a) && Turns(g, now, a, b)
    ensures var r := Iterate(g, Calm(now), fuel, s); r.flow.Continue? && Shows(g, r.s, b)
  {
    hide EnqueueReady, Dispatch, Shows, Pop, Stepped, Steps, IsReady, Arrivals, ControlDocument, ValidLayer, Flat;
    var s3 := s.(tick := s.tick + 3);
    ShownFields(g, s, a);
    FillShows(g, s, a, s3);
    var u, q := EnqueueReady(g, s3, 0), a.queue + Arrivals(g, a, 0);
    DispatchShows(g, now, fuel, Pop(u), a.(queue := q[1..], tick := s3.tick), q[0]);
  }

  lemma RetickedArrivals(g: Layer, a: Snap, b: Snap)
    requires Flat(g) && b == a.(tick := b.tick)
    ensures Arrivals(g, a, 0) == Arrivals(g, b, 0)
  {
    SameArrivals(g, a, b, 0);
  }

  lemma ShownQueue(g: Layer, s: State, a: Snap)
    requires Shows(g, s, a)
    ensures s.queue == a.queue
  {
  }

  /** Before the first turn. */
  lemma BeginsShown(g: Layer, s: State)
    requires ControlDocument(g) && s == Fresh(g, [], None, map[], 0, [], 0)
    ensures Sized(g, s) && Prepare(g, s, 0) == s && Shows(g, s, START) && Orderly(g, s)
  {
    hide SkipNode;
    PreparesNothing(g, s, 0);
  }

  lemma {:induction false} PreparesNothing(g: Layer, s: State, from: nat)
    requires Flat(g) && Sized(g, s) && from <= |g.nodes| && forall i :: from <= i < |g.nodes| ==> g.nodes[i].enabled
    ensures Prepare(g, s, from) == s
    decreases |g.nodes| - from
  {
    if from < |g.nodes| { PreparesNothing(g, s, from + 1); }
  }

  /** What holds of the instance between turns, besides what the snapshot shows. */
  ghost predicate Orderly(g: Layer, s: State) {
    && Flat(g) && Good(g, s, {}) && Quiet(s, [])
    && forall gate {:trigger OneGate(g, gate)} :: OneGate(g, gate) ==> Agrees(g, s, gate)
  }

  lemma TurnKeepsOrder(g: Layer, env: Env, fuel: nat, s: State)
    requires ValidLayer(g) && Orderly(g, s) && Iterate(g, env, fuel, s).flow.Continue?
    ensures Orderly(g, Iterate(g, env, fuel, s).s)
  {
    hide Iterate, Books, Live, Quiet, Agrees, ValidLayer;
    IterateGood(g, env, fuel, s);
    IterateTraced(g, env, fuel, s, []);
    forall gate | OneGate(g, gate) ensures Agrees(g, Iterate(g, env, fuel, s).s, gate) {
      IterateKeeps(g, env, fuel, s, [], gate);
    }
  }

  /** A chain of turns takes the run to a state that the last snapshot shows. */
  lemma {:induction false} ChainRuns(g: Layer, now: nat -> nat, fuel: nat, s: State, chain: seq<Snap>, n: nat)
    returns (t: State)
    requires ControlDocument(g) && Orderly(g, s) && |chain| > 0 && Shows(g, s, chain[0]) && n + 1 >= |chain|
    requires forall k :: 0 < k < |chain| ==> Turns(g, now, chain[k - 1], chain[k])
    ensures Orderly(g, t) && Shows(g, t, chain[|chain| - 1])
    ensures Run(g, Calm(now), fuel, n, s) == Run(g, Calm(now), fuel, n + 1 - |chain|, t)
    decreases |chain|
  {
    hide Iterate, Turns, Orderly, Shows, ControlDocument, ValidLayer;
    t := s;
    if |chain| > 1 {
      assert Turns(g, now, chain[0], chain[1]);
      OrderlySized(g, s);
      TurnShows(g, now, fuel, s, chain[0], chain[1]);
      TurnKeepsOrder(g, Calm(now), fuel, s);
      t := ChainRuns(g, now, fuel, Iterate(g, Calm(now), fuel, s).s, chain[1..], n - 1);
    }
  }

  lemma OrderlySized(g: Layer, s: State)
    requires Orderly(g, s)
    ensures Flat(g) && Sized(g, s)
  {
  }

  /** The run from its beginning along a chain of turns. */
  lemma RunsAlong(g: Layer, now: nat -> nat, chain: seq<Snap>, n: nat) returns (t: State)
    requires ControlDocument(g) && |chain| > 0 && chain[0] == START && n + 1 >= |chain|
    requires forall k :: 0 < k < |chain| ==> Turns(g, now, chain[k - 1], chain[k])
    ensures Orderly(g, t) && Shows(g, t, chain[|chain| - 1])
    ensures Execute(g, Calm(now), n) == Run(g, Calm(now), n, n + 1 - |chain|, t)
  {
    hide Run, Turns, Orderly, Shows, ControlDocument, Prepare, ValidLayer;
    var s := Fresh(g, [], None, map[], 0, [], 0);
    BeginsShown(g, s);
    t := ChainRuns(g, now, n, s, chain, n);
  }

  /** A turn, from the nodes it enlists and the node it pops. */
  lemma TurnsBy(g: Layer, now: nat -> nat, a: Snap, ns: seq<nat>, i: nat, rest: seq<nat>, b: Snap)
    requires Flat(g) && Rises(ns) && forall j :: j in ns ==> j < |g.nodes|
    requires forall j :: 0 <= j < |g.nodes| ==> (New(g, a, j) <==> j in ns)
    requires a.queue + ns == [i] + rest && i < |g.nodes| && i !in a.settled
    requires a.loop.Some? ==> now(a.tick + 2) < a.loop.value.deadline
    requires var c := a.(queue := rest, tick := a.tick + 3);
      IsReady(g, c, i) && Steps(g, now, c, i) && b == Stepped(g, now, c, i)
    ensures Turns(g, now, a, b)
  {
    hide IsReady, Steps, Stepped, New;
    ArrivalsAre(g, a, 0, ns);
    assert ([i] + rest)[1..] == rest;
  }
}
