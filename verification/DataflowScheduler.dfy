/** The token scheduler on a plain data document: it too ends with the dataflow solution. */
module DataflowScheduler {
  import opened Wrappers
  import opened Json
  import opened Workflow
  import opened SchedulerSpec
  import opened Digraph
  import opened Dataflow
  import Engine
  import Order = ExecutionOrder

  /** Nothing but data ever moved in this instance, and nothing is closed off. */
  ghost predicate Calm(g: Layer, s: State) {
    && Sized(g, s) && s.scope == [] && s.parentDeadline.None? && s.loopState.None?
    && s.seeds == map[] && s.inactive == {} && s.settled == {} && s.failed == [] && s.skipped == []
    && !s.cancelled && !s.timedOut
  }

  /** A node that has outputs ran once, a node without never. */
  ghost predicate Counted(g: Layer, s: State)
    requires Flat(g) && |s.activations| == |g.nodes|
  {
    && (forall i :: 0 <= i < |g.nodes| ==> s.activations[i] == if i in s.latest then 1 else 0)
    && (forall i :: 0 <= i < |g.nodes| ==> (i in s.fired <==> i in s.latest && g.incoming[i] == []))
  }

  /** A token lies on every edge out of a node that ran, carrying its output, and is fresh until
      the target runs. */
  ghost predicate Laid(g: Layer, s: State, e: nat)
    requires e < |g.edges|
  {
    && (e in s.tokens <==> g.edges[e].source in s.latest)
    && (e in s.tokens ==> Carries(g, s.latest, e))
    && (e in s.tokens ==> s.tokens[e] == s.latest[g.edges[e].source][g.edges[e].sourcePort])
    && (e in s.freshData <==> g.edges[e].source in s.latest && g.edges[e].target !in s.latest)
  }

  ghost predicate Tokens(g: Layer, s: State) {
    forall e {:trigger Laid(g, s, e)} {:trigger e in s.tokens} {:trigger e in s.freshData} :: 0 <= e < |g.edges| ==>
      Laid(g, s, e)
  }

  /** The root instance between two turns. */
  ghost predicate Flowing(g: Layer, kinds: Kinds, s: State)
    requires Flat(g)
  {
    Calm(g, s) && Partial(g, kinds, s.latest) && Counted(g, s) && Tokens(g, s)
  }

  /** All sources of `i` ran and `i` did not. */
  ghost predicate Turnable(g: Layer, s: State, i: nat)
    requires Flat(g) && i < |g.nodes|
  {
    i !in s.latest && forall e :: e in g.incoming[i] ==> g.edges[e].source in s.latest
  }

  ghost predicate Queued(g: Layer, s: State)
    requires Flat(g)
  {
    && Distinct(s.queue) && (forall i :: i in s.queue <==> i in s.queued)
    && (forall i :: i in s.queue ==> i < |g.nodes| && Turnable(g, s, i))
  }

  /** Ready means that all sources ran and the node did not; nothing is ever blocked. */
  lemma EvaluateIsTurnable(g: Layer, kinds: Kinds, s: State, i: nat)
    requires Flat(g) && Plain(g) && Flowing(g, kinds, s) && i < |g.nodes|
    ensures Evaluate(g, s, i) == if Turnable(g, s, i) then Go else Wait
  {
    hide Partial, Acyclic;
    if g.incoming[i] != [] {
      var e0 := g.incoming[i][0];
      assert e0 in g.incoming[i] && e0 !in s.inactive;
      assert !HasControl(g, s, i) && !RequiredInactive(g, s, i) && ActivePath(g, s, i);
      if i in s.latest {
        assert !AnyFresh(g, s, i) by {
          forall e | e in g.incoming[i] ensures e !in s.freshData {}
        }
      } else if Turnable(g, s, i) {
        assert e0 in s.tokens;
        assert !DataPending(g, s, i);
      } else {
        var e :| e in g.incoming[i] && g.edges[e].source !in s.latest;
        assert e !in s.tokens && !IsControl(g, e);
        assert DataPending(g, s, i);
      }
    }
  }

  lemma PushFlows(g: Layer, kinds: Kinds, s: State, i: nat)
    requires Flat(g) && Flowing(g, kinds, s) && Queued(g, s) && i < |g.nodes| && i !in s.queued && Turnable(g, s, i)
    ensures var t := s.(queued := s.queued + {i}, queue := s.queue + [i]);
      && Flowing(g, kinds, t) && Queued(g, t)
      && forall j :: 0 <= j < |g.nodes| ==> (Turnable(g, t, j) <==> Turnable(g, s, j))
  {
    hide Partial, Counted, Tokens;
    var t := s.(queued := s.queued + {i}, queue := s.queue + [i]);
    assert forall j :: j in t.queue <==> j in s.queue || j == i;
    SameFlow(g, kinds, s, t);
  }

  lemma {:induction false} EnqueueFlows(g: Layer, kinds: Kinds, s: State, from: nat)
    requires Flat(g) && Plain(g) && Flowing(g, kinds, s) && Queued(g, s) && from <= |g.nodes|
    ensures var t := EnqueueReady(g, s, from);
      && Flowing(g, kinds, t) && Queued(g, t) && t == s.(queue := t.queue, queued := t.queued)
      && (forall i :: i in s.queue ==> i in t.queue)
      && (forall i :: from <= i < |g.nodes| && Turnable(g, s, i) ==> i in t.queue)
    decreases |g.nodes| - from
  {
    hide Plain, Partial, Evaluate, Counted, Tokens, Turnable, Distinct, Flat;
    if from < |g.nodes| {
      EvaluateIsTurnable(g, kinds, s, from);
      if from !in s.queued && Turnable(g, s, from) {
        PushFlows(g, kinds, s, from);
        EnqueueFlows(g, kinds, s.(queued := s.queued + {from}, queue := s.queue + [from]), from + 1);
      } else {
        EnqueueFlows(g, kinds, s, from + 1);
      }
    }
  }

  lemma {:induction false} EdgeInputsSnoc(g: Layer, s: State, es: seq<nat>, e: nat, inputs: Inputs)
    requires EdgesOf(g, es) && e < |g.edges| && EdgesOf(g, es + [e]) && s.seeds == map[]
    ensures EdgeInputs(g, s, es + [e], inputs) ==
      (if e in s.tokens then EdgeInputs(g, s, es, inputs)[g.edges[e].targetPort := s.tokens[e]]
        else EdgeInputs(g, s, es, inputs))
  {
    if es != [] {
      assert (es + [e])[1..] == es[1..] + [e];
      var edge := g.edges[es[0]];
      EdgeInputsSnoc(g, s, es[1..], e,
        if es[0] in s.tokens then inputs[edge.targetPort := s.tokens[es[0]]] else inputs);
    }
  }

  lemma {:induction false} EdgeInputsAreInflow(g: Layer, kinds: Kinds, s: State, es: seq<nat>)
    requires Flat(g) && Flowing(g, kinds, s) && EdgesOf(g, es)
    ensures EdgeInputs(g, s, es, map[]) == Inflow(g, s.latest, es)
  {
    if es != [] {
      var front, e := es[..|es| - 1], es[|es| - 1];
      assert front + [e] == es;
      EdgeInputsAreInflow(g, kinds, s, front);
      EdgeInputsSnoc(g, s, front, e, map[]);
    }
  }

  /** Every output port is there, so every edge gets its token. */
  lemma {:induction false} PropagateDelivers(g: Layer, s: State, i: nat, outputs: Inputs, es: seq<nat>)
    requires Flat(g) && Sized(g, s) && i < |g.nodes| && EdgesOf(g, es) && s.inactive == {}
    requires forall k :: 0 <= k < |es| ==> !IsControl(g, es[k]) && g.edges[es[k]].sourcePort in outputs
    ensures var t := Propagate(g, s, i, outputs, es);
      && t == s.(tokens := t.tokens, freshData := t.freshData)
      && (forall e :: e in t.freshData <==> e in s.freshData || e in es)
      && (forall e :: e in t.tokens <==> e in s.tokens || e in es)
      && (forall e :: e in es ==>
        e < |g.edges| && g.edges[e].sourcePort in outputs && t.tokens[e] == outputs[g.edges[e].sourcePort])
      && (forall e :: e in s.tokens && e !in es ==> t.tokens[e] == s.tokens[e])
    decreases |es|
  {
    hide Flat, Sized, Routes;
    if es != [] {
      var s1 := Deliver(g, s, es[0], outputs[g.edges[es[0]].sourcePort]);
      assert s1.inactive == {};
      assert Sized(g, s1) by { SizedDeliver(g, s, es[0], outputs[g.edges[es[0]].sourcePort]); }
      PropagateDelivers(g, s1, i, outputs, es[1..]);
    }
  }

  lemma SizedDeliver(g: Layer, s: State, e: nat, value: Json)
    requires Sized(g, s) && e < |g.edges|
    ensures Sized(g, Deliver(g, s, e, value))
  {
  }

  /** The state after `i` ran, but for the event stream. */
  ghost predicate RanOn(g: Layer, kinds: Kinds, s: State, t: State, i: nat)
    requires Flat(g) && i < |g.nodes| && |s.activations| == |g.nodes|
  {
    var outputs := kinds(i, Inflow(g, s.latest, In(g, i)));
    && t == s.(activations := s.activations[i := s.activations[i] + 1], latest := s.latest[i := outputs],
               fired := Fire(g, s, i).fired, tokens := t.tokens, freshData := t.freshData,
               nextSeq := t.nextSeq, trace := t.trace, tick := t.tick)
    && (forall e :: e in t.freshData <==> (e in s.freshData && e !in g.incoming[i]) || e in g.outgoing[i])
    && (forall e :: e in t.tokens <==> e in s.tokens || e in g.outgoing[i])
    && (forall e :: e in g.outgoing[i] ==>
      e < |g.edges| && g.edges[e].sourcePort in outputs && t.tokens[e] == outputs[g.edges[e].sourcePort])
    && (forall e :: e in s.tokens && e !in g.outgoing[i] ==> t.tokens[e] == s.tokens[e])
  }

  lemma InputsSuffice(g: Layer, env: Env, kinds: Kinds, s: State, i: nat)
    requires Flat(g) && Plain(g) && Obliging(g, env, kinds) && Flowing(g, kinds, s) && i < |g.nodes| &&
      Turnable(g, s, i)
    ensures ConsumedInputs(g, s, i) == Inflow(g, s.latest, In(g, i))
    ensures !LacksInput(g, i, ConsumedInputs(g, s, i))
  {
    hide Partial, Acyclic, Obliging, Counted, EdgeInputs;
    EdgeInputsAreInflow(g, kinds, s, In(g, i));
    assert SeedInputs(s, i) == map[];
    forall p | p in g.nodes[i].Inputs() && p.required && !p.control ensures p.name in Inflow(g, s.latest, In(g, i)) {
      var e :| e in g.incoming[i] && g.edges[e].targetPort == p.name;
      assert e in s.tokens && e in In(g, i);
      Delivered(g, s.latest, In(g, i), e);
    }
  }

  lemma {:induction false} Delivered(g: Layer, v: map<nat, Inputs>, es: seq<nat>, e: nat)
    requires EdgesOf(g, es) && e in es && e < |g.edges| && Carries(g, v, e)
    ensures g.edges[e].targetPort in Inflow(g, v, es)
  {
    if e != es[|es| - 1] {
      Delivered(g, v, es[..|es| - 1], e);
    }
  }

  lemma ConsumeLeaves(g: Layer, s: State, i: nat)
    requires Flat(g) && i < |g.nodes| && s.seeds == map[] && forall e :: 0 <= e < |g.edges| ==> g.edges[e].kind == Data
    ensures Consume(g, s, i) == s.(freshData := Consume(g, s, i).freshData)
    ensures forall e :: e in Consume(g, s, i).freshData <==> e in s.freshData && e !in g.incoming[i]
  {
  }

  lemma ActivateRuns(g: Layer, env: Env, fuel: nat, kinds: Kinds, s: State, i: nat)
    requires ValidLayer(g) && Plain(g) && Obliging(g, env, kinds) && Flowing(g, kinds, s) && i < |g.nodes| &&
      Turnable(g, s, i)
    ensures var r := Activate(g, env, fuel, s, i); r.flow.Continue? && RanOn(g, kinds, s, r.s, i)
  {
    hide ValidLayer, Partial, Inflow, RunComposite, HandleGate, ConsumedInputs, Propagate, Acyclic, Consume, LacksInput;
    InputsSuffice(g, env, kinds, s, i);
    ConsumeLeaves(g, s, i);
    var c, inputs := Consume(g, s, i), Inflow(g, s.latest, In(g, i));
    var s1 := Begin(g, c, i);
    var reply := env.execute([], i, 1, inputs, s1.tick);
    FinishRuns(g, env, kinds, s, c, Tick(s1), i);
  }

  lemma FinishRuns(g: Layer, env: Env, kinds: Kinds, s: State, c: State, s2: State, i: nat)
    requires Flat(g) && Plain(g) && Obliging(g, env, kinds) && Calm(g, s) && i < |g.nodes| && Sized(g, s2)
    requires c == s.(freshData := c.freshData) &&
      s2 == Fire(g, Count(c, i), i).(nextSeq := s2.nextSeq, trace := s2.trace, tick := s2.tick)
    requires forall e :: e in c.freshData <==> e in s.freshData && e !in g.incoming[i]
    ensures RanOn(g, kinds, s, Finish(g, s2, i, kinds(i, Inflow(g, s.latest, In(g, i))), s.iteration), i)
  {
    hide Inflow, Acyclic, Propagate, Routes, Spares;
    var outputs := kinds(i, Inflow(g, s.latest, In(g, i)));
    var s3 := Emit(s2, Finished(i, outputs, s2.activations[i], s.iteration));
    var s4 := s3.(latest := s3.latest[i := outputs]);
    assert Sized(g, s4) by { SizedEmit(g, s2, s4); }
    OutPorts(g, env, kinds, i, Inflow(g, s.latest, In(g, i)));
    PropagateDelivers(g, s4, i, outputs, Out(g, i));
  }

  lemma SizedEmit(g: Layer, s: State, t: State)
    requires Sized(g, s) && t == s.(trace := t.trace, nextSeq := t.nextSeq, latest := t.latest)
    ensures Sized(g, t)
  {
  }

  lemma OutPorts(g: Layer, env: Env, kinds: Kinds, i: nat, inputs: Inputs)
    requires Flat(g) && Plain(g) && Obliging(g, env, kinds) && i < |g.nodes|
    ensures forall k :: 0 <= k < |Out(g, i)| ==>
      !IsControl(g, Out(g, i)[k]) && g.edges[Out(g, i)[k]].sourcePort in kinds(i, inputs)
  {
    forall k | 0 <= k < |Out(g, i)|
      ensures !IsControl(g, Out(g, i)[k]) && g.edges[Out(g, i)[k]].sourcePort in kinds(i, inputs)
    {
      assert Out(g, i)[k] in g.outgoing[i];
    }
  }

  lemma RanFlows(g: Layer, env: Env, kinds: Kinds, s: State, t: State, i: nat)
    requires Flat(g) && Plain(g) && Flowing(g, kinds, s) && i < |g.nodes| && Turnable(g, s, i) &&
      RanOn(g, kinds, s, t, i)
    requires Sized(g, t)
    ensures Flowing(g, kinds, t)
  {
    hide Partial, Acyclic, Inflow, Laid, Obliging, EdgesOf;
    Extend(g, kinds, s.latest, i);
    forall e | 0 <= e < |g.edges| ensures Laid(g, t, e) {
      RanLays(g, kinds, s, t, i, e);
    }
  }

  lemma RanLays(g: Layer, kinds: Kinds, s: State, t: State, i: nat, e: nat)
    requires Flat(g) && Plain(g) && Flowing(g, kinds, s) && i < |g.nodes| && Turnable(g, s, i) &&
      RanOn(g, kinds, s, t, i)
    requires e < |g.edges|
    ensures Laid(g, t, e)
  {
    hide Partial, Acyclic, Inflow, Counted, Calm;
    assert Laid(g, s, e);
    assert e in g.outgoing[i] <==> g.edges[e].source == i;
    assert e in g.incoming[i] <==> g.edges[e].target == i;
    NoSelfLoop(g, e);
    if g.edges[e].source == i && g.edges[e].target in s.latest {
      SourcesRan(g, kinds, s.latest, e);
    }
  }

  lemma NoSelfLoop(g: Layer, e: nat)
    requires Flat(g) && Acyclic(Order.ArcsOf(g.edges)) && e < |g.edges|
    ensures g.edges[e].source != g.edges[e].target
  {
    if g.edges[e].source == g.edges[e].target { Order.SelfLoopIsCycle(g.edges, e); }
  }

  lemma SourcesRan(g: Layer, kinds: Kinds, v: map<nat, Inputs>, e: nat)
    requires Flat(g) && Partial(g, kinds, v) && e < |g.edges| && g.edges[e].target in v
    ensures g.edges[e].source in v
  {
    assert e in g.incoming[g.edges[e].target];
  }

  // ---------------------------------------------------------------- the run

  ghost function Ran(s: State): nat {
    |s.latest|
  }

  lemma TurnRuns(g: Layer, env: Env, fuel: nat, kinds: Kinds, s: State)
    requires ValidLayer(g) && Plain(g) && Obliging(g, env, kinds) && Flowing(g, kinds, s) && Queued(g, s)
    ensures var r := Turn(g, env, fuel, s);
      && Flowing(g, kinds, r.s)
      && (r.flow.Break? ==> forall i :: 0 <= i < |g.nodes| ==> i in r.s.latest)
      && (!r.flow.Break? ==> r.flow.Continue? && Queued(g, r.s) && Ran(r.s) == Ran(s) + 1)
  {
    hide ValidLayer, Evaluate, Plain, Activate, EnqueueReady, Flowing, RanOn;
    EnqueueFlows(g, kinds, s, 0);
    var t := EnqueueReady(g, s, 0);
    if t.queue == [] {
      forall i | 0 <= i < |g.nodes| ensures !Turnable(g, t, i) {
        assert Turnable(g, s, i) ==> i in t.queue;
      }
      NoneLeft(g, kinds, t);
    } else {
      PopFlows(g, kinds, t);
      DispatchRuns(g, env, fuel, kinds, t);
    }
  }

  lemma SameFlow(g: Layer, kinds: Kinds, s: State, t: State)
    requires Flat(g) && Flowing(g, kinds, s) && Sized(g, t)
    requires t == s.(queue := t.queue, queued := t.queued, tick := t.tick)
    ensures Flowing(g, kinds, t)
    ensures forall j :: 0 <= j < |g.nodes| ==> (Turnable(g, t, j) <==> Turnable(g, s, j))
  {
    hide Partial;
    assert forall e :: 0 <= e < |g.edges| && Laid(g, s, e) ==> Laid(g, t, e);
  }

  lemma PopFlows(g: Layer, kinds: Kinds, t: State)
    requires Flat(g) && Flowing(g, kinds, t) && Queued(g, t) && t.queue != []
    ensures Flowing(g, kinds, Pop(t)) && Queued(g, Pop(t)) && t.queue[0] !in Pop(t).queue
    ensures t.queue[0] < |g.nodes| && Turnable(g, Pop(t), t.queue[0])
  {
    hide Partial;
    var u := Pop(t);
    SameFlow(g, kinds, t, u);
    assert forall k :: 0 <= k < |u.queue| ==> u.queue[k] == t.queue[k + 1];
    assert t.queue[0] in t.queue;
    forall i | i in t.queue ensures i in u.queue <==> i != t.queue[0] {
      var k :| 0 <= k < |t.queue| && t.queue[k] == i;
      if k > 0 { assert u.queue[k - 1] == i; }
    }
    assert forall i :: i in u.queue ==> i in t.queue;
  }

  lemma DispatchRuns(g: Layer, env: Env, fuel: nat, kinds: Kinds, t: State)
    requires ValidLayer(g) && Plain(g) && Obliging(g, env, kinds) && Flowing(g, kinds, t) && Queued(g, t) &&
      t.queue != []
    requires t.queue[0] < |g.nodes|
    ensures var r := Dispatch(g, env, fuel, Pop(t), t.queue[0]);
      && Flowing(g, kinds, r.s) && r.flow.Continue? && Queued(g, r.s) && Ran(r.s) == Ran(t) + 1
  {
    hide ValidLayer, Evaluate, Plain, Activate, Partial, Obliging, RanOn, Queued, Counted, Tokens, Turnable, Ran;
    var u, i := Pop(t), t.queue[0];
    PopFlows(g, kinds, t);
    EvaluateIsTurnable(g, kinds, u, i);
    ActivateRuns(g, env, fuel, kinds, u, i);
    var r := Activate(g, env, fuel, u, i);
    RanFlows(g, env, kinds, u, r.s, i);
    OneMore(g, kinds, u, r.s, i);
    assert Ran(t) == Ran(u) by { SameRan(t); }
  }

  lemma SameRan(t: State)
    requires t.queue != []
    ensures Ran(t) == Ran(Pop(t))
  {
  }

  lemma OneMore(g: Layer, kinds: Kinds, u: State, t: State, i: nat)
    requires Flat(g) && i < |g.nodes| && |u.activations| == |g.nodes|
    requires Queued(g, u) && i !in u.queue && Turnable(g, u, i) && RanOn(g, kinds, u, t, i)
    ensures Queued(g, t) && Ran(t) == Ran(u) + 1
  {
    hide Inflow, Flat, EdgesOf;
    RanKeys(g, kinds, u, t, i);
    assert |t.latest.Keys| == |u.latest.Keys| + 1;
  }

  lemma RanKeys(g: Layer, kinds: Kinds, u: State, t: State, i: nat)
    requires Flat(g) && i < |g.nodes| && |u.activations| == |g.nodes| && RanOn(g, kinds, u, t, i)
    ensures t.latest.Keys == u.latest.Keys + {i} && t.queue == u.queue && t.queued == u.queued
  {
    hide Inflow, Flat, EdgesOf;
  }

  /** If nothing can run, everything did: the first node of an order that did not could. */
  lemma NoneLeft(g: Layer, kinds: Kinds, s: State)
    requires Flat(g) && Plain(g) && Flowing(g, kinds, s)
    requires forall i :: 0 <= i < |g.nodes| ==> !Turnable(g, s, i)
    ensures forall i :: 0 <= i < |g.nodes| ==> i in s.latest
  {
    var arcs := Order.ArcsOf(g.edges);
    KahnIsCompleteIffAcyclic(|g.nodes|, arcs);
    var order := Kahn(|g.nodes|, arcs, []);
    forall i | 0 <= i < |g.nodes| ensures i in s.latest {
      RanAlong(g, s, order, Position(order, i));
    }
  }

  lemma {:induction false} RanAlong(g: Layer, s: State, order: seq<nat>, k: nat)
    requires Flat(g) && Topological(|g.nodes|, Order.ArcsOf(g.edges), order) && k < |order|
    requires forall i :: 0 <= i < |g.nodes| ==> !Turnable(g, s, i)
    ensures order[k] in s.latest
    decreases k
  {
    var i := order[k];
    assert i in order;
    forall e | e in g.incoming[i] ensures g.edges[e].source in s.latest {
      assert (g.edges[e].source, i) in Order.ArcsOf(g.edges);
      var l :| 0 <= l < k && order[..k][l] == g.edges[e].source;
      RanAlong(g, s, order, l);
    }
    assert !Turnable(g, s, i);
  }

  ghost predicate Done(g: Layer, kinds: Kinds, s: State)
    requires Flat(g)
  {
    && Solves(g, kinds, s.latest) && s.failed == [] && s.skipped == [] && StatusOf(s) == Completed
    && |s.activations| == |g.nodes| && forall i :: 0 <= i < |g.nodes| ==> s.activations[i] == 1
  }

  lemma {:induction false} NothingToSettle(g: Layer, s: State, from: nat)
    requires Flat(g) && Sized(g, s) && from <= |g.nodes| && forall i :: 0 <= i < |g.nodes| ==> s.activations[i] > 0
    ensures SettleUnreached(g, s, from) == s
    decreases |g.nodes| - from
  {
    if from < |g.nodes| { NothingToSettle(g, s, from + 1); }
  }

  lemma {:induction false} RunFlows(g: Layer, env: Env, fuel: nat, kinds: Kinds, n: nat, s: State)
    requires ValidLayer(g) && Plain(g) && Obliging(g, env, kinds) && Flowing(g, kinds, s) && Queued(g, s)
    requires n + Ran(s) > |g.nodes|
    ensures var r := Run(g, env, fuel, n, s); r.flow.Break? && Done(g, kinds, r.s)
    decreases n
  {
    hide ValidLayer, Plain, Turn, Partial, Acyclic, Counted, Tokens, Flat, Solves, SettleUnreached;
    RanIsSmall(g, kinds, s);
    var t := Tick(Tick(Tick(s)));
    SameFlow(g, kinds, s, t);
    SameQueue(g, s, t);
    TurnRuns(g, env, fuel, kinds, t);
    var r := Turn(g, env, fuel, t);
    assert Iterate(g, env, fuel, s) == r;
    if r.flow.Break? {
      EndsDone(g, kinds, r.s);
    } else {
      RunFlows(g, env, fuel, kinds, n - 1, r.s);
    }
  }

  lemma SameQueue(g: Layer, s: State, t: State)
    requires Flat(g) && Queued(g, s) && t == s.(tick := t.tick)
    ensures Queued(g, t) && Ran(t) == Ran(s)
  {
  }

  lemma EndsDone(g: Layer, kinds: Kinds, s: State)
    requires Flat(g) && Flowing(g, kinds, s) && forall i :: 0 <= i < |g.nodes| ==> i in s.latest
    ensures Done(g, kinds, SettleUnreached(g, s, 0))
  {
    hide Tokens;
    Complete(g, kinds, s.latest);
    NothingToSettle(g, s, 0);
  }

  lemma RanIsSmall(g: Layer, kinds: Kinds, s: State)
    requires Flat(g) && Flowing(g, kinds, s)
    ensures Ran(s) <= |g.nodes|
  {
    UpToIsSmall(|g.nodes|);
    assert s.latest.Keys <= UpTo(|g.nodes|);
    SubsetCardinality(s.latest.Keys, UpTo(|g.nodes|));
  }

  lemma {:induction false} UpToIsSmall(n: nat)
    ensures |UpTo(n)| == n
  {
    if n > 0 { UpToIsSmall(n - 1); }
  }

  lemma {:induction false} NothingDisabled(g: Layer, s: State, from: nat)
    requires Flat(g) && Sized(g, s) && from <= |g.nodes| && forall i :: 0 <= i < |g.nodes| ==> g.nodes[i].enabled
    ensures Prepare(g, s, from) == s
    decreases |g.nodes| - from
  {
    if from < |g.nodes| { NothingDisabled(g, s, from + 1); }
  }

  /** On a plain document the scheduler runs every node exactly once, skips and fails nothing,
      and ends with the solution. */
  lemma SchedulerSolves(g: Layer, env: Env, kinds: Kinds, fuel: nat)
    requires ValidLayer(g) && Plain(g) && Obliging(g, env, kinds) && fuel > |g.nodes|
    ensures var r := Execute(g, env, fuel); r.flow.Break? && Done(g, kinds, r.s)
  {
    var s := Fresh(g, [], None, map[], 0, [], 0);
    NothingDisabled(g, s, 0);
    RunFlows(g, env, fuel, kinds, fuel, s);
  }

  /** The engine and the scheduler agree on every plain document. */
  lemma EngineAgreesWithScheduler(g: Layer, env: Env, kinds: Kinds, order: seq<nat>, fuel: nat)
    requires ValidLayer(g) && Plain(g) && Obliging(g, env, kinds) && fuel > |g.nodes|
    requires Topological(|g.nodes|, Order.ArcsOf(g.edges), order) && Below(order, |g.nodes|)
    ensures Engine.RunNodes(g, env, Engine.NOTHING, order).outputs == Execute(g, env, fuel).s.latest
  {
    EngineSolves(g, env, kinds, order);
    SchedulerSolves(g, env, kinds, fuel);
    SolutionIsUnique(g, kinds, Engine.RunNodes(g, env, Engine.NOTHING, order).outputs, Execute(g, env, fuel).s.latest);
  }
}
