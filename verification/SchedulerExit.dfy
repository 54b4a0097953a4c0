/** However a run ends, the nodes it reports skipped are exactly those it never activated, each
    once, and every node it reports failed was activated.  The post-pop check of the run loop
    has no guard against skipping a node that ran; that it never does rests on the queue being
    first-in first-out and free of duplicates, and on a data edge going inactive only once its
    source is settled. */
module SchedulerExit {
  import opened Wrappers
  import opened Workflow
  import opened SchedulerSpec

  /** The lists a run reports, and what they say about activation counts. */
  ghost predicate Books(g: Layer, s: State)
    requires Flat(g)
  {
    && Sized(g, s)
    && Distinct(s.skipped) && Distinct(s.failed) && Distinct(s.queue)
    && (forall i :: i in s.settled <==> i in s.skipped || i in s.failed)
    && (forall i :: i in s.skipped ==> i < |g.nodes| && s.activations[i] == 0)
    && (forall i :: i in s.failed ==> i < |g.nodes| && s.activations[i] > 0)
    && (forall i :: i in s.queued <==> i in s.queue)
    && (forall e :: 0 <= e < |g.edges| && e in s.inactive && !IsControl(g, e) ==> g.edges[e].source in s.settled)
    && (s.loopState.Some? ==> s.activations[s.loopState.value.gate] > 0)
  }

  /** Edge `e` keeps its target from being blocked: it brings something new, or it is active and
      its source, which has run, will not run before the target is popped. */
  ghost predicate Feeds(g: Layer, s: State, ahead: set<nat>, q: seq<nat>, p: nat, e: nat)
    requires Flat(g) && Sized(g, s) && e < |g.edges| && p <= |q|
  {
    || e in s.freshData
    || Seeded(g, s, e)
    || (e !in s.inactive && s.activations[g.edges[e].source] > 0
        && g.edges[e].source !in ahead && g.edges[e].source !in q[..p])
  }

  /** Position `p` of the queue will not be found blocked if its node has run before.  Nodes
      `ahead` are not watched. */
  ghost predicate KeptAlive(g: Layer, s: State, ahead: set<nat>, q: seq<nat>, p: nat)
    requires Flat(g) && Sized(g, s) && p < |q| && q[p] < |g.nodes|
  {
    || q[p] in ahead
    || q[p] in s.settled
    || s.activations[q[p]] == 0
    || g.incoming[q[p]] == []
    || HasControl(g, s, q[p])
    || exists e :: e in g.incoming[q[p]] && Feeds(g, s, ahead, q, p, e)
  }

  /** `ahead` holds the node being activated, which runs before everything queued. */
  ghost predicate Live(g: Layer, s: State, ahead: set<nat>)
    requires Flat(g) && Sized(g, s)
  {
    forall p :: 0 <= p < |s.queue| ==> s.queue[p] < |g.nodes| && KeptAlive(g, s, ahead, s.queue, p)
  }

  ghost predicate Good(g: Layer, s: State, ahead: set<nat>)
    requires Flat(g)
  {
    Sized(g, s) && Books(g, s) && Live(g, s, ahead)
  }

  /** The step on which the whole argument turns. */
  lemma PoppedIsNotBlocked(g: Layer, s: State)
    requires Flat(g) && Good(g, s, {}) && s.queue != []
    requires s.queue[0] in s.queue && s.queue[0] !in s.settled && Evaluate(g, s, s.queue[0]) == Blocked
    ensures s.activations[s.queue[0]] == 0
  {
    assert KeptAlive(g, s, {}, s.queue, 0);
  }

  /** Live only needs checking where something it depends on changed. */
  lemma LiveCarries(g: Layer, s: State, t: State, ahead: set<nat>, ahead': set<nat>)
    requires Flat(g) && Sized(g, s) && Sized(g, t) && Live(g, s, ahead) && t.queue == s.queue
    requires forall p :: 0 <= p < |s.queue| && KeptAlive(g, s, ahead, s.queue, p) ==>
      KeptAlive(g, t, ahead', s.queue, p)
    ensures Live(g, t, ahead')
  {
  }

  // ---------------------------------------------------------------- the cascade

  /** Deactivating `e` cannot starve a queued node. */
  ghost predicate Harmless(g: Layer, s: State, ahead: set<nat>, e: nat)
    requires Flat(g) && Sized(g, s) && e < |g.edges|
  {
    var source := g.edges[e].source;
    || IsControl(g, e)
    || (source in s.settled && (s.activations[source] == 0 || source in ahead))
  }

  lemma {:induction false} AllGood(g: Layer, s: State, ahead: set<nat>, es: seq<nat>)
    requires Flat(g) && Good(g, s, ahead) && EdgesOf(g, es)
    requires forall k :: 0 <= k < |es| ==> Harmless(g, s, ahead, es[k])
    ensures Good(g, DeactivateAll(g, s, es), ahead)
    decreases |Unsettled(g, s)|, 2, |es|
  {
    if es != [] {
      var s1 := DeactivateEdge(g, s, es[0]);
      EdgeGood(g, s, ahead, es[0]);
      SubsetCardinality(Unsettled(g, s1), Unsettled(g, s));
      AllGood(g, s1, ahead, es[1..]);
    }
  }

  lemma {:induction false} EdgeGood(g: Layer, s: State, ahead: set<nat>, e: nat)
    requires Flat(g) && Good(g, s, ahead) && e < |g.edges| && Harmless(g, s, ahead, e)
    ensures Good(g, DeactivateEdge(g, s, e), ahead)
    decreases |Unsettled(g, s)|, 1, 0
  {
    if e !in s.inactive {
      var s1 := s.(inactive := s.inactive + {e});
      forall p | 0 <= p < |s.queue| && KeptAlive(g, s, ahead, s.queue, p) ensures KeptAlive(g, s1, ahead, s.queue, p) {
        StaysAlive(g, s, s1, ahead, p, e);
      }
      LiveCarries(g, s, s1, ahead, ahead);
      var target := g.edges[e].target;
      if target !in s.settled && s.activations[target] == 0 && Evaluate(g, s1, target) == Blocked {
        SkipGood(g, s1, ahead, target, NoActiveInput);
      }
    }
  }

  lemma StaysAlive(g: Layer, s: State, s1: State, ahead: set<nat>, p: nat, e: nat)
    requires Flat(g) && Good(g, s, ahead) && e < |g.edges| && Harmless(g, s, ahead, e)
    requires p < |s.queue| && KeptAlive(g, s, ahead, s.queue, p) && s1 == s.(inactive := s.inactive + {e})
    ensures KeptAlive(g, s1, ahead, s.queue, p)
  {
  }

  lemma {:induction false} SkipGood(g: Layer, s: State, ahead: set<nat>, i: nat, reason: Reason)
    requires Flat(g) && Good(g, s, ahead) && i < |g.nodes| && s.activations[i] == 0
    ensures Good(g, SkipNode(g, s, i, reason), ahead)
    decreases |Unsettled(g, s)|, 0, 0
  {
    if i !in s.settled {
      var s1 := MarkSkipped(s, i, reason);
      assert i in Unsettled(g, s) && i !in Unsettled(g, s1);
      SubsetCardinality(Unsettled(g, s1), Unsettled(g, s));
      forall p | 0 <= p < |s.queue| && KeptAlive(g, s, ahead, s.queue, p) ensures KeptAlive(g, s1, ahead, s.queue, p) {
        Unaffected(g, s, s1, ahead, p);
      }
      LiveCarries(g, s, s1, ahead, ahead);
      forall k | 0 <= k < |Out(g, i)| ensures Harmless(g, s1, ahead, Out(g, i)[k]) {
        assert Out(g, i)[k] in g.outgoing[i];
      }
      AllGood(g, s1, ahead, Out(g, i));
    }
  }

  /** Settling nodes, counting activations and everything outside the marks keep a queued node
      alive. */
  lemma Unaffected(g: Layer, s: State, t: State, ahead: set<nat>, p: nat)
    requires Flat(g) && Sized(g, s) && Sized(g, t) && t.queue == s.queue && p < |s.queue| && s.queue[p] < |g.nodes|
    requires s.settled <= t.settled && t.seeds == s.seeds && s.freshData <= t.freshData && t.inactive <= s.inactive
    requires forall i :: 0 <= i < |g.nodes| ==> s.activations[i] <= t.activations[i]
    requires t.activations[s.queue[p]] == s.activations[s.queue[p]]
    requires KeptAlive(g, s, ahead, s.queue, p)
    ensures KeptAlive(g, t, ahead, s.queue, p)
  {
  }

  // ---------------------------------------------------------------- filling and popping the queue

  lemma {:induction false} EnqueueGood(g: Layer, s: State, from: nat)
    requires Flat(g) && Good(g, s, {}) && from <= |g.nodes|
    ensures Good(g, EnqueueReady(g, s, from), {})
    decreases |g.nodes| - from
  {
    hide Books, Live;
    if from < |g.nodes| {
      if from in s.settled || from in s.queued {
        EnqueueGood(g, s, from + 1);
      } else {
        match Evaluate(g, s, from)
        case Go =>
          PushGood(g, s, from);
          EnqueueGood(g, s.(queued := s.queued + {from}, queue := s.queue + [from]), from + 1);
        case Blocked =>
          if s.activations[from] == 0 { SkipGood(g, s, {}, from, NoActiveInput); }
          EnqueueGood(g, if s.activations[from] == 0 then SkipNode(g, s, from, NoActiveInput) else s, from + 1);
        case Wait => EnqueueGood(g, s, from + 1);
      }
    }
  }

  lemma PushGood(g: Layer, s: State, i: nat)
    requires Flat(g) && Good(g, s, {}) && i < |g.nodes| && i !in s.queued && Evaluate(g, s, i) == Go
    ensures Good(g, s.(queued := s.queued + {i}, queue := s.queue + [i]), {})
  {
    var t := s.(queued := s.queued + {i}, queue := s.queue + [i]);
    forall p | 0 <= p < |t.queue| ensures t.queue[p] < |g.nodes| && KeptAlive(g, t, {}, t.queue, p) {
      assert t.queue[p] in t.queue;
      if p < |s.queue| {
        PushKeeps(g, s, t, i, p);
      } else {
        PushedAlive(g, s, t, i);
      }
    }
  }

  lemma PushKeeps(g: Layer, s: State, t: State, i: nat, p: nat)
    requires Flat(g) && Sized(g, s) && Sized(g, t) && t == s.(queued := t.queued, queue := s.queue + [i])
    requires p < |s.queue| && s.queue[p] < |g.nodes| && KeptAlive(g, s, {}, s.queue, p)
    ensures KeptAlive(g, t, {}, t.queue, p)
  {
  }

  lemma PushedAlive(g: Layer, s: State, t: State, i: nat)
    requires Flat(g) && Sized(g, s) && Sized(g, t) && t == s.(queued := t.queued, queue := s.queue + [i])
    requires i < |g.nodes| && Evaluate(g, s, i) == Go
    ensures KeptAlive(g, t, {}, t.queue, |s.queue|)
  {
  }

  /** Once popped, the node counts as running ahead of the rest. */
  lemma PopGood(g: Layer, s: State)
    requires Flat(g) && Good(g, s, {}) && s.queue != []
    ensures Good(g, Pop(s), {s.queue[0]}) && s.queue[0] !in Pop(s).queue
  {
    var t := Pop(s);
    forall p | 0 <= p < |t.queue| ensures t.queue[p] < |g.nodes| && KeptAlive(g, t, {s.queue[0]}, t.queue, p) {
      var x := t.queue[p];
      assert x == s.queue[p + 1] && KeptAlive(g, s, {}, s.queue, p + 1);
      assert s.queue[..p + 1] == [s.queue[0]] + t.queue[..p];
      assert HasControl(g, t, x) == HasControl(g, s, x);
      if !( x in s.settled || s.activations[x] == 0 || g.incoming[x] == [] || HasControl(g, s, x)) {
        var f :| f in g.incoming[x] && Feeds(g, s, {}, s.queue, p + 1, f);
        assert Feeds(g, t, {s.queue[0]}, t.queue, p, f);
      }
    }
  }

  lemma ForgetAhead(g: Layer, s: State, ahead: set<nat>)
    requires Flat(g) && Good(g, s, ahead) && forall i :: i in ahead ==> i !in s.queue
    ensures Good(g, s, {})
  {
  }

  // ---------------------------------------------------------------- one activation

  /** What holds of the node being activated. */
  ghost predicate Running(g: Layer, s: State, i: nat) {
    Sized(g, s) && i < |g.nodes| && i !in s.settled && i !in s.queue
  }

  lemma ConsumeGood(g: Layer, s: State, i: nat)
    requires Flat(g) && Good(g, s, {i}) && Running(g, s, i)
    ensures Good(g, Consume(g, s, i), {i}) && Running(g, Consume(g, s, i), i)
  {
  }

  lemma CountGood(g: Layer, s: State, i: nat)
    requires Flat(g) && Good(g, s, {i}) && Running(g, s, i)
    ensures Good(g, Count(s, i), {i}) && Running(g, Count(s, i), i) && Count(s, i).activations[i] > 0
  {
    var t := Count(s, i);
    forall p | 0 <= p < |s.queue| && KeptAlive(g, s, {i}, s.queue, p) ensures KeptAlive(g, t, {i}, s.queue, p) {
      assert s.queue[p] in s.queue;
      Unaffected(g, s, t, {i}, p);
    }
    LiveCarries(g, s, t, {i}, {i});
  }

  /** Fields outside the books and the marks may change freely. */
  lemma Indifferent(g: Layer, s: State, t: State, ahead: set<nat>)
    requires Flat(g) && Good(g, s, ahead) && Sized(g, t)
    requires t.queue == s.queue && t.queued == s.queued && t.settled == s.settled && t.skipped == s.skipped &&
      t.failed == s.failed
    requires t.activations == s.activations && t.seeds == s.seeds && t.freshData == s.freshData &&
      t.inactive == s.inactive
    requires t.loopState.Some? ==> t.activations[t.loopState.value.gate] > 0
    ensures Good(g, t, ahead)
  {
  }

  lemma OwnerRan(g: Layer, s: State)
    requires Flat(g) && Books(g, s)
    ensures Sized(g, s) && (s.loopState.Some? ==> s.activations[s.loopState.value.gate] > 0)
  {
  }

  lemma TickGood(g: Layer, s: State, ahead: set<nat>)
    requires Flat(g) && Good(g, s, ahead)
    ensures Good(g, Tick(s), ahead)
  {
    Indifferent(g, s, Tick(s), ahead);
  }

  lemma FailGood(g: Layer, s: State, ahead: set<nat>, i: nat, activation: nat, iteration: Option<nat>, code: Code)
    requires Flat(g) && Good(g, s, ahead) && i < |g.nodes| && i in ahead && s.activations[i] > 0
    ensures Good(g, FailStarted(g, s, i, activation, iteration, code), ahead)
  {
    var s1 := Emit(s.(firstFailure := if s.firstFailure.None? then Some(code) else s.firstFailure),
                   Failed(i, code, activation, iteration));
    var s2 := s1.(settled := s1.settled + {i}, failed := if i in s1.failed then s1.failed else s1.failed + [i]);
    forall p | 0 <= p < |s.queue| && KeptAlive(g, s, ahead, s.queue, p) ensures KeptAlive(g, s2, ahead, s.queue, p) {
      Unaffected(g, s, s2, ahead, p);
    }
    LiveCarries(g, s, s2, ahead, ahead);
    forall k | 0 <= k < |Out(g, i)| ensures Harmless(g, s2, ahead, Out(g, i)[k]) {
      assert Out(g, i)[k] in g.outgoing[i];
    }
    AllGood(g, s2, ahead, Out(g, i));
  }

  lemma {:induction false} PropagateGood(g: Layer, s: State, i: nat, outputs: Inputs, es: seq<nat>)
    requires Flat(g) && Good(g, s, {}) && i < |g.nodes| && i !in s.queue && s.activations[i] > 0 && EdgesOf(g, es)
    requires i !in s.settled
    requires forall k :: 0 <= k < |es| ==> g.edges[es[k]].source == i
    ensures Good(g, Propagate(g, s, i, outputs, es), {})
    decreases |es|
  {
    hide Books, Live, DeactivateEdge;
    if es != [] {
      var e, port := es[0], g.edges[es[0]].sourcePort;
      if port in outputs {
        DeliverGood(g, s, e, outputs[port]);
        PropagateGood(g, Deliver(g, s, e, outputs[port]), i, outputs, es[1..]);
      } else if g.nodes[i].IsGate() {
        PropagateGood(g, s, i, outputs, es[1..]);
      } else if !IsControl(g, e) {
        WithdrawGood(g, s, i, e);
        PropagateGood(g, Withdraw(s, e), i, outputs, es[1..]);
      } else {
        EdgeGood(g, s, {}, e);
        RanIsNotSkipped(g, s, DeactivateEdge(g, s, e), i);
        PropagateGood(g, DeactivateEdge(g, s, e), i, outputs, es[1..]);
      }
    }
  }

  lemma DeliverGood(g: Layer, s: State, e: nat, value: Json.Json)
    requires Flat(g) && Good(g, s, {}) && e < |g.edges|
    ensures Good(g, Deliver(g, s, e, value), {})
  {
  }

  lemma RanIsNotSkipped(g: Layer, s: State, t: State, i: nat)
    requires Flat(g) && Books(g, s) && Books(g, t) && Cascades(g, s, t)
    requires i < |g.nodes| && i !in s.settled && s.activations[i] > 0
    ensures i !in t.settled
  {
  }

  /** Withdrawing a value leaves the edge active, from a source that is not queued. */
  lemma WithdrawGood(g: Layer, s: State, i: nat, e: nat)
    requires Flat(g) && Good(g, s, {}) && Running(g, s, i) && s.activations[i] > 0
    requires e < |g.edges| && !IsControl(g, e) && g.edges[e].source == i
    ensures Good(g, Withdraw(s, e), {})
  {
    var t := Withdraw(s, e);
    forall p | 0 <= p < |s.queue| && KeptAlive(g, s, {}, s.queue, p) ensures KeptAlive(g, t, {}, s.queue, p) {
      var x := s.queue[p];
      assert HasControl(g, t, x) == HasControl(g, s, x);
      if !( x in s.settled || s.activations[x] == 0 || g.incoming[x] == [] || HasControl(g, s, x)) {
        var f :| f in g.incoming[x] && Feeds(g, s, {}, s.queue, p, f);
        assert Feeds(g, t, {}, s.queue, p, f);
      }
    }
    LiveCarries(g, s, t, {}, {});
  }

  lemma FinishGood(g: Layer, s: State, i: nat, outputs: Inputs, iteration: Option<nat>)
    requires Flat(g) && Good(g, s, {i}) && Running(g, s, i) && s.activations[i] > 0
    ensures Good(g, Finish(g, s, i, outputs, iteration), {})
  {
    var s1 := Emit(s, Finished(i, outputs, s.activations[i], iteration));
    var s2 := s1.(latest := s1.latest[i := outputs]);
    Indifferent(g, s, s2, {i});
    ForgetAhead(g, s2, {i});
    OwnEdges(g, i);
    PropagateGood(g, s2, i, outputs, Out(g, i));
  }

  lemma OwnEdges(g: Layer, i: nat)
    requires Flat(g) && i < |g.nodes|
    ensures forall k :: 0 <= k < |Out(g, i)| ==> g.edges[Out(g, i)[k]].source == i
  {
    forall k | 0 <= k < |Out(g, i)| ensures g.edges[Out(g, i)[k]].source == i {
      assert Out(g, i)[k] in g.outgoing[i];
    }
  }

  /** What every activation leaves behind: the books, and, if the run goes on, the queue. */
  ghost predicate Left(g: Layer, r: Step)
    requires Flat(g)
  {
    Books(g, r.s) && (r.flow.Continue? ==> Good(g, r.s, {}))
  }

  lemma BeginGood(g: Layer, s: State, i: nat)
    requires Flat(g) && Good(g, s, {i}) && Running(g, s, i)
    ensures Good(g, Begin(g, s, i), {i}) && Running(g, Begin(g, s, i), i) && Begin(g, s, i).activations[i] > 0
  {
    hide Books, Live;
    CountGood(g, s, i);
    OwnerRan(g, Count(s, i));
    Indifferent(g, Count(s, i), Begin(g, s, i), {i});
  }

  lemma NodeGood(g: Layer, env: Env, s: State, i: nat, inputs: Inputs)
    requires Flat(g) && Good(g, s, {i}) && Running(g, s, i)
    ensures Left(g, RunNode(g, env, s, i, inputs))
  {
    var s1 := Begin(g, s, i);
    BeginGood(g, s, i);
    if LacksInput(g, i, inputs) {
      EndsFailed(g, s1, i, s.iteration, MissingInput);
    } else {
      var reply, s2 := env.execute(s.scope, i, s1.activations[i], inputs, s.tick), Tick(s1);
      Indifferent(g, s1, s2, {i});
      if reply.denied.Some? {
        EndsFailed(g, s2, i, s.iteration, reply.denied.value);
      } else {
        AnsweredGood(g, s2, i, reply);
      }
    }
  }

  lemma EndsFailed(g: Layer, s: State, i: nat, iteration: Option<nat>, code: Code)
    requires Flat(g) && Good(g, s, {i}) && Running(g, s, i) && s.activations[i] > 0
    ensures Good(g, FailStarted(g, s, i, s.activations[i], iteration, code), {})
  {
    FailGood(g, s, {i}, i, s.activations[i], iteration, code);
    ForgetAhead(g, FailStarted(g, s, i, s.activations[i], iteration, code), {i});
  }

  lemma AnsweredGood(g: Layer, s: State, i: nat, reply: Reply)
    requires Flat(g) && Good(g, s, {i}) && Running(g, s, i) && s.activations[i] > 0
    ensures Left(g, Answered(g, s, i, reply))
  {
    if reply.cancelled {
    } else if Deadline(s).Some? && reply.expired {
      EndsFailed(g, s, i, s.iteration, LoopTimeout);
    } else {
      match reply.answer
      case Ok(outputs) => FinishGood(g, s, i, outputs, s.iteration);
      case Err(code) => EndsFailed(g, s, i, s.iteration, code);
    }
  }

  lemma FailGateGood(g: Layer, s: State, i: nat, iteration: Option<nat>, code: Code)
    requires Flat(g) && Good(g, s, {i}) && Running(g, s, i) && s.activations[i] > 0
    ensures Good(g, FailGate(g, s, i, iteration, code), {})
  {
    var s1 := Emit(s, Started(i, s.activations[i], iteration, g.nodes[i].Composite?));
    Indifferent(g, s, s1, {i});
    EndsFailed(g, s1, i, iteration, code);
  }

  lemma ContinueGood(g: Layer, s: State, i: nat, k: nat, payload: Json.Json, inputs: Inputs)
    requires Flat(g) && Good(g, s, {i}) && Running(g, s, i) && s.activations[i] > 0
    ensures Good(g, EmitContinue(g, s, i, k, payload, inputs), {})
  {
    var outputs := GateOutputs("continue", payload, inputs);
    var s1 := Emit(s.(iteration := Some(k)), Started(i, s.activations[i], Some(k), g.nodes[i].Composite?));
    var s2 := Emit(s1, Finished(i, outputs, s.activations[i], Some(k)));
    Indifferent(g, s, s2, {i});
    ForgetAhead(g, s2, {i});
    OwnEdges(g, i);
    PropagateGood(g, s2, i, outputs, Out(g, i));
    var s3 := Propagate(g, s2, i, outputs, Out(g, i));
    Indifferent(g, s3, Emit(s3, Log(i)), {});
  }

  lemma GateGood(g: Layer, env: Env, s: State, i: nat, inputs: Inputs)
    requires Flat(g) && Good(g, s, {i}) && Running(g, s, i)
    ensures Left(g, HandleGate(g, env, s, i, inputs))
  {
    hide Books, Live, FailGate, GateStop, GateStart, GateNext, GateBudget;
    var s1, budget := Count(s, i), GateBudget(g.nodes[i]);
    CountGood(g, s, i);
    if budget.None? {
      FailGateGood(g, s1, i, s.iteration, LoopInvalidBudget);
    } else if "stop" in inputs {
      StopGood(g, s1, i, inputs);
    } else if "start" in inputs {
      StartGood(g, env, s1, i, budget.value.1, inputs);
    } else if "next" in inputs {
      NextGood(g, env, s1, i, budget.value.0, inputs);
    } else {
      FailGateGood(g, s1, i, s.iteration, LoopMissingTrigger);
    }
  }

  lemma StopGood(g: Layer, s: State, i: nat, inputs: Inputs)
    requires Flat(g) && Good(g, s, {i}) && Running(g, s, i) && s.activations[i] > 0 && "stop" in inputs
    ensures Left(g, GateStop(g, s, i, inputs))
  {
    hide Closing, Books, Live, GateOutputs;
    var k := if s.loopState.Some? then s.loopState.value.iteration else 0;
    var outputs := GateOutputs("exit", inputs["stop"], inputs);
    var s1 := Closing(g, s, i, k, outputs);
    OwnerRan(g, s);
    Indifferent(g, s, s1, {i});
    ForgetAhead(g, s1, {i});
    OwnEdges(g, i);
    PropagateGood(g, s1, i, outputs, Out(g, i));
  }

  lemma StartGood(g: Layer, env: Env, s: State, i: nat, timeout: nat, inputs: Inputs)
    requires Flat(g) && Good(g, s, {i}) && Running(g, s, i) && s.activations[i] > 0 && "start" in inputs
    ensures Left(g, GateStart(g, env, s, i, timeout, inputs))
  {
    hide FailGate, EmitContinue, Flat;
    if s.loopState.Some? {
      FailGateGood(g, s, i, s.iteration, LoopInvalidState);
    } else {
      var s1 := Tick(s).(loopState := Some(LoopState(i, 1, env.now(s.tick) + timeout)));
      Indifferent(g, s, s1, {i});
      ContinueGood(g, s1, i, 1, inputs["start"], inputs);
    }
  }

  lemma NextGood(g: Layer, env: Env, s: State, i: nat, limit: nat, inputs: Inputs)
    requires Flat(g) && Good(g, s, {i}) && Running(g, s, i) && s.activations[i] > 0 && "next" in inputs
    ensures Left(g, GateNext(g, env, s, i, limit, inputs))
  {
    hide Books, Live, Flat, FailGate, FailGateTimeout, Exhaust, Reenter;
    if s.loopState.None? {
      FailGateGood(g, s, i, s.iteration, LoopInvalidState);
    } else {
      TickGood(g, s, {i});
      GateTimeoutGood(g, Tick(s), i, s.loopState.value.iteration);
      ExhaustGood(g, Tick(s), i, s.loopState.value.iteration);
      ReenterGood(g, Tick(s), i, s.loopState.value, inputs);
    }
  }

  lemma GateTimeoutGood(g: Layer, s: State, i: nat, iteration: nat)
    requires Flat(g) && Good(g, s, {i}) && Running(g, s, i) && s.activations[i] > 0
    ensures Books(g, FailGateTimeout(g, s, i, iteration))
  {
    FailGateGood(g, s, i, Some(iteration), LoopTimeout);
  }

  lemma ExhaustGood(g: Layer, s: State, i: nat, iteration: nat)
    requires Flat(g) && Good(g, s, {i}) && Running(g, s, i) && s.activations[i] > 0
    ensures Books(g, Exhaust(g, s, i, iteration))
  {
    FailGateGood(g, s, i, Some(iteration), LoopBudgetExhausted);
  }

  lemma ReenterGood(g: Layer, s: State, i: nat, state: LoopState, inputs: Inputs)
    requires Flat(g) && Good(g, s, {i}) && Running(g, s, i) && s.activations[i] > 0 && "next" in inputs
    requires s.loopState == Some(state)
    ensures Good(g, Reenter(g, s, i, state, inputs), {})
  {
    hide Books, Live, EmitContinue;
    var s1 := s.(loopState := Some(state.(iteration := state.iteration + 1)));
    OwnerRan(g, s);
    Indifferent(g, s, s1, {i});
    ContinueGood(g, s1, i, state.iteration + 1, inputs["next"], inputs);
  }

  lemma CompositeGood(g: Layer, env: Env, fuel: nat, s: State, i: nat, inputs: Inputs)
    requires ValidLayer(g) && Good(g, s, {i}) && Running(g, s, i) && g.nodes[i].Composite?
    ensures Left(g, RunComposite(g, env, fuel, s, i, inputs))
  {
    var s1 := Begin(g, s, i);
    BeginGood(g, s, i);
    if LacksPort(g, i, inputs) {
      EndsFailed(g, s1, i, s.iteration, MissingInput);
    } else {
      var layer := g.nodes[i].layer;
      ReturnGood(g, env, s1, i, Run(layer, env, fuel, fuel, Prepare(layer, Nested(g, s1, i, inputs), 0)));
    }
  }

  lemma ReturnGood(g: Layer, env: Env, s: State, i: nat, r: Step)
    requires Flat(g) && Good(g, s, {i}) && Running(g, s, i) && s.activations[i] > 0 && g.nodes[i].Composite?
    ensures Left(g, Return(g, env, s, i, r))
  {
    var t := Tick(Resume(s, r.s));
    Indifferent(g, s, t, {i});
    if !r.flow.Cut? {
      ClosedGood(g, t, i, r.s, env.cancelled(Resume(s, r.s).tick));
    }
  }

  lemma ClosedGood(g: Layer, s: State, i: nat, inner: State, cancelled: bool)
    requires Flat(g) && Good(g, s, {i}) && Running(g, s, i) && s.activations[i] > 0 && g.nodes[i].Composite?
    ensures Left(g, Closed(g, s, i, inner, cancelled))
  {
    if inner.cancelled || cancelled {
    } else if inner.timedOut || inner.failed != [] {
      EndsFailed(g, s, i, s.iteration, if inner.firstFailure.Some? then inner.firstFailure.value else LoopTimeout);
    } else {
      FinishGood(g, s, i, CompositeOutputs(g.nodes[i].outputs, inner.latest, map[]), s.iteration);
    }
  }

  // ---------------------------------------------------------------- the run loop

  lemma PopEvaluate(g: Layer, s: State)
    requires Flat(g) && Sized(g, s) && s.queue != [] && s.queue[0] < |g.nodes|
    ensures Sized(g, Pop(s)) && Evaluate(g, Pop(s), s.queue[0]) == Evaluate(g, s, s.queue[0])
  {
    var i := s.queue[0];
    assert HasControl(g, Pop(s), i) == HasControl(g, s, i);
    assert ControlToken(g, Pop(s), i) == ControlToken(g, s, i);
  }

  lemma DispatchGood(g: Layer, env: Env, fuel: nat, s: State)
    requires ValidLayer(g) && Good(g, s, {}) && s.queue != [] && s.queue[0] < |g.nodes|
    ensures Left(g, Dispatch(g, env, fuel, Pop(s), s.queue[0]))
  {
    hide Books, Live, Activate, SkipNode, Evaluate, ValidLayer;
    var t, i := Pop(s), s.queue[0];
    PopGood(g, s);
    ForgetAhead(g, t, {i});
    PopEvaluate(g, s);
    if i !in t.settled {
      match Evaluate(g, t, i)
      case Blocked =>
        PoppedIsNotBlocked(g, s);
        SkipGood(g, t, {}, i, NoActiveInput);
      case Wait =>
      case Go => ActivateGood(g, env, fuel, t, i);
    }
  }

  lemma ActivateGood(g: Layer, env: Env, fuel: nat, s: State, i: nat)
    requires ValidLayer(g) && Good(g, s, {i}) && Running(g, s, i)
    ensures Left(g, Activate(g, env, fuel, s, i))
  {
    hide Books, Live, HandleGate, RunNode, RunComposite, ConsumedInputs, ValidLayer;
    ConsumeGood(g, s, i);
    var s1, inputs := Consume(g, s, i), ConsumedInputs(g, s, i);
    if g.nodes[i].IsGate() {
      GateGood(g, env, s1, i, inputs);
    } else if g.nodes[i].Composite? {
      CompositeGood(g, env, fuel, s1, i, inputs);
    } else {
      NodeGood(g, env, s1, i, inputs);
    }
  }

  lemma TimeoutBooks(g: Layer, s: State)
    requires Flat(g) && Good(g, s, {}) && s.loopState.Some?
    ensures Books(g, FailLoopTimeout(g, s))
  {
    var i := s.loopState.value.gate;
    var iteration := Some(s.loopState.value.iteration);
    var s1 := Emit(Count(s, i), Started(i, s.activations[i] + 1, iteration, g.nodes[i].Composite?));
    var all := UpTo(|g.nodes|);
    forall p | 0 <= p < |s.queue| ensures s.queue[p] in all {
      assert s.queue[p] in s.queue;
    }
    assert Good(g, s1, all);
    FailGood(g, s1, all, i, s1.activations[i], iteration, LoopTimeout);
  }

  lemma TurnGood(g: Layer, env: Env, fuel: nat, s: State)
    requires ValidLayer(g) && Good(g, s, {})
    ensures Left(g, Turn(g, env, fuel, s))
  {
    hide Books, Live, EnqueueReady, Dispatch, ValidLayer;
    EnqueueGood(g, s, 0);
    var t := EnqueueReady(g, s, 0);
    if t.queue != [] {
      assert t.queue[0] in t.queue;
      DispatchGood(g, env, fuel, t);
    }
  }

  lemma FlagBooks(g: Layer, s: State)
    requires Flat(g) && Books(g, s)
    ensures Books(g, Tick(s).(cancelled := true)) && Books(g, Tick(s).(timedOut := true))
  {
  }

  lemma IterateGood(g: Layer, env: Env, fuel: nat, s: State)
    requires ValidLayer(g) && Good(g, s, {})
    ensures Left(g, Iterate(g, env, fuel, s))
  {
    hide Books, Live, Turn, FailLoopTimeout, ValidLayer;
    var s3 := Tick(Tick(Tick(s)));
    TickGood(g, s, {});
    TickGood(g, Tick(s), {});
    TickGood(g, Tick(Tick(s)), {});
    TurnGood(g, env, fuel, s3);
    if s3.loopState.Some? { TimeoutBooks(g, s3); }
    FlagBooks(g, s);
    FlagBooks(g, Tick(s));
    FlagBooks(g, Tick(Tick(s)));
  }

  lemma SkipSettles(g: Layer, s: State, i: nat)
    requires Flat(g) && Good(g, s, UpTo(|g.nodes|)) && i < |g.nodes| && s.activations[i] == 0
    ensures Good(g, SkipNode(g, s, i, NoActivationPath), UpTo(|g.nodes|))
    ensures i in SkipNode(g, s, i, NoActivationPath).settled
  {
    SkipGood(g, s, UpTo(|g.nodes|), i, NoActivationPath);
    assert i in MarkSkipped(s, i, NoActivationPath).settled;
  }

  lemma {:induction false} SettleBooks(g: Layer, s: State, from: nat)
    requires Flat(g) && Good(g, s, UpTo(|g.nodes|)) && from <= |g.nodes|
    requires forall i :: 0 <= i < from ==> i in s.settled || s.activations[i] > 0
    ensures var t := SettleUnreached(g, s, from);
      Books(g, t) && forall i :: 0 <= i < |g.nodes| ==> i in t.settled || t.activations[i] > 0
    decreases |g.nodes| - from
  {
    hide Books, Live, SkipNode, UpTo;
    if from < |g.nodes| {
      if from in s.settled || s.activations[from] > 0 {
        SettleBooks(g, s, from + 1);
      } else {
        SkipSettles(g, s, from);
        SettleBooks(g, SkipNode(g, s, from, NoActivationPath), from + 1);
      }
    }
  }

  lemma {:induction false} PrepareGood(g: Layer, s: State, from: nat)
    requires Flat(g) && Good(g, s, {}) && from <= |g.nodes|
    requires forall i :: 0 <= i < |g.nodes| ==> s.activations[i] == 0
    ensures Good(g, Prepare(g, s, from), {})
    decreases |g.nodes| - from
  {
    if from < |g.nodes| {
      if !g.nodes[from].enabled { SkipGood(g, s, {}, from, Disabled); }
      PrepareGood(g, if g.nodes[from].enabled then s else SkipNode(g, s, from, Disabled), from + 1);
    }
  }

  /** What a finished run reports. */
  ghost predicate Reported(g: Layer, s: State) {
    && |s.activations| == |g.nodes|
    && Distinct(s.skipped) && Distinct(s.failed)
    && (forall i :: i in s.skipped <==> 0 <= i < |g.nodes| && s.activations[i] == 0)
    && (forall i :: i in s.failed ==> i < |g.nodes| && s.activations[i] > 0)
  }

  lemma {:induction false} RunReports(g: Layer, env: Env, fuel: nat, n: nat, s: State)
    requires ValidLayer(g) && Good(g, s, {})
    ensures var r := Run(g, env, fuel, n, s); r.flow.Break? ==> Reported(g, r.s)
    decreases n
  {
    hide Books, Live, Iterate, SettleUnreached, ValidLayer, Reported;
    if n > 0 {
      var r := Iterate(g, env, fuel, s);
      IterateGood(g, env, fuel, s);
      match r.flow
      case Continue => RunReports(g, env, fuel, n - 1, r.s);
      case Cut =>
      case Break => EndReports(g, r.s);
    }
  }

  lemma EndReports(g: Layer, s: State)
    requires Flat(g) && Books(g, s)
    ensures Reported(g, SettleUnreached(g, s, 0))
  {
    var all := UpTo(|g.nodes|);
    forall p | 0 <= p < |s.queue| ensures s.queue[p] in all {
      assert s.queue[p] in s.queue;
    }
    SettleBooks(g, s, 0);
  }

  /** Every instance, the root's and every composite activation's, whatever the outside world
      does: if its run ends, it reports skipped exactly the nodes that never ran, each once, and
      reports failed only nodes that did. */
  lemma EveryRunReports(g: Layer, env: Env, fuel: nat, n: nat, scope: seq<nat>, deadline: Option<nat>,
                        seeds: map<(nat, string), Json.Json>, nextSeq: nat, trace: seq<Event>, tick: nat)
    requires ValidLayer(g)
    ensures var r := Run(g, env, fuel, n, Prepare(g, Fresh(g, scope, deadline, seeds, nextSeq, trace, tick), 0));
      r.flow.Break? ==> Reported(g, r.s)
  {
    var s := Fresh(g, scope, deadline, seeds, nextSeq, trace, tick);
    PrepareGood(g, s, 0);
    RunReports(g, env, fuel, n, Prepare(g, s, 0));
  }
}
