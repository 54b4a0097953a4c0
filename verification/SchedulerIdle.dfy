/** A run ends by itself only when nothing is left to do: the stores it leaves behind hold no trigger
    that a node could still act on. */
module SchedulerIdle {
  import opened Wrappers
  import opened Json
  import opened Workflow
  import opened SchedulerSpec
  import opened SchedulerExit
  import opened SchedulerStream
  import opened SchedulerLaw
  import opened SchedulerLedger
  import opened SchedulerLawful

  /** A data edge into a required port has been deactivated. */
  ghost predicate Starved(g: Layer, s: State, i: nat)
    requires Flat(g) && i < |g.nodes|
  {
    exists e :: e in g.incoming[i] && RequiredData(g, e) && e in s.inactive
  }

  /** A data edge has no value, no seed for its port, and may still bring one. */
  ghost predicate Awaits(g: Layer, s: State, i: nat)
    requires Flat(g) && i < |g.nodes|
  {
    exists e :: e in g.incoming[i] && g.edges[e].kind == Data && e !in s.tokens && e !in s.inactive
      && (i, g.edges[e].targetPort) !in s.seeds
  }

  /** Only data edges lead to the node, and no control seed is left for it. */
  ghost predicate DataOnly(g: Layer, s: State, i: nat)
    requires Flat(g) && i < |g.nodes|
  {
    && g.incoming[i] != [] && (forall e :: e in g.incoming[i] ==> g.edges[e].kind == Data)
    && forall port :: (i, port) in s.seeds ==> !ControlPort(g, i, port)
  }

  /** A value has come since the node last started; or, before that, any value or seed at all. */
  ghost predicate HasNews(g: Layer, s: State, i: nat)
    requires Flat(g) && i < |g.nodes| == |s.activations|
  {
    if s.activations[i] > 0 then exists e :: e in g.incoming[i] && e in s.freshData
    else (exists e :: e in g.incoming[i] && e in s.tokens) || exists port :: (i, port) in s.seeds
  }

  /** A control token is there, on an edge or as a seed. */
  ghost predicate Triggered(g: Layer, s: State, i: nat)
    requires Flat(g) && i < |g.nodes|
  {
    && g.incoming[i] != []
    && ((exists e :: e in g.incoming[i] && g.edges[e].kind == Control && e in s.tokens)
        || exists port :: (i, port) in s.seeds && ControlPort(g, i, port))
  }

  lemma TriggeredGoes(g: Layer, s: State, i: nat)
    requires Flat(g) && Sized(g, s) && i < |g.nodes| && Triggered(g, s, i) && !Starved(g, s, i)
    ensures Evaluate(g, s, i) == Go
  {
    hide ControlPort, RequiredData;
    if port :| (i, port) in s.seeds && ControlPort(g, i, port) {
      var k := (i, port);
      assert k in s.seeds && k.0 == i && ControlPort(g, i, k.1);
    } else {
      var e :| e in g.incoming[i] && g.edges[e].kind == Control && e in s.tokens;
      assert IsControl(g, e) && TokenOn(g, s, e);
    }
  }

  lemma NewsGoes(g: Layer, s: State, i: nat)
    requires Flat(g) && Sized(g, s) && i < |g.nodes| && DataOnly(g, s, i) && HasNews(g, s, i)
    requires !Awaits(g, s, i) && !Starved(g, s, i)
    ensures Evaluate(g, s, i) == Go
  {
    hide ControlPort, RequiredData;
    assert !HasControl(g, s, i);
    assert !DataPending(g, s, i);
    if s.activations[i] == 0 && !(exists e :: e in g.incoming[i] && e in s.tokens) {
      var port :| (i, port) in s.seeds;
      assert SeededAny(s, i) by { var k := (i, port); assert k in s.seeds && k.0 == i; }
    }
  }

  /** What the node has to do stays to be done while others are skipped. */
  lemma StillDue(g: Layer, s: State, t: State, i: nat)
    requires Flat(g) && i < |g.nodes| && |s.activations| == |t.activations| == |g.nodes|
    requires t.tokens == s.tokens && t.freshData == s.freshData && t.seeds == s.seeds && t.activations == s.activations
    requires s.inactive <= t.inactive
    ensures Triggered(g, s, i) <==> Triggered(g, t, i)
    ensures DataOnly(g, s, i) && HasNews(g, s, i) <==> DataOnly(g, t, i) && HasNews(g, t, i)
    ensures Awaits(g, t, i) ==> Awaits(g, s, i)
    ensures Starved(g, s, i) ==> Starved(g, t, i)
  {
    hide ControlPort, RequiredData;
  }

  /** A pass over the nodes that enlists none leaves none with something to do. */
  lemma {:induction false} PassLeavesNothing(g: Layer, s: State, from: nat)
    requires Flat(g) && Sized(g, s) && from <= |g.nodes| && EnqueueReady(g, s, from).queue == []
    requires forall i :: i in s.queued ==> i in s.queue
    ensures var t := EnqueueReady(g, s, from);
      && s.queue == [] && t.tokens == s.tokens && t.freshData == s.freshData && t.seeds == s.seeds
      && t.activations == s.activations && s.inactive <= t.inactive && s.settled <= t.settled
      && forall i :: from <= i < |g.nodes| && i !in t.settled && !Starved(g, t, i) ==>
           !Triggered(g, s, i) && (DataOnly(g, s, i) && HasNews(g, s, i) ==> Awaits(g, s, i))
    decreases |g.nodes| - from
  {
    hide Evaluate, SkipNode, Flat, Triggered, DataOnly, HasNews, Awaits, Starved;
    if from < |g.nodes| {
      var t := EnqueueReady(g, s, from);
      if from in s.settled || from in s.queued {
        PassLeavesNothing(g, s, from + 1);
      } else {
        match Evaluate(g, s, from)
        case Go =>
          PassLeavesNothing(g, s.(queued := s.queued + {from}, queue := s.queue + [from]), from + 1);
        case Blocked =>
          PassStep(g, s, if s.activations[from] == 0 then SkipNode(g, s, from, NoActiveInput) else s, from);
        case Wait => PassStep(g, s, s, from);
      }
    }
  }

  lemma {:induction false} PassStep(g: Layer, s: State, s1: State, from: nat)
    requires Flat(g) && Sized(g, s) && Sized(g, s1) && from < |g.nodes| && EnqueueReady(g, s1, from + 1).queue == []
    requires Evaluate(g, s, from) != Go && Cascades(g, s, s1) && forall i :: i in s.queued ==> i in s.queue
    ensures var t := EnqueueReady(g, s1, from + 1);
      && s.queue == [] && t.tokens == s.tokens && t.freshData == s.freshData && t.seeds == s.seeds
      && t.activations == s.activations && s.inactive <= t.inactive && s.settled <= t.settled
      && forall i :: from <= i < |g.nodes| && i !in t.settled && !Starved(g, t, i) ==>
           !Triggered(g, s, i) && (DataOnly(g, s, i) && HasNews(g, s, i) ==> Awaits(g, s, i))
    decreases |g.nodes| - from, 0
  {
    hide Evaluate, EnqueueReady, Flat, Triggered, DataOnly, HasNews, Awaits, Starved;
    var t := EnqueueReady(g, s1, from + 1);
    PassLeavesNothing(g, s1, from + 1);
    forall i | from <= i < |g.nodes| && i !in t.settled && !Starved(g, t, i)
      ensures !Triggered(g, s, i) && (DataOnly(g, s, i) && HasNews(g, s, i) ==> Awaits(g, s, i))
    {
      StillDue(g, s, s1, i);
      StillDue(g, s, t, i);
      if i == from {
        if Triggered(g, s, i) { TriggeredGoes(g, s, i); }
        if DataOnly(g, s, i) && HasNews(g, s, i) && !Awaits(g, s, i) { NewsGoes(g, s, i); }
      }
    }
  }

  // ---------------------------------------------------------------- the last turn

  /** The run broke off although no node was activated, cancelled or timed out. */
  ghost predicate EndsByItself(before: State, r: Step) {
    r.flow.Break? && !r.s.cancelled && !r.s.timedOut && r.s.activations == before.activations
  }

  /** Then its last turn found nothing to enlist. */
  lemma LastTurnIsIdle(g: Layer, env: Env, fuel: nat, s: State)
    requires ValidLayer(g) && Sized(g, s) && EndsByItself(s, Iterate(g, env, fuel, s))
    ensures var s3 := Tick(Tick(Tick(s)));
      EnqueueReady(g, s3, 0).queue == [] && Iterate(g, env, fuel, s).s == EnqueueReady(g, s3, 0)
  {
    hide EnqueueReady, Activate, SkipNode, Evaluate, FailGate, ValidLayer, Flat;
    var s3 := Tick(Tick(Tick(s)));
    IterateIs(g, env, fuel, s);
    if Expired(env, Tick(Tick(s))) {
      if s.loopState.Some? { TimeoutCounts(g, s3); }
    } else {
      var t := EnqueueReady(g, s3, 0);
      EnqueueSkims(g, s3, 0);
      if t.queue != [] { DispatchCounts(g, env, fuel, Pop(t), t.queue[0]); }
    }
  }

  lemma TimeoutCounts(g: Layer, s: State)
    requires Flat(g) && Sized(g, s) && s.loopState.Some?
    ensures FailLoopTimeout(g, s).activations != s.activations
  {
    hide FailGate;
    var i := s.loopState.value.gate;
    assert FailLoopTimeout(g, s).activations[i] == s.activations[i] + 1;
  }

  /** A turn that breaks off the run has activated a node. */
  lemma DispatchCounts(g: Layer, env: Env, fuel: nat, s: State, i: nat)
    requires ValidLayer(g) && Sized(g, s) && i < |g.nodes| && Dispatch(g, env, fuel, s, i).flow.Break?
    ensures Dispatch(g, env, fuel, s, i).s.activations != s.activations
  {
    hide Activate, SkipNode, Evaluate, ValidLayer, Flat;
    var r := Dispatch(g, env, fuel, s, i);
    assert r.s.activations[i] == s.activations[i] + 1;
  }

  /** One turn more than a run that had not ended. */
  lemma {:induction false} OneMoreTurn(g: Layer, env: Env, fuel: nat, n: nat, s: State)
    requires ValidLayer(g) && Good(g, s, {}) && Run(g, env, fuel, n, s).flow.Cut? &&
      Run(g, env, fuel, n + 1, s).flow.Break?
    ensures var u := Run(g, env, fuel, n, s).s;
      && Good(g, u, {}) && Iterate(g, env, fuel, u).flow.Break?
      && Run(g, env, fuel, n + 1, s).s == SettleUnreached(g, Iterate(g, env, fuel, u).s, 0)
    decreases n
  {
    assert Sized(g, s);
    hide Iterate, Books, Live, SettleUnreached, ValidLayer, Run;
    RunIs(g, env, fuel, n, s);
    RunIs(g, env, fuel, n + 1, s);
    IterateGood(g, env, fuel, s);
    var r := Iterate(g, env, fuel, s);
    RunIs(g, env, fuel, 0, r.s);
    if n > 0 && r.flow.Continue? {
      OneMoreTurn(g, env, fuel, n - 1, r.s);
    }
  }

  lemma {:induction false} SettleKeeps(g: Layer, s: State, from: nat)
    requires Flat(g) && Sized(g, s) && from <= |g.nodes|
    ensures var t := SettleUnreached(g, s, from); s.settled <= t.settled && s.inactive <= t.inactive
    decreases |g.nodes| - from
  {
    hide SkipNode, Flat;
    if from < |g.nodes| {
      SettleKeeps(g,
        if from in s.settled || s.activations[from] > 0 then s else SkipNode(g, s, from, NoActivationPath), from + 1);
    }
  }

  /** Of any instance: when its run ends by itself, after `n` turns that went on and one more, every
      control token left in store lies on an edge into a node that is settled or starved, and so does
      every control seed of a node with incoming edges; and no other node that only data leads to has
      news while it awaits nothing.  What it awaits is read before the last turn, because the skips
      at the end of the run deactivate edges of their own. */
  lemma NothingIsLeftToDo(g: Layer, env: Env, fuel: nat, n: nat, s: State)
    requires ValidLayer(g) && s == Fresh(g, s.scope, s.parentDeadline, s.seeds, s.nextSeq, s.trace, s.tick)
    requires Run(g, env, fuel, n, Prepare(g, s, 0)).flow.Cut?
    requires EndsByItself(Run(g, env, fuel, n, Prepare(g, s, 0)).s, Run(g, env, fuel, n + 1, Prepare(g, s, 0)))
    ensures var u, t := Run(g, env, fuel, n, Prepare(g, s, 0)).s, Run(g, env, fuel, n + 1, Prepare(g, s, 0)).s;
      && t.tokens == u.tokens && t.freshData == u.freshData && t.seeds == u.seeds
      && (forall e :: 0 <= e < |g.edges| && g.edges[e].kind == Control && e in t.tokens ==>
            g.edges[e].target in t.settled || Starved(g, t, g.edges[e].target))
      && (forall i, port ::
        0 <= i < |g.nodes| && g.incoming[i] != [] && (i, port) in t.seeds && ControlPort(g, i, port) ==>
            i in t.settled || Starved(g, t, i))
      && (forall i :: 0 <= i < |g.nodes| && DataOnly(g, t, i) && HasNews(g, t, i) && !Awaits(g, u, i) ==>
            i in t.settled || Starved(g, t, i))
  {
    hide Run, Prepare, Iterate, EnqueueReady, SettleUnreached, Evaluate, Books, Live, ControlPort, RequiredData,
      ValidLayer;
    var p := Prepare(g, s, 0);
    FreshRuled(g, env, s, s.seeds);
    OneMoreTurn(g, env, fuel, n, p);
    var u, t := Run(g, env, fuel, n, p).s, Run(g, env, fuel, n + 1, p).s;
    var v := Iterate(g, env, fuel, u).s;
    SettleSkims(g, v, 0);
    SettleFlags(g, v, 0);
    SettleKeeps(g, v, 0);
    LastTurnIsIdle(g, env, fuel, u);
    BooksQueue(g, u);
    PassLeavesNothing(g, Tick(Tick(Tick(u))), 0);
    RestsIn(g, u, v, t);
  }

  lemma BooksQueue(g: Layer, s: State)
    requires Flat(g) && Books(g, s)
    ensures forall i :: i in s.queued ==> i in s.queue
  {
  }

  /** From the state the pass leaves to the one after the final skips. */
  lemma RestsIn(g: Layer, u: State, v: State, t: State)
    requires Flat(g) && |u.activations| == |v.activations| == |t.activations| == |g.nodes|
    requires v.tokens == u.tokens && v.freshData == u.freshData && v.seeds == u.seeds && v.activations == u.activations
    requires t.tokens == v.tokens && t.freshData == v.freshData && t.seeds == v.seeds && t.activations == v.activations
    requires u.inactive <= v.inactive <= t.inactive && v.settled <= t.settled
    requires forall i :: 0 <= i < |g.nodes| && i !in v.settled && !Starved(g, v, i) ==>
      !Triggered(g, u, i) && (DataOnly(g, u, i) && HasNews(g, u, i) ==> Awaits(g, u, i))
    ensures forall e :: 0 <= e < |g.edges| && g.edges[e].kind == Control && e in t.tokens ==>
      g.edges[e].target in t.settled || Starved(g, t, g.edges[e].target)
    ensures forall i, port ::
      0 <= i < |g.nodes| && g.incoming[i] != [] && (i, port) in t.seeds && ControlPort(g, i, port) ==>
        i in t.settled || Starved(g, t, i)
    ensures forall i :: 0 <= i < |g.nodes| && DataOnly(g, t, i) && HasNews(g, t, i) && !Awaits(g, u, i) ==>
      i in t.settled || Starved(g, t, i)
  {
    hide ControlPort, RequiredData;
    forall i | 0 <= i < |g.nodes|
      ensures Starved(g, v, i) ==> Starved(g, t, i)
      ensures Triggered(g, u, i) <==> Triggered(g, t, i)
      ensures DataOnly(g, u, i) && HasNews(g, u, i) <==> DataOnly(g, t, i) && HasNews(g, t, i)
    {
      StillDue(g, u, t, i);
      StillDue(g, v, t, i);
    }
    forall e | 0 <= e < |g.edges| && g.edges[e].kind == Control && e in t.tokens
      ensures Triggered(g, t, g.edges[e].target) {
      assert e in g.incoming[g.edges[e].target];
    }
  }
}
