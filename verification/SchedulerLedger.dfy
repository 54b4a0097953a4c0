/** What each step of the scheduler enters in its event stream, and that its stores follow: cascades,
    handing on outputs, single events, and the inputs an activation takes. */
module SchedulerLedger {
  import opened Wrappers
  import opened Json
  import opened Workflow
  import opened SchedulerSpec
  import opened SchedulerExit
  import opened SchedulerStream
  import opened SchedulerLaw

  // ---------------------------------------------------------------- what a step adds to the stream

  /** The step only appends to the stream, and at the instance's own scope. */
  ghost predicate Adds(s: State, t: State) {
    && t.scope == s.scope && s.trace <= t.trace
    && forall k :: |s.trace| <= k < |t.trace| ==> t.trace[k].scope == s.scope
  }

  ghost function Said(s: State, t: State): seq<Body>
    requires s.trace <= t.trace
  {
    seq(|t.trace| - |s.trace|, k requires 0 <= k < |t.trace| - |s.trace| => t.trace[|s.trace| + k].body)
  }

  ghost function Told(s: State, from: nat): seq<Body> {
    At(s.trace, from, s.scope)
  }

  lemma {:induction false} AddsTold(s: State, t: State, from: nat)
    requires Adds(s, t) && from <= |s.trace|
    ensures Told(t, from) == Told(s, from) + Said(s, t)
    decreases |t.trace|
  {
    if |t.trace| == |s.trace| {
      assert t.trace == s.trace;
    } else {
      var m := |t.trace| - 1;
      var u := t.(trace := t.trace[..m]);
      AddsTold(s, u, from);
      assert Said(s, t) == Said(s, u) + [t.trace[m].body];
    }
  }

  lemma SaidTwice(s: State, t: State, u: State)
    requires Adds(s, t) && Adds(t, u)
    ensures Adds(s, u) && Said(s, u) == Said(s, t) + Said(t, u)
  {
    forall k | |s.trace| <= k < |u.trace| ensures u.trace[k].scope == s.scope {
      if k < |t.trace| { assert u.trace[k] == t.trace[k]; }
    }
  }

  lemma EmitSays(s: State, body: Body)
    ensures Adds(s, Emit(s, body)) && Said(s, Emit(s, body)) == [body]
  {
  }

  // ---------------------------------------------------------------- cascades

  /** Log lines and skips alone are added, and the nodes skipped are settled. */
  ghost predicate Skims(g: Layer, s: State, t: State)
    requires Flat(g)
  {
    && Adds(s, t) && Neutral(g, Said(s, t))
    && forall i :: 0 <= i < |g.nodes| ==> (i in t.settled <==> i in s.settled || WasSkipped(Said(s, t), i))
  }

  lemma SkimsNothing(g: Layer, s: State, t: State)
    requires Flat(g) && t.trace == s.trace && t.scope == s.scope && t.settled == s.settled
    ensures Skims(g, s, t) && Said(s, t) == []
  {
  }

  lemma SkimsTwice(g: Layer, s: State, t: State, u: State)
    requires Flat(g) && Skims(g, s, t) && Skims(g, t, u)
    ensures Skims(g, s, u)
  {
    hide WasSkipped;
    SaidTwice(s, t, u);
    Outcomes(Said(s, t), Said(t, u));
    NeutralTwice(g, Said(s, t), Said(t, u));
  }

  lemma NeutralTwice(g: Layer, a: seq<Body>, b: seq<Body>)
    requires Flat(g) && Neutral(g, a) && Neutral(g, b)
    ensures Neutral(g, a + b)
  {
  }

  /** Why a node may be skipped for this reason. */
  ghost predicate Reasonable(g: Layer, i: nat, reason: Reason)
    requires Flat(g)
  {
    && i < |g.nodes| && (reason.Disabled? ==> !g.nodes[i].enabled)
    && (reason.NoActiveInput? ==> g.incoming[i] != [])
  }

  lemma MarkSkims(g: Layer, s: State, i: nat, reason: Reason)
    requires Flat(g) && Sized(g, s) && Reasonable(g, i, reason)
    ensures Skims(g, s, MarkSkipped(s, i, reason))
  {
    var s1 := s.(settled := s.settled + {i});
    var b := Skipped(i, reason, s.activations[i], s.iteration);
    EmitSays(s1, b);
    assert Said(s, MarkSkipped(s, i, reason)) == [b];
    assert [b][0] == b && SkipOf(g, b);
  }

  lemma {:induction false} AllSkims(g: Layer, s: State, es: seq<nat>)
    requires Flat(g) && Sized(g, s) && EdgesOf(g, es)
    ensures Skims(g, s, DeactivateAll(g, s, es))
    decreases |Unsettled(g, s)|, 2, |es|
  {
    hide Skims, Flat;
    if es == [] {
      SkimsNothing(g, s, s);
    } else {
      var s1 := DeactivateEdge(g, s, es[0]);
      EdgeSkims(g, s, es[0]);
      SubsetCardinality(Unsettled(g, s1), Unsettled(g, s));
      AllSkims(g, s1, es[1..]);
      SkimsTwice(g, s, s1, DeactivateAll(g, s, es));
    }
  }

  lemma {:induction false} EdgeSkims(g: Layer, s: State, e: nat)
    requires Flat(g) && Sized(g, s) && e < |g.edges|
    ensures Skims(g, s, DeactivateEdge(g, s, e))
    decreases |Unsettled(g, s)|, 1, 0
  {
    hide Skims;
    if e in s.inactive {
      SkimsNothing(g, s, s);
    } else {
      var s1 := s.(inactive := s.inactive + {e});
      SkimsNothing(g, s, s1);
      var target := g.edges[e].target;
      if target !in s.settled && s.activations[target] == 0 && Evaluate(g, s1, target) == Blocked {
        assert e in g.incoming[target];
        SkipSkims(g, s1, target, NoActiveInput);
        SkimsTwice(g, s, s1, SkipNode(g, s1, target, NoActiveInput));
      }
    }
  }

  lemma {:induction false} SkipSkims(g: Layer, s: State, i: nat, reason: Reason)
    requires Flat(g) && Sized(g, s) && Reasonable(g, i, reason)
    ensures Skims(g, s, SkipNode(g, s, i, reason))
    decreases |Unsettled(g, s)|, 0, 0
  {
    hide Skims, Flat;
    if i in s.settled {
      SkimsNothing(g, s, s);
    } else {
      var s1 := MarkSkipped(s, i, reason);
      assert i in Unsettled(g, s) && i !in Unsettled(g, s1);
      SubsetCardinality(Unsettled(g, s1), Unsettled(g, s));
      MarkSkims(g, s, i, reason);
      AllSkims(g, s1, Out(g, i));
      SkimsTwice(g, s, s1, DeactivateAll(g, s1, Out(g, i)));
    }
  }

  lemma {:induction false} EnqueueSkims(g: Layer, s: State, from: nat)
    requires Flat(g) && Sized(g, s) && from <= |g.nodes|
    ensures var t := EnqueueReady(g, s, from); Skims(g, s, t) && SameStores(s, t)
    decreases |g.nodes| - from
  {
    hide Skims, Flat, SkipNode, Evaluate;
    SkimsNothing(g, s, s);
    if from < |g.nodes| {
      if from in s.settled || from in s.queued {
        EnqueueSkims(g, s, from + 1);
      } else {
        match Evaluate(g, s, from)
        case Go =>
          var s1 := s.(queued := s.queued + {from}, queue := s.queue + [from]);
          SkimsNothing(g, s, s1);
          EnqueueSkims(g, s1, from + 1);
          SkimsTwice(g, s, s1, EnqueueReady(g, s1, from + 1));
        case Blocked =>
          var s1 := if s.activations[from] == 0 then SkipNode(g, s, from, NoActiveInput) else s;
          BlockedHasEdges(g, s, from);
          if s.activations[from] == 0 { SkipSkims(g, s, from, NoActiveInput); }
          EnqueueSkims(g, s1, from + 1);
          SkimsTwice(g, s, s1, EnqueueReady(g, s1, from + 1));
        case Wait => EnqueueSkims(g, s, from + 1);
      }
    }
  }

  lemma BlockedHasEdges(g: Layer, s: State, i: nat)
    requires Flat(g) && Sized(g, s) && i < |g.nodes| && Evaluate(g, s, i) == Blocked
    ensures g.incoming[i] != []
  {
  }

  /** What the record speaks of, but for the settled nodes. */
  ghost predicate SameStores(s: State, t: State) {
    && t.tokens == s.tokens && t.freshData == s.freshData && t.seeds == s.seeds && t.latest == s.latest
    && t.failed == s.failed && t.firstFailure == s.firstFailure && t.activations == s.activations && t.fired == s.fired
  }

  lemma {:induction false} PrepareSkims(g: Layer, s: State, from: nat)
    requires Flat(g) && Sized(g, s) && from <= |g.nodes|
    ensures var t := Prepare(g, s, from); Skims(g, s, t) && SameStores(s, t)
    ensures forall i :: from <= i < |g.nodes| && !g.nodes[i].enabled ==> i in Prepare(g, s, from).settled
    ensures s.settled <= Prepare(g, s, from).settled
    decreases |g.nodes| - from
  {
    hide Skims, Flat, SkipNode;
    SkimsNothing(g, s, s);
    if from < |g.nodes| && !g.nodes[from].enabled {
      SkipSkims(g, s, from, Disabled);
      var s1 := SkipNode(g, s, from, Disabled);
      SkipSettlesIt(g, s, from, Disabled);
      PrepareSkims(g, s1, from + 1);
      SkimsTwice(g, s, s1, Prepare(g, s1, from + 1));
    } else if from < |g.nodes| {
      PrepareSkims(g, s, from + 1);
    }
  }

  lemma SkipSettlesIt(g: Layer, s: State, i: nat, reason: Reason)
    requires Flat(g) && Sized(g, s) && i < |g.nodes|
    ensures i in SkipNode(g, s, i, reason).settled
  {
    if i !in s.settled { assert i in MarkSkipped(s, i, reason).settled; }
  }

  lemma {:induction false} SettleSkims(g: Layer, s: State, from: nat)
    requires Flat(g) && Sized(g, s) && from <= |g.nodes|
    ensures var t := SettleUnreached(g, s, from); Skims(g, s, t) && SameStores(s, t)
    decreases |g.nodes| - from
  {
    hide Skims, Flat, SkipNode;
    SkimsNothing(g, s, s);
    if from < |g.nodes| {
      if from in s.settled || s.activations[from] > 0 {
        SettleSkims(g, s, from + 1);
      } else {
        SkipSkims(g, s, from, NoActivationPath);
        var s1 := SkipNode(g, s, from, NoActivationPath);
        SettleSkims(g, s1, from + 1);
        SkimsTwice(g, s, s1, SettleUnreached(g, s1, from + 1));
      }
    }
  }

  lemma SkimRecords(g: Layer, seeds: Seeds, s: State, t: State, told: seq<Body>)
    requires Flat(g) && Skims(g, s, t) && SameStores(s, t)
    ensures Results(g, s, told) ==> Results(g, t, told + Said(s, t))
    ensures Records(g, seeds, s, told) ==> Records(g, seeds, t, told + Said(s, t))
  {
    hide Token, Recent, Latest, Runs, Failure, HasFailed, WasSkipped;
    NeutralReads(g, told, Said(s, t));
    Outcomes(told, Said(s, t));
    NeutralOutcomes(g, Said(s, t));
  }

  // ---------------------------------------------------------------- handing on outputs

  /** Of these edges, tokens and fresh marks are what the finish `b` makes of them. */
  ghost predicate Hands(g: Layer, s: State, t: State, b: Body, es: seq<nat>)
    requires Flat(g)
  {
    && (forall e :: 0 <= e < |g.edges| ==>
          Get(t.tokens, e) == if e in es then TokenAfter(g, e, b, Get(s.tokens, e)) else Get(s.tokens, e))
    && (forall e :: 0 <= e < |g.edges| ==>
          (e in t.freshData <==>
           if e in es && !IsControl(g, e) then FreshAfter(g, e, b, e in s.freshData) else e in s.freshData))
  }

  /** What `Propagate` does with the first edge. */
  ghost function Handed(g: Layer, s: State, i: nat, outputs: Inputs, e: nat): (t: State)
    requires Flat(g) && Sized(g, s) && i < |g.nodes| && e < |g.edges|
    ensures Sized(g, t)
  {
    if g.edges[e].sourcePort in outputs then Deliver(g, s, e, outputs[g.edges[e].sourcePort])
    else if g.nodes[i].IsGate() then s
    else if !IsControl(g, e) then Withdraw(s, e)
    else DeactivateEdge(g, s, e)
  }

  lemma HandsOne(g: Layer, s: State, i: nat, outputs: Inputs, e: nat, b: Body)
    requires Flat(g) && Sized(g, s) && i < |g.nodes| && e < |g.edges| && g.edges[e].source == i
    requires b.Finished? && b.node == i && b.outputs == outputs
    ensures var t := Handed(g, s, i, outputs, e); Skims(g, s, t) && Hands(g, s, t, b, [e])
  {
    hide DeactivateEdge, Flat, Skims;
    if g.edges[e].sourcePort !in outputs && !g.nodes[i].IsGate() && IsControl(g, e) {
      EdgeSkims(g, s, e);
    } else {
      SkimsNothing(g, s, Handed(g, s, i, outputs, e));
    }
  }

  lemma HandsTwice(g: Layer, s: State, t: State, u: State, b: Body, e: nat, es: seq<nat>)
    requires Flat(g) && b.Finished? && Hands(g, s, t, b, [e]) && Hands(g, t, u, b, es)
    ensures Hands(g, s, u, b, [e] + es)
  {
    hide Flat;
    assert forall d :: d in [e] + es <==> d in [e] || d in es;
  }

  lemma PropagateStep(g: Layer, s: State, i: nat, outputs: Inputs, es: seq<nat>)
    requires Flat(g) && Sized(g, s) && i < |g.nodes| && EdgesOf(g, es)
    ensures Propagate(g, s, i, outputs, es) ==
      if es == [] then s else Propagate(g, Handed(g, s, i, outputs, es[0]), i, outputs, es[1..])
  {
    hide Deliver, Withdraw, DeactivateEdge, Flat;
  }

  lemma {:induction false} PropagateHands(g: Layer, s: State, i: nat, outputs: Inputs, es: seq<nat>, b: Body)
    requires Flat(g) && Sized(g, s) && i < |g.nodes| && EdgesOf(g, es)
    requires b.Finished? && b.node == i && b.outputs == outputs
    requires forall k :: 0 <= k < |es| ==> g.edges[es[k]].source == i
    ensures var t := Propagate(g, s, i, outputs, es); Skims(g, s, t) && Hands(g, s, t, b, es)
    decreases |es|
  {
    hide Skims, Hands, Propagate, Handed, Flat, Sized;
    PropagateStep(g, s, i, outputs, es);
    if es == [] {
      SkimsNothing(g, s, s);
      HandsNothing(g, s, b);
    } else {
      var t := Handed(g, s, i, outputs, es[0]);
      HandsOne(g, s, i, outputs, es[0], b);
      PropagateHands(g, t, i, outputs, es[1..], b);
      SkimsTwice(g, s, t, Propagate(g, s, i, outputs, es));
      HandsTwice(g, s, t, Propagate(g, s, i, outputs, es), b, es[0], es[1..]);
      assert [es[0]] + es[1..] == es;
    }
  }

  lemma HandsNothing(g: Layer, s: State, b: Body)
    requires Flat(g)
    ensures Hands(g, s, s, b, [])
  {
  }

  // ---------------------------------------------------------------- single events

  /** One event is entered, and log lines and skips behind it. */
  ghost predicate Enters(g: Layer, s: State, t: State, b: Body)
    requires Flat(g)
  {
    Adds(s, t) && Said(s, t) != [] && Said(s, t)[0] == b && Leaps(g, s, t, b, Said(s, t)[1..])
  }

  lemma EntersRecords(g: Layer, seeds: Seeds, s: State, t: State, b: Body, told: seq<Body>)
    requires Flat(g) && Enters(g, s, t, b) && Results(g, s, told)
    ensures Results(g, t, told + Said(s, t)) && (Records(g, seeds, s, told) ==> Records(g, seeds, t, told + Said(s, t)))
  {
    hide Stores, LeapsOn;
    var rest := Said(s, t)[1..];
    assert told + Said(s, t) == told + [b] + rest;
    LeapResults(g, s, t, told, b, rest);
    if Stores(g, seeds, s, told) { LeapStores(g, seeds, s, t, told, b, rest); }
  }

  /** Control edges are never marked fresh. */
  ghost predicate Unmarked(g: Layer, s: State)
    requires Flat(g)
  {
    forall e :: 0 <= e < |g.edges| && IsControl(g, e) ==> e !in s.freshData
  }

  lemma RecordsUnmarked(g: Layer, seeds: Seeds, s: State, told: seq<Body>)
    requires Flat(g) && Records(g, seeds, s, told)
    ensures Unmarked(g, s)
  {
  }

  /** A log line or a skip cannot be mistaken for the event it follows. */
  lemma ThenSkims(g: Layer, s: State, s2: State, t: State, b: Body)
    requires Flat(g) && s2.scope == s.scope && s2.trace == s.trace + [Event(s.nextSeq, s.scope, b)] && Skims(g, s2, t)
    ensures Adds(s, t) && Said(s, t) == [b] + Said(s2, t) && Said(s, t)[1..] == Said(s2, t)
  {
    assert Adds(s, s2) && Said(s, s2) == [b];
    SaidTwice(s, s2, t);
  }

  lemma EntersThenSkims(g: Layer, s: State, s2: State, t: State, b: Body)
    requires Flat(g) && s2.scope == s.scope && s2.trace == s.trace + [Event(s.nextSeq, s.scope, b)]
    requires Leaps(g, s, s2, b, []) && Skims(g, s2, t) && SameStores(s2, t)
    ensures Enters(g, s, t, b)
  {
    hide Skims, Neutral, HasFailed, WasSkipped, TokenAfter, FreshAfter, LatestAfter, FailureAfter, NamedControl;
    ThenSkims(g, s, s2, t, b);
    SkimsMeans(g, s2, t);
    NothingSkipped();
  }

  lemma NothingSkipped()
    ensures forall i: nat :: !WasSkipped([], i)
  {
  }

  /** The failure is listed, the node settled. */
  ghost function FailMarked(s: State, i: nat, code: Code, b: Body): State {
    var s1 := Emit(s.(firstFailure := if s.firstFailure.None? then Some(code) else s.firstFailure), b);
    s1.(settled := s1.settled + {i}, failed := if i in s1.failed then s1.failed else s1.failed + [i])
  }

  lemma FailLeaps(g: Layer, s: State, i: nat, activation: nat, iteration: Option<nat>, code: Code)
    requires Flat(g) && Sized(g, s) && i < |g.nodes| && Unmarked(g, s)
    ensures var b := Failed(i, code, activation, iteration); Leaps(g, s, FailMarked(s, i, code, b), b, [])
  {
    hide NamedControl;
    var b := Failed(i, code, activation, iteration);
    assert [b][0] == b;
    NoSkip(b);
    NothingSkipped();
  }

  lemma FailEnters(g: Layer, s: State, i: nat, activation: nat, iteration: Option<nat>, code: Code)
    requires Flat(g) && Sized(g, s) && i < |g.nodes| && Unmarked(g, s)
    ensures Enters(g, s, FailStarted(g, s, i, activation, iteration, code), Failed(i, code, activation, iteration))
  {
    hide Skims, Leaps, Enters, DeactivateAll, Flat;
    var b := Failed(i, code, activation, iteration);
    FailLeaps(g, s, i, activation, iteration, code);
    AllSkims(g, FailMarked(s, i, code, b), Out(g, i));
    EntersThenSkims(g, s, FailMarked(s, i, code, b), FailStarted(g, s, i, activation, iteration, code), b);
  }

  lemma NoSkip(b: Body)
    requires !b.Skipped?
    ensures forall i: nat :: !WasSkipped([b], i)
  {
  }

  lemma SkimsMeans(g: Layer, s: State, t: State)
    requires Flat(g) && Skims(g, s, t)
    ensures Adds(s, t) && Neutral(g, Said(s, t))
    ensures forall i :: 0 <= i < |g.nodes| ==> (i in t.settled <==> i in s.settled || WasSkipped(Said(s, t), i))
  {
  }

  /** What handing on leaves alone. */
  ghost predicate SameResults(s: State, t: State) {
    && t.latest == s.latest && t.failed == s.failed && t.firstFailure == s.firstFailure && t.seeds == s.seeds
    && t.activations == s.activations && t.fired == s.fired
  }

  /** A finish, from the state in which it is announced to the one in which it is handed on. */
  lemma HandsEnter(g: Layer, s: State, s2: State, t: State, i: nat, b: Body)
    requires Flat(g) && i < |g.nodes| && Unmarked(g, s) && b.Finished? && b.node == i && |s.activations| == |g.nodes|
    requires s2.scope == s.scope && s2.trace == s.trace + [Event(s.nextSeq, s.scope, b)]
    requires s2 == s.(trace := s2.trace, nextSeq := s2.nextSeq, latest := s2.latest)
    requires forall k :: 0 <= k < |g.nodes| ==> Get(s2.latest, k) == LatestAfter(g, k, b, Get(s.latest, k))
    requires Skims(g, s2, t) && Hands(g, s2, t, b, Out(g, i)) && SameResults(s2, t)
    ensures Enters(g, s, t, b)
  {
    hide Skims, Neutral, HasFailed, WasSkipped, TokenAfter, FreshAfter, LatestAfter, NamedControl, Hands;
    ThenSkims(g, s, s2, t, b);
    SkimsMeans(g, s2, t);
    HandsAll(g, s2, t, i, b);
    NoSkip(b);
    NoFail(b);
  }

  lemma NoFail(b: Body)
    requires !b.Failed?
    ensures forall i: nat :: !HasFailed([b], i)
  {
  }

  lemma FinishEnters(g: Layer, s: State, i: nat, outputs: Inputs, iteration: Option<nat>)
    requires Flat(g) && Sized(g, s) && i < |g.nodes| && Unmarked(g, s) && !g.nodes[i].IsGate()
    ensures Enters(g, s, Finish(g, s, i, outputs, iteration), Finished(i, outputs, s.activations[i], iteration))
  {
    hide Skims, Hands, Propagate, Enters, Flat;
    var b := Finished(i, outputs, s.activations[i], iteration);
    var s2 := Emit(s, b).(latest := s.latest[i := outputs]);
    OwnEdges(g, i);
    PropagateHands(g, s2, i, outputs, Out(g, i), b);
    HandsEnter(g, s, s2, Propagate(g, s2, i, outputs, Out(g, i)), i, b);
  }

  /** Handed on over all edges out of the node, the finish has its whole effect. */
  lemma HandsAll(g: Layer, s: State, t: State, i: nat, b: Body)
    requires Flat(g) && i < |g.nodes| && b.Finished? && b.node == i && Hands(g, s, t, b, Out(g, i)) && Unmarked(g, s)
    ensures forall e :: 0 <= e < |g.edges| ==> Get(t.tokens, e) == TokenAfter(g, e, b, Get(s.tokens, e))
    ensures forall e :: 0 <= e < |g.edges| ==> (e in t.freshData <==> FreshAfter(g, e, b, e in s.freshData))
  {
    forall e | 0 <= e < |g.edges| ensures e in Out(g, i) <==> g.edges[e].source == i {
      assert e in g.outgoing[g.edges[e].source];
    }
  }

  lemma CancelEnters(g: Layer, s: State, i: nat, activation: nat, iteration: Option<nat>)
    requires Flat(g) && Sized(g, s) && Unmarked(g, s)
    ensures var b := Cancelled(i, activation, iteration); Enters(g, s, Emit(s, b).(cancelled := true), b)
  {
    var b := Cancelled(i, activation, iteration);
    EmitSays(s, b);
    NoSkip(b);
  }

  // ---------------------------------------------------------------- an activation begins

  /** The activation of `i` is counted and its inputs are consumed, but it is not announced. */
  ghost predicate Begun(g: Layer, s: State, u: State, i: nat)
    requires Flat(g)
  {
    && i < |g.nodes| && |s.activations| == |g.nodes| && u.activations == s.activations[i := s.activations[i] + 1]
    && u.trace == s.trace && u.scope == s.scope && u.tokens == Consume(g, s, i).tokens
    && u.freshData == Consume(g, s, i).freshData && u.seeds == Consume(g, s, i).seeds
    && u.latest == s.latest && u.failed == s.failed && u.firstFailure == s.firstFailure && u.settled == s.settled
    && forall k :: k in u.fired ==> k in s.fired || k == i
  }

  lemma StartLeaps(g: Layer, s: State, u: State, i: nat, b: Body)
    requires Flat(g) && Begun(g, s, u, i) && b.Started? && b.node == i && Unmarked(g, s)
    ensures Leaps(g, s, Emit(u, b), b, []) && Unmarked(g, Emit(u, b))
  {
    hide NamedControl;
    NoSkip(b);
    NoFail(b);
    NothingSkipped();
    forall e | 0 <= e < |g.edges| ensures e in g.incoming[i] <==> g.edges[e].target == i {
      assert e in g.incoming[g.edges[e].target];
    }
  }

  lemma StartEnters(g: Layer, s: State, u: State, i: nat, b: Body)
    requires Flat(g) && Begun(g, s, u, i) && b.Started? && b.node == i && Unmarked(g, s)
    ensures Enters(g, s, Emit(u, b), b) && Said(s, Emit(u, b)) == [b] && Unmarked(g, Emit(u, b))
  {
    hide Leaps;
    StartLeaps(g, s, u, i, b);
    assert Said(s, Emit(u, b)) == [b] && [b][1..] == [];
  }

  /** Activation and closing stand side by side in the stream. */
  ghost predicate Acts(g: Layer, s: State, t: State, start: Body, close: Body)
    requires Flat(g)
  {
    && Adds(s, t) && |Said(s, t)| >= 2 && Said(s, t)[0] == start && Said(s, t)[1] == close
    && Neutral(g, Said(s, t)[2..])
  }

  /** The same as far as stream and stores go. */
  ghost predicate Alike(s: State, t: State) {
    t.trace == s.trace && t.scope == s.scope && t.settled == s.settled && SameStores(s, t)
  }

  lemma ThenActs(g: Layer, seeds: Seeds, s: State, u: State, v: State, t: State, start: Body, close: Body,
      told: seq<Body>)
    requires Flat(g) && Records(g, seeds, s, told) && Enters(g, s, u, start) && Said(s, u) == [start]
    requires Alike(u, v) && Enters(g, v, t, close)
    ensures Acts(g, s, t, start, close) && Records(g, seeds, t, told + Said(s, t))
  {
    hide Stores, Leaps, Records, Results, Neutral;
    EntersRecords(g, seeds, s, u, start, told) by { assert Results(g, s, told) by { RecordsBoth(g, seeds, s, told); } }
    AlikeRecords(g, seeds, u, v, told + [start]);
    EntersRecords(g, seeds, v, t, close, told + [start]) by {
      assert Results(g, v, told + [start]) by { RecordsBoth(g, seeds, v, told + [start]); }
    }
    SaidTwice(s, u, t);
    assert Said(u, t) == Said(v, t);
    assert told + Said(s, t) == told + [start] + Said(v, t);
    assert Said(s, t)[2..] == Said(v, t)[1..];
    LeapNeutral(g, v, t, close, Said(v, t)[1..]);
  }

  lemma RecordsBoth(g: Layer, seeds: Seeds, s: State, told: seq<Body>)
    requires Flat(g) && Records(g, seeds, s, told)
    ensures Results(g, s, told) && Stores(g, seeds, s, told)
  {
  }

  lemma LeapNeutral(g: Layer, s: State, t: State, b: Body, rest: seq<Body>)
    requires Flat(g) && Leaps(g, s, t, b, rest)
    ensures Neutral(g, rest)
  {
  }

  lemma AlikeRecords(g: Layer, seeds: Seeds, s: State, t: State, told: seq<Body>)
    requires Flat(g) && Alike(s, t)
    ensures Records(g, seeds, s, told) <==> Records(g, seeds, t, told)
  {
    hide Token, Recent, Latest, Runs, Failure, HasFailed, WasSkipped, SeedLeft;
  }

  // ---------------------------------------------------------------- what it takes in, and why it may start

  ghost predicate TokenAt(g: Layer, s: State, es: seq<nat>, port: string, k: nat)
    requires EdgesOf(g, es)
  {
    k < |es| && es[k] in s.tokens && g.edges[es[k]].targetPort == port
  }

  ghost predicate TokenLast(g: Layer, s: State, es: seq<nat>, port: string, k: nat)
    requires EdgesOf(g, es)
  {
    TokenAt(g, s, es, port, k) && forall l: nat :: k < l ==> !TokenAt(g, s, es, port, l)
  }

  ghost function AfterEdge(g: Layer, s: State, e: nat, inputs: Inputs): Inputs
    requires e < |g.edges|
  {
    var edge, key := g.edges[e], (g.edges[e].target, g.edges[e].targetPort);
    if e in s.tokens then inputs[edge.targetPort := s.tokens[e]]
    else if key in s.seeds then inputs[edge.targetPort := s.seeds[key]] else inputs
  }

  lemma OneEdge(g: Layer, s: State, i: nat, es: seq<nat>, inputs: Inputs, port: string)
    requires EdgesOf(g, es) && (i, port) !in s.seeds && es != [] && g.edges[es[0]].target == i
    ensures EdgeInputs(g, s, es, inputs) == EdgeInputs(g, s, es[1..], AfterEdge(g, s, es[0], inputs))
    ensures Get(AfterEdge(g, s, es[0], inputs), port) ==
      if TokenAt(g, s, es, port, 0) then Some(s.tokens[es[0]]) else Get(inputs, port)
  {
  }

  lemma TokensShift(g: Layer, s: State, es: seq<nat>, port: string)
    requires EdgesOf(g, es) && es != []
    ensures forall k: nat :: TokenAt(g, s, es[1..], port, k) <==> TokenAt(g, s, es, port, k + 1)
  {
  }

  /** For a port without a seed the last edge with a token decides. */
  lemma {:induction false} EdgeInputsLaw(g: Layer, s: State, i: nat, es: seq<nat>, inputs: Inputs, port: string)
    requires EdgesOf(g, es) && (i, port) !in s.seeds && forall k :: 0 <= k < |es| ==> g.edges[es[k]].target == i
    ensures var r := EdgeInputs(g, s, es, inputs);
      && ((exists k: nat :: TokenAt(g, s, es, port, k)) ==> port in r)
      && ((forall k: nat :: !TokenAt(g, s, es, port, k)) ==> Get(r, port) == Get(inputs, port))
      && (forall k: nat :: TokenLast(g, s, es, port, k) ==> Get(r, port) == Some(s.tokens[es[k]]))
    decreases |es|
  {
    if es != [] {
      OneEdge(g, s, i, es, inputs, port);
      TokensShift(g, s, es, port);
      EdgeInputsLaw(g, s, i, es[1..], AfterEdge(g, s, es[0], inputs), port);
      hide EdgeInputs, AfterEdge;
      forall k: nat | TokenLast(g, s, es, port, k)
        ensures Get(EdgeInputs(g, s, es, inputs), port) == Some(s.tokens[es[k]])
      {
        if k > 0 {
          assert TokenLast(g, s, es[1..], port, k - 1);
        } else {
          assert forall l: nat :: !TokenAt(g, s, es[1..], port, l);
        }
      }
      if k: nat :| TokenAt(g, s, es, port, k) {
        if k > 0 { assert TokenAt(g, s, es[1..], port, k - 1); }
      } else {
        assert forall l: nat :: !TokenAt(g, s, es[1..], port, l);
      }
    }
  }

  lemma CarriesIs(g: Layer, seeds: Seeds, s: State, told: seq<Body>, i: nat, port: string, k: nat)
    requires Flat(g) && i < |g.nodes| && Stores(g, seeds, s, told)
    ensures Carries(g, told, i, port, k) <==> TokenAt(g, s, In(g, i), port, k)
  {
    if k < |g.incoming[i]| { assert g.incoming[i][k] in g.incoming[i]; }
  }

  /** What is consumed from the stores is what the stream says the node takes in. */
  lemma TakesConsumed(g: Layer, seeds: Seeds, s: State, told: seq<Body>, i: nat)
    requires Flat(g) && i < |g.nodes| && Stores(g, seeds, s, told)
    ensures Takes(g, seeds, told, i, ConsumedInputs(g, s, i))
  {
    hide EdgeInputs, Token, Recent, NamedControl, Runs, Carries, SeedLeft, TakesPort;
    forall port ensures TakesPort(g, seeds, told, i, ConsumedInputs(g, s, i), port) {
      SeedLeftIs(g, seeds, s, told, i, port);
      if (i, port) in s.seeds {
        TakesSeed(g, seeds, s, told, i, port);
      } else {
        TakesUnseeded(g, seeds, s, told, i, port);
      }
    }
  }

  lemma TakesSeed(g: Layer, seeds: Seeds, s: State, told: seq<Body>, i: nat, port: string)
    requires Flat(g) && i < |g.nodes| && Stores(g, seeds, s, told) && (i, port) in s.seeds
    requires SeedLeft(g, seeds, told, i, port)
    ensures TakesPort(g, seeds, told, i, ConsumedInputs(g, s, i), port)
  {
    hide EdgeInputs, Token, Recent, NamedControl, Runs, Carries;
    assert (i, port) in s.seeds && port in SeedInputs(s, i);
  }

  lemma SeedLeftIs(g: Layer, seeds: Seeds, s: State, told: seq<Body>, i: nat, port: string)
    requires Flat(g) && i < |g.nodes| && Stores(g, seeds, s, told)
    ensures SeedLeft(g, seeds, told, i, port) <==> (i, port) in s.seeds
  {
    if (i, port) in s.seeds { assert (i, port) in seeds && seeds[(i, port)] == s.seeds[(i, port)]; }
  }

  lemma TakesUnseeded(g: Layer, seeds: Seeds, s: State, told: seq<Body>, i: nat, port: string)
    requires Flat(g) && i < |g.nodes| && Stores(g, seeds, s, told) && (i, port) !in s.seeds
    requires !SeedLeft(g, seeds, told, i, port)
    ensures TakesPort(g, seeds, told, i, ConsumedInputs(g, s, i), port)
  {
    hide EdgeInputs, Token, Recent, NamedControl, Runs, SeedLeft;
    var r := EdgeInputs(g, s, In(g, i), map[]);
    assert port !in SeedInputs(s, i);
    forall k | 0 <= k < |In(g, i)| ensures g.edges[In(g, i)[k]].target == i { assert In(g, i)[k] in g.incoming[i]; }
    EdgeInputsLaw(g, s, i, In(g, i), map[], port);
    forall k: nat ensures Carries(g, told, i, port, k) <==> TokenAt(g, s, In(g, i), port, k) {
      CarriesIs(g, seeds, s, told, i, port, k);
    }
  }

  /** A node found ready may start, going by the stream. */
  lemma GoMayStart(g: Layer, seeds: Seeds, s: State, told: seq<Body>, i: nat)
    requires Flat(g) && Records(g, seeds, s, told) && Books(g, s) && i < |g.nodes| && Evaluate(g, s, i) == Go
    ensures MayStart(g, seeds, told, i)
  {
    hide Token, Recent, Runs, HasFailed, WasSkipped, SeedLeft, NamedControl, ControlPort;
    forall port ensures SeedLeft(g, seeds, told, i, port) <==> (i, port) in s.seeds {
      SeedLeftIs(g, seeds, s, told, i, port);
    }
    forall e | e in g.incoming[i] ensures Waits(g, seeds, told, e) <==> TokenOn(g, s, e) {}
    ControlSeedIs(g, seeds, s, told, i);
    if g.incoming[i] != [] && !HasControl(g, s, i) {
      forall e | e in g.incoming[i] ensures Waits(g, seeds, told, e) || Gone(told, g.edges[e].source) {}
      if SeededAny(s, i) {
        var k :| k in s.seeds && k.0 == i;
        assert (i, k.1) in s.seeds;
      }
    }
  }

  lemma ControlSeedIs(g: Layer, seeds: Seeds, s: State, told: seq<Body>, i: nat)
    requires Flat(g) && i < |g.nodes| && Stores(g, seeds, s, told)
    ensures ControlSeedLeft(g, seeds, told, i) <==> SeededControl(g, s, i)
  {
    hide Token, Recent, Runs, NamedControl, ControlPort, SeedLeft;
    if ControlSeedLeft(g, seeds, told, i) {
      var port :| SeedLeft(g, seeds, told, i, port) && ControlPort(g, i, port);
      SeedLeftIs(g, seeds, s, told, i, port);
      assert (i, port) in s.seeds;
    }
    if SeededControl(g, s, i) {
      var k :| k in s.seeds && k.0 == i && ControlPort(g, i, k.1);
      SeedLeftIs(g, seeds, s, told, i, k.1);
    }
  }
}
