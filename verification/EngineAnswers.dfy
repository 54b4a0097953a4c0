/** Why each node of an engine run met its fate: the inputs its edges carry, the policy, and what its
    executor answered on them. */
module EngineAnswers {
  import opened Wrappers
  import opened Json
  import opened Workflow
  import opened SchedulerSpec
  import opened SchedulerStream
  import opened Digraph
  import opened Engine
  import opened EngineOutcome
  import Order = ExecutionOrder

  // ---------------------------------------------------------------- what a node is called on

  /** The value on an edge, going by the outputs so far. */
  ghost function OnEdge(g: Layer, outputs: map<nat, Inputs>, e: nat): Option<Json>
    requires e < |g.edges|
  {
    var edge := g.edges[e];
    if edge.source in outputs then Get(outputs[edge.source], edge.sourcePort) else None
  }

  /** Edge `k` of the list leads to this port. */
  ghost predicate LeadsTo(g: Layer, es: seq<nat>, port: string, k: nat)
    requires EdgesOf(g, es)
  {
    k < |es| && g.edges[es[k]].targetPort == port
  }

  ghost predicate LeadsLast(g: Layer, es: seq<nat>, port: string, k: nat)
    requires EdgesOf(g, es)
  {
    LeadsTo(g, es, port, k) && forall l: nat :: k < l ==> !LeadsTo(g, es, port, l)
  }

  /** A port has an input if an edge leads to it, and the value of the last one that does. */
  ghost predicate Carried(g: Layer, outputs: map<nat, Inputs>, es: seq<nat>, inputs: Inputs, port: string)
    requires EdgesOf(g, es)
  {
    && (port in inputs <==> exists k: nat :: LeadsTo(g, es, port, k))
    && forall k: nat :: LeadsLast(g, es, port, k) ==> Get(inputs, port) == OnEdge(g, outputs, es[k])
  }

  ghost predicate CalledOn(g: Layer, outputs: map<nat, Inputs>, i: nat, inputs: Inputs)
    requires Flat(g) && i < |g.nodes|
  {
    forall port :: Carried(g, outputs, In(g, i), inputs, port)
  }

  ghost predicate LacksValue(g: Layer, outputs: map<nat, Inputs>, i: nat)
    requires Flat(g) && i < |g.nodes|
  {
    exists e :: e in g.incoming[i] && OnEdge(g, outputs, e).None?
  }

  lemma {:induction false} GatherLaw(g: Layer, outputs: map<nat, Inputs>, es: seq<nat>, inputs: Inputs, port: string)
    requires EdgesOf(g, es) && Gather(g.edges, outputs, es, inputs).Some?
    ensures var r := Gather(g.edges, outputs, es, inputs).value;
      && ((exists k: nat :: LeadsTo(g, es, port, k)) ==> port in r)
      && ((forall k: nat :: !LeadsTo(g, es, port, k)) ==> Get(r, port) == Get(inputs, port))
      && (forall k: nat :: LeadsLast(g, es, port, k) ==> Get(r, port) == OnEdge(g, outputs, es[k]))
    decreases |es|
  {
    if es != [] {
      var edge := g.edges[es[0]];
      var next := inputs[edge.targetPort := outputs[edge.source][edge.sourcePort]];
      var r := Gather(g.edges, outputs, es, inputs).value;
      GatherLaw(g, outputs, es[1..], next, port);
      assert !LeadsTo(g, es, port, 0) ==> Get(next, port) == Get(inputs, port);
      forall k: nat | LeadsTo(g, es[1..], port, k) ensures LeadsTo(g, es, port, k + 1) {}
      forall k: nat | k > 0 && LeadsTo(g, es, port, k) ensures LeadsTo(g, es[1..], port, k - 1) {}
      forall k: nat | LeadsLast(g, es, port, k) ensures Get(r, port) == OnEdge(g, outputs, es[k]) {
        if k > 0 {
          assert LeadsLast(g, es[1..], port, k - 1);
        } else {
          assert forall l: nat :: !LeadsTo(g, es[1..], port, l);
        }
      }
      if exists k: nat :: LeadsTo(g, es, port, k) {
        var k: nat :| LeadsTo(g, es, port, k);
        if k > 0 { assert LeadsTo(g, es[1..], port, k - 1); } else { assert port in next; }
      }
    }
  }

  lemma {:induction false} GatherStopsIff(g: Layer, outputs: map<nat, Inputs>, es: seq<nat>, inputs: Inputs)
    requires EdgesOf(g, es)
    ensures Gather(g.edges, outputs, es, inputs).None? <==> exists e :: e in es && OnEdge(g, outputs, e).None?
    decreases |es|
  {
    if es != [] {
      var edge := g.edges[es[0]];
      if Produced(edge, outputs) {
        GatherStopsIff(g, outputs, es[1..], inputs[edge.targetPort := outputs[edge.source][edge.sourcePort]]);
        assert forall e :: e in es <==> e == es[0] || e in es[1..];
      } else {
        assert es[0] in es && OnEdge(g, outputs, es[0]).None?;
      }
    }
  }

  lemma GatheredIsCalledOn(g: Layer, outputs: map<nat, Inputs>, i: nat)
    requires Flat(g) && i < |g.nodes|
    ensures Gather(g.edges, outputs, In(g, i), map[]).None? <==> LacksValue(g, outputs, i)
    ensures Gather(g.edges, outputs, In(g, i), map[]).Some? ==>
      CalledOn(g, outputs, i, Gather(g.edges, outputs, In(g, i), map[]).value)
  {
    hide Gather, LeadsTo, OnEdge;
    GatherStopsIff(g, outputs, In(g, i), map[]);
    if Gather(g.edges, outputs, In(g, i), map[]).Some? {
      forall port ensures Carried(g, outputs, In(g, i), Gather(g.edges, outputs, In(g, i), map[]).value, port) {
        GatherLaw(g, outputs, In(g, i), map[], port);
      }
    }
  }

  // ---------------------------------------------------------------- fates and reasons

  /** How a call ends, by the policy, cancellation and the executor's answer. */
  ghost function Ending(i: nat, reply: Reply): Body {
    if reply.denied.Some? then Failed(i, reply.denied.value, 1, None)
    else if reply.cancelled then Cancelled(i, 1, None)
    else if reply.answer.Ok? then Finished(i, reply.answer.outputs, 1, None)
    else Failed(i, reply.answer.code, 1, None)
  }

  /** The first edge in the list whose source has no output comes from `b`. */
  ghost predicate FirstMissing(g: Layer, p: Progress, i: nat, b: nat)
    requires Flat(g) && i < |g.nodes|
  {
    exists k :: 0 <= k < |In(g, i)| && g.edges[In(g, i)[k]].source == b && b in p.unavailable
      && forall l :: 0 <= l < k ==> g.edges[In(g, i)[l]].source !in p.unavailable
  }

  /** The node's whole story in the stream, and the reason for it. */
  ghost predicate Explained(g: Layer, env: Env, p: Progress, i: nat)
    requires Flat(g) && i < |g.nodes|
  {
    var story, start := About(p.trace, i), Started(i, 1, None, false);
    if !g.nodes[i].enabled then story == [Skipped(i, Disabled, 0, None)]
    else if CutOff(g, p, i) then exists b :: FirstMissing(g, p, i, b) && story == [Skipped(i, Upstream(b), 0, None)]
    else if LacksValue(g, p.outputs, i) then story == [start, Failed(i, MissingInput, 1, None)]
    else exists inputs, t: nat ::
      CalledOn(g, p.outputs, i, inputs) && story == [start, Ending(i, env.execute([], i, 1, inputs, t))]
  }

  lemma {:induction false} BlockerIsFirst(edges: seq<Edge>, unavailable: set<nat>, es: seq<nat>) returns (k: nat)
    requires Below(es, |edges|) && Blocker(edges, unavailable, es).Some?
    ensures k < |es| && edges[es[k]].source == Blocker(edges, unavailable, es).value
    ensures edges[es[k]].source in unavailable
    ensures forall l :: 0 <= l < k ==> edges[es[l]].source !in unavailable
    decreases |es|
  {
    if edges[es[0]].source in unavailable {
      k := 0;
    } else {
      k := BlockerIsFirst(edges, unavailable, es[1..]);
      k := k + 1;
    }
  }

  /** The same story for the same reason, where what is behind the node has not changed. */
  lemma ExplainedKept(g: Layer, env: Env, p: Progress, q: Progress, i: nat)
    requires Flat(g) && i < |g.nodes| && Explained(g, env, p, i) && About(q.trace, i) == About(p.trace, i)
    requires forall e :: e in g.incoming[i] ==> SameSource(p, q, g.edges[e].source)
    ensures Explained(g, env, q, i)
  {
    hide CalledOn, About, Ending;
    forall e | e in g.incoming[i] ensures OnEdge(g, q.outputs, e) == OnEdge(g, p.outputs, e) {
      assert SameSource(p, q, g.edges[e].source);
    }
    forall k | 0 <= k < |In(g, i)|
      ensures g.edges[In(g, i)[k]].source in q.unavailable <==> g.edges[In(g, i)[k]].source in p.unavailable
    {
      assert In(g, i)[k] in g.incoming[i] && SameSource(p, q, g.edges[In(g, i)[k]].source);
    }
    if g.nodes[i].enabled && !CutOff(g, p, i) && !LacksValue(g, p.outputs, i) {
      var inputs, t: nat :| CalledOn(g, p.outputs, i, inputs) &&
        About(p.trace, i) == [Started(i, 1, None, false), Ending(i, env.execute([], i, 1, inputs, t))];
      CalledOnKept(g, p.outputs, q.outputs, i, inputs);
    } else if g.nodes[i].enabled && CutOff(g, p, i) {
      var b :| FirstMissing(g, p, i, b) && About(p.trace, i) == [Skipped(i, Upstream(b), 0, None)];
      assert FirstMissing(g, q, i, b);
    }
  }

  ghost predicate SameSource(p: Progress, q: Progress, j: nat) {
    (j in p.unavailable <==> j in q.unavailable) && Get(p.outputs, j) == Get(q.outputs, j)
  }

  lemma CalledOnKept(g: Layer, before: map<nat, Inputs>, after: map<nat, Inputs>, i: nat, inputs: Inputs)
    requires Flat(g) && i < |g.nodes| && CalledOn(g, before, i, inputs)
    requires forall e :: e in g.incoming[i] ==> OnEdge(g, after, e) == OnEdge(g, before, e)
    ensures CalledOn(g, after, i, inputs)
  {
    hide OnEdge;
    forall port ensures Carried(g, after, In(g, i), inputs, port) {
      assert Carried(g, before, In(g, i), inputs, port);
      forall k: nat | LeadsLast(g, In(g, i), port, k)
        ensures OnEdge(g, after, In(g, i)[k]) == OnEdge(g, before, In(g, i)[k])
      {
        assert In(g, i)[k] in g.incoming[i];
      }
    }
  }

  /** The story that visiting the node adds, by what was there before. */
  lemma VisitExplains(g: Layer, env: Env, p: Progress, i: nat)
    requires Flat(g) && i < |g.nodes| && Untouched(p, i)
    ensures Explained(g, env, p.(trace := Visit(g, env, p, i).trace), i)
  {
    hide Gather, CalledOn, LacksValue, CutOff, Flat, Explained, Blocker, Called, Untouched;
    CutOffIs(g, p, i);
    GatheredIsCalledOn(g, p.outputs, i);
    if !g.nodes[i].enabled || CutOff(g, p, i) {
      SkipExplains(g, env, p, i);
    } else {
      match Gather(g.edges, p.outputs, In(g, i), map[])
      case None => MissingExplains(g, env, p, i);
      case Some(inputs) =>
        CallExplains(g, env, p, Post(p, Started(i, 1, None, false)).(tick := p.tick + 1), i, inputs);
    }
  }

  lemma SkipExplains(g: Layer, env: Env, p: Progress, i: nat)
    requires Flat(g) && i < |g.nodes| && Untouched(p, i) && (!g.nodes[i].enabled || CutOff(g, p, i))
    requires forall t :: CutOff(g, p.(trace := t), i) <==> CutOff(g, p, i)
    requires CutOff(g, p, i) <==> Blocker(g.edges, p.unavailable, In(g, i)).Some?
    ensures Explained(g, env, p.(trace := Visit(g, env, p, i).trace), i)
  {
    hide Gather, CalledOn, LacksValue, CutOff, Flat, Blocker, Start;
    var q := Visit(g, env, p, i);
    if !g.nodes[i].enabled {
      PostElsewhere(p, Skipped(i, Disabled, 0, None));
    } else {
      var b := Blocker(g.edges, p.unavailable, In(g, i)).value;
      var k := BlockerIsFirst(g.edges, p.unavailable, In(g, i));
      assert FirstMissing(g, p.(trace := q.trace), i, b);
      PostElsewhere(p, Skipped(i, Upstream(b), 0, None));
    }
  }

  lemma MissingExplains(g: Layer, env: Env, p: Progress, i: nat)
    requires Flat(g) && i < |g.nodes| && Untouched(p, i) && g.nodes[i].enabled && !CutOff(g, p, i)
    requires forall t :: CutOff(g, p.(trace := t), i) <==> CutOff(g, p, i)
    requires Blocker(g.edges, p.unavailable, In(g, i)).None? && LacksValue(g, p.outputs, i)
    requires Gather(g.edges, p.outputs, In(g, i), map[]).None?
    ensures Explained(g, env, p.(trace := Visit(g, env, p, i).trace), i)
  {
    hide Gather, CalledOn, LacksValue, CutOff, Flat, Blocker;
    var p1 := Post(p, Started(i, 1, None, false));
    PostElsewhere(p, Started(i, 1, None, false));
    PostElsewhere(p1, Failed(i, MissingInput, 1, None));
  }

  lemma CutOffIs(g: Layer, p: Progress, i: nat)
    requires Flat(g) && i < |g.nodes|
    ensures CutOff(g, p, i) <==> Blocker(g.edges, p.unavailable, In(g, i)).Some?
    ensures forall t :: CutOff(g, p.(trace := t), i) <==> CutOff(g, p, i)
  {
  }

  lemma CallExplains(g: Layer, env: Env, p: Progress, p1: Progress, i: nat, inputs: Inputs)
    requires Flat(g) && i < |g.nodes| && Untouched(p, i)
    requires g.nodes[i].enabled && !CutOff(g, p, i) && !LacksValue(g, p.outputs, i) && CalledOn(g, p.outputs, i, inputs)
    requires p1.trace == Post(p, Started(i, 1, None, false)).trace
    requires forall t :: CutOff(g, p.(trace := t), i) <==> CutOff(g, p, i)
    ensures Explained(g, env, p.(trace := Called(p1, i, env.execute([], i, 1, inputs, p.tick)).trace), i)
  {
    hide CalledOn, LacksValue, CutOff, Flat;
    var reply := env.execute([], i, 1, inputs, p.tick);
    var q := Called(p1, i, reply);
    PostElsewhere(p, Started(i, 1, None, false));
    PostElsewhere(p1, Ending(i, reply));
    assert q.trace == Post(p1, Ending(i, reply)).trace;
    assert About(q.trace, i) == [Started(i, 1, None, false), Ending(i, reply)];
  }

  // ---------------------------------------------------------------- whole runs

  ghost predicate AllExplained(g: Layer, env: Env, p: Progress, done: set<nat>)
    requires Flat(g)
  {
    forall i :: i in done && i < |g.nodes| ==> Explained(g, env, p, i)
  }

  lemma StepExplains(g: Layer, env: Env, p: Progress, done: set<nat>, i: nat)
    requires Flat(g) && i < |g.nodes| && Visited(g, p, done) && !p.cancelled && Due(g, done, i)
    requires forall j, e {:trigger e in g.incoming[j]} :: j in done && j < |g.nodes| && e in g.incoming[j] ==>
      g.edges[e].source in done
    requires AllExplained(g, env, p, done)
    ensures AllExplained(g, env, Visit(g, env, p, i), done + {i})
  {
    hide Explained, Visit, Accounted, BrokenOff;
    var q := Visit(g, env, p, i);
    VisitOnce(g, env, p, i);
    VisitExplains(g, env, p, i);
    forall j | j in done + {i} && j < |g.nodes| ensures Explained(g, env, q, j) {
      forall e | e in g.incoming[j] ensures SameSource(p, q, g.edges[e].source) {
        SourceKept(p, q, i, g.edges[e].source);
      }
      if j == i {
        ExplainedKept(g, env, p.(trace := q.trace), q, i);
      } else {
        ExplainedKept(g, env, p, q, j);
      }
    }
  }

  lemma SourceKept(p: Progress, q: Progress, i: nat, j: nat)
    requires Elsewhere(p, q, i) && i != j
    ensures SameSource(p, q, j)
  {
    assert j in q.outputs - {i} <==> j in p.outputs - {i};
    assert j in q.unavailable - {i} <==> j in p.unavailable - {i};
    if j in p.outputs { assert (q.outputs - {i})[j] == (p.outputs - {i})[j]; }
  }

  /** Every node the stream speaks of is explained. */
  ghost predicate Accountable(g: Layer, env: Env, q: Progress)
    requires Flat(g)
  {
    forall i :: 0 <= i < |g.nodes| && About(q.trace, i) != [] ==> Explained(g, env, q, i)
  }

  lemma {:induction false} RunExplains(g: Layer, env: Env, p: Progress, order: seq<nat>, k: nat)
    requires Flat(g) && Topological(|g.nodes|, Order.ArcsOf(g.edges), order) && k <= |order| && Below(order, |g.nodes|)
    requires Visited(g, p, Listed(order[..k])) && !p.cancelled && AllExplained(g, env, p, Listed(order[..k]))
    ensures Accountable(g, env, RunNodes(g, env, p, order[k..]))
    decreases |order| - k
  {
    hide Topological, Flat, Visit, Elsewhere, BrokenOff, Untouched, Accounted, Explained, About, Visited;
    if k == |order| {
      assert order[..k] == order && order[k..] == [];
      UnvisitedIsSilent(g, env, p, Listed(order[..k]));
    } else {
      var p1 := Arrive(p, env);
      assert order[k..][1..] == order[k + 1..];
      Moment(g, p, p1, Listed(order[..k]));
      MomentExplains(g, env, p, p1, Listed(order[..k]));
      if p1.cancelled {
        UnvisitedIsSilent(g, env, p1, Listed(order[..k]));
      } else {
        Precedes(g, order, k);
        var done := Listed(order[..k]);
        var p2 := Visit(g, env, p1, order[k]);
        StepExplains(g, env, p1, done, order[k]);
        NotDone(g, p1, done, order[k]);
        VisitOnce(g, env, p1, order[k]);
        if p2.cancelled {
          OthersSilent(g, p1, p2, done, order[k]);
        } else {
          VisitedStep(g, env, p1, done, order[k]);
          RunExplains(g, env, p2, order, k + 1);
        }
      }
    }
  }

  lemma NotDone(g: Layer, p: Progress, done: set<nat>, i: nat)
    requires Flat(g) && Visited(g, p, done) && i !in done
    ensures Untouched(p, i)
  {
  }

  lemma UnvisitedIsSilent(g: Layer, env: Env, p: Progress, done: set<nat>)
    requires Flat(g) && Visited(g, p, done) && AllExplained(g, env, p, done)
    ensures Accountable(g, env, p)
  {
    hide Explained;
    forall i | 0 <= i < |g.nodes| && i !in done ensures About(p.trace, i) == [] {
      assert Untouched(p, i);
    }
  }

  lemma OthersSilent(g: Layer, p: Progress, q: Progress, done: set<nat>, i: nat)
    requires Flat(g) && Visited(g, p, done) && Elsewhere(p, q, i)
    ensures forall j :: 0 <= j < |g.nodes| && j !in done + {i} ==> About(q.trace, j) == []
  {
    forall j | 0 <= j < |g.nodes| && j !in done + {i} ensures About(q.trace, j) == [] {
      assert Untouched(p, j);
    }
  }

  lemma MomentExplains(g: Layer, env: Env, p: Progress, q: Progress, done: set<nat>)
    requires Flat(g) && AllExplained(g, env, p, done) && q == p.(cancelled := q.cancelled, tick := q.tick)
    ensures AllExplained(g, env, q, done)
  {
    hide Explained;
    forall i | i in done && i < |g.nodes| ensures Explained(g, env, q, i) {
      ExplainedKept(g, env, p, q, i);
    }
  }

  /** In every run, for every policy and all executors: each node the stream speaks of met its fate for
      the reason `Explained` gives. */
  lemma EveryFateIsExplained(g: Layer, env: Env, order: seq<nat>)
    requires Flat(g) && Topological(|g.nodes|, Order.ArcsOf(g.edges), order) && Below(order, |g.nodes|)
    ensures Accountable(g, env, RunNodes(g, env, NOTHING, order))
  {
    assert order[0..] == order;
    RunExplains(g, env, NOTHING, order, 0);
  }

  ghost predicate ToldFailed(q: Progress, i: nat, code: Code) {
    About(q.trace, i) == [Started(i, 1, None, false), Failed(i, code, 1, None)]
  }

  ghost predicate ToldFinished(q: Progress, i: nat, outputs: Inputs) {
    About(q.trace, i) == [Started(i, 1, None, false), Finished(i, outputs, 1, None)]
  }

  /** The lists say what the stream says. */
  ghost predicate Agree(q: Progress, i: nat) {
    && (i in q.failed <==> exists code :: ToldFailed(q, i, code))
    && (i in q.outputs <==> exists outputs :: ToldFinished(q, i, outputs))
    && (i in q.outputs ==> ToldFinished(q, i, q.outputs[i]))
  }

  lemma MetAgrees(q: Progress, i: nat)
    requires Accounted(q, i) || Untouched(q, i) || BrokenOff(q, i)
    ensures Agree(q, i)
  {
    hide About;
    if Accounted(q, i) {
      var fate :| Met(q, i, fate);
      if fate.DidFail? {
        var c :| About(q.trace, i) == [Started(i, 1, None, false), Failed(i, c, 1, None)];
        assert ToldFailed(q, i, c);
      } else if fate.DidFinish? {
        assert ToldFinished(q, i, q.outputs[i]);
      }
    }
  }

  lemma ListsAgree(g: Layer, env: Env, order: seq<nat>)
    requires Flat(g) && Topological(|g.nodes|, Order.ArcsOf(g.edges), order) && Below(order, |g.nodes|)
    ensures var q := RunNodes(g, env, NOTHING, order);
      (forall i :: 0 <= i < |g.nodes| ==> Agree(q, i)) && forall i :: i in q.failed ==> i < |g.nodes|
  {
    hide Agree, Accounted, Untouched, BrokenOff;
    var q := RunNodes(g, env, NOTHING, order);
    EveryNodeHasOneOutcome(g, env, order);
    var m :| EndedAt(g, q, order, m);
    forall i | 0 <= i < |g.nodes| ensures Agree(q, i) {
      assert i in order;
      MetAgrees(q, i);
    }
    FailedAreNodes(g, env, NOTHING, order);
  }

  lemma {:induction false} FailedAreNodes(g: Layer, env: Env, p: Progress, order: seq<nat>)
    requires Flat(g) && Below(order, |g.nodes|) && forall i :: i in p.failed ==> i < |g.nodes|
    ensures forall i :: i in RunNodes(g, env, p, order).failed ==> i < |g.nodes|
    decreases |order|
  {
    hide Gather, Blocker;
    if !p.cancelled && order != [] {
      var p1 := Arrive(p, env);
      if !p1.cancelled { FailedAreNodes(g, env, Visit(g, env, p1, order[0]), order[1..]); }
    }
  }

  /** A node was started exactly if the stream opens its story so. */
  ghost predicate WasStarted(q: Progress, i: nat) {
    About(q.trace, i) != [] && About(q.trace, i)[0] == Started(i, 1, None, false)
  }

  /** A started node fails exactly if an edge into it has no value, the policy denies it, or its
      executor, called on what its edges carry, answers with an error, which is then the code in the
      stream; it finishes exactly if the executor answers with outputs, which are then its own. */
  lemma AnswersDecide(g: Layer, env: Env, order: seq<nat>, i: nat)
    requires Flat(g) && Topological(|g.nodes|, Order.ArcsOf(g.edges), order) && Below(order, |g.nodes|)
    requires i < |g.nodes| && WasStarted(RunNodes(g, env, NOTHING, order), i)
    ensures var q := RunNodes(g, env, NOTHING, order);
      if LacksValue(g, q.outputs, i) then i in q.failed && ToldFailed(q, i, MissingInput)
      else exists inputs, t: nat :: CalledOn(g, q.outputs, i, inputs) && Decides(q, i, env.execute([], i, 1, inputs, t))
  {
    hide CalledOn, LacksValue, About, CutOff, RunNodes, Flat, Topological;
    var q := RunNodes(g, env, NOTHING, order);
    ListsAgree(g, env, order);
    EveryFateIsExplained(g, env, order);
    assert Agree(q, i) && Explained(g, env, q, i);
    if LacksValue(g, q.outputs, i) {
      assert ToldFailed(q, i, MissingInput);
    } else {
      var inputs, t: nat :| CalledOn(g, q.outputs, i, inputs) &&
        About(q.trace, i) == [Started(i, 1, None, false), Ending(i, env.execute([], i, 1, inputs, t))];
      EndingDecides(q, i, env.execute([], i, 1, inputs, t));
    }
  }

  /** What the reply makes of the node. */
  ghost predicate Decides(q: Progress, i: nat, reply: Reply) {
    && (i in q.failed <==> reply.denied.Some? || (!reply.cancelled && reply.answer.Err?))
    && (reply.denied.Some? ==> ToldFailed(q, i, reply.denied.value))
    && (reply.denied.None? && !reply.cancelled && reply.answer.Err? ==> ToldFailed(q, i, reply.answer.code))
    && (i in q.outputs <==> reply.denied.None? && !reply.cancelled && reply.answer.Ok?)
    && (i in q.outputs ==> q.outputs[i] == reply.answer.outputs)
  }

  lemma EndingDecides(q: Progress, i: nat, reply: Reply)
    requires Agree(q, i) && About(q.trace, i) == [Started(i, 1, None, false), Ending(i, reply)]
    ensures Decides(q, i, reply)
  {
    hide About;
    var end := About(q.trace, i)[1];
    assert end == Ending(i, reply);
    if end.Failed? {
      assert ToldFailed(q, i, end.code);
    } else if end.Finished? {
      assert ToldFinished(q, i, end.outputs);
      assert ToldFinished(q, i, q.outputs[i]);
    }
  }

  /** The run counts as failed exactly if it was not cancelled and the stream tells of a failure, as
      cancelled exactly if a look at the flag found it so, and as completed otherwise. */
  lemma StatusIsTold(g: Layer, env: Env, order: seq<nat>)
    requires Flat(g) && Topological(|g.nodes|, Order.ArcsOf(g.edges), order) && Below(order, |g.nodes|)
    ensures var q := RunNodes(g, env, NOTHING, order);
      var failed := exists i, code :: 0 <= i < |g.nodes| && ToldFailed(q, i, code);
      var stopped := q.cancelled || env.cancelled(q.tick);
      && (Outcome(q, env) == FailedRun <==> !stopped && failed) && (Outcome(q, env) == CancelledRun <==> stopped)
  {
    ListsAgree(g, env, order);
    assert forall i :: 0 <= i < |g.nodes| ==> Agree(RunNodes(g, env, NOTHING, order), i);
    assert forall i :: i in RunNodes(g, env, NOTHING, order).failed ==> i < |g.nodes|;
    FailedIsTold(g, RunNodes(g, env, NOTHING, order));
  }

  lemma FailedIsTold(g: Layer, q: Progress)
    requires forall i :: 0 <= i < |g.nodes| ==> Agree(q, i)
    requires forall i :: i in q.failed ==> i < |g.nodes|
    ensures q.failed != [] <==> exists i, code :: 0 <= i < |g.nodes| && ToldFailed(q, i, code)
  {
    hide ToldFailed;
    if q.failed != [] {
      var i := q.failed[0];
      assert i in q.failed;
      assert i < |g.nodes| && Agree(q, i);
      var code :| ToldFailed(q, i, code);
    }
    forall i, code | 0 <= i < |g.nodes| && ToldFailed(q, i, code) ensures q.failed != [] {
      assert Agree(q, i);
    }
  }
}
