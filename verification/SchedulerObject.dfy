/** The scheduler as the source has it: an object whose methods update its fields in place.
    Every method is proved to take the fields to what `SchedulerSpec` says. */
module SchedulerObject {
  import opened Wrappers
  import opened Json
  import opened Workflow
  import opened SchedulerSpec
  import S = SchedulerSpec

  /** The run's event stream and clock, shared by an instance and the instances nested in it. */
  class Stream {
    var nextSeq: nat
    var trace: seq<Event>
    var tick: nat

    constructor ()
      ensures nextSeq == 0 && trace == [] && tick == 0
    {
      nextSeq, trace, tick := 0, [], 0;
    }

    method Emit(scope: seq<nat>, body: Body)
      modifies this
      ensures trace == old(trace) + [Event(old(nextSeq), scope, body)]
      ensures nextSeq == old(nextSeq) + 1 && tick == old(tick)
    {
      trace := trace + [Event(nextSeq, scope, body)];
      nextSeq := nextSeq + 1;
    }
  }

  /** The adjacency lists are those the constructor builds, in this layer and below it. */
  ghost predicate Documented(g: Layer) {
    && g == LayerOf(g.nodes, g.edges)
    && (forall i :: 0 <= i < |g.nodes| && g.nodes[i].Composite? ==> Documented(g.nodes[i].layer))
  }

  lemma EndsExist(nodes: seq<Node>, edges: seq<Edge>, k: nat)
    requires Endpoints(LayerOf(nodes, edges)) && k < |edges|
    ensures edges[k].source < |nodes| && edges[k].target < |nodes|
  {
    assert edges[k] == LayerOf(nodes, edges).edges[k];
  }

  lemma ListsDone(nodes: seq<Node>, edges: seq<Edge>, incoming: seq<seq<nat>>, outgoing: seq<seq<nat>>)
    requires |incoming| == |outgoing| == |nodes|
    requires forall i :: 0 <= i < |nodes| ==>
      incoming[i] == EdgesInto(edges, i, |edges|) && outgoing[i] == EdgesFrom(edges, i, |edges|)
    ensures Layer(nodes, edges, incoming, outgoing) == LayerOf(nodes, edges)
  {
    hide EdgesInto, EdgesFrom;
    var g := LayerOf(nodes, edges);
    assert incoming == g.incoming && outgoing == g.outgoing;
  }

  method BuildLists(nodes: seq<Node>, edges: seq<Edge>) returns (incoming: seq<seq<nat>>, outgoing: seq<seq<nat>>)
    requires Endpoints(LayerOf(nodes, edges))
    ensures Layer(nodes, edges, incoming, outgoing) == LayerOf(nodes, edges)
  {
    hide EdgesInto, EdgesFrom, Distinct, LayerOf;
    ListsStart(edges);
    var into, from := new seq<nat>[|nodes|](_ => []), new seq<nat>[|nodes|](_ => []);
    for k := 0 to |edges|
      invariant forall i :: 0 <= i < |nodes| ==> into[i] == EdgesInto(edges, i, k) && from[i] == EdgesFrom(edges, i, k)
    {
      var edge := edges[k];
      EndsExist(nodes, edges, k);
      ListsGrow(edges, k);
      from[edge.source] := from[edge.source] + [k];
      into[edge.target] := into[edge.target] + [k];
    }
    incoming, outgoing := into[..], from[..];
    ListsDone(nodes, edges, incoming, outgoing);
  }

  lemma ListsStart(edges: seq<Edge>)
    ensures forall i :: EdgesInto(edges, i, 0) == [] && EdgesFrom(edges, i, 0) == []
  {
  }

  lemma ListsGrow(edges: seq<Edge>, k: nat)
    requires k < |edges|
    ensures forall i :: EdgesInto(edges, i, k + 1) == EdgesInto(edges, i, k) + if edges[k].target == i then [k] else []
    ensures forall i :: EdgesFrom(edges, i, k + 1) == EdgesFrom(edges, i, k) + if edges[k].source == i then [k] else []
  {
  }

  /** What one pass over the incoming edges finds out about a node. */
  datatype Flags = Flags(hasControl: bool, controlToken: bool, anyData: bool, anyFresh: bool,
                         dataPending: bool, requiredInactive: bool, activePath: bool)

  ghost function Noted(g: Layer, s: State, f: Flags, e: nat): Flags
    requires Flat(g) && e < |g.edges|
  {
    var f1 := f.(activePath := f.activePath || e !in s.inactive);
    if IsControl(g, e) then f1.(hasControl := true, controlToken := f.controlToken || TokenOn(g, s, e))
    else f1.(anyData := f.anyData || TokenOn(g, s, e),
             anyFresh := f.anyFresh || e in s.freshData || Seeded(g, s, e),
             dataPending := f.dataPending || (!TokenOn(g, s, e) && e !in s.inactive),
             requiredInactive := f.requiredInactive || (RequiredData(g, e) && e in s.inactive))
  }

  ghost function Flagged(g: Layer, s: State, i: nat, es: seq<nat>, k: nat): Flags
    requires Flat(g) && i < |g.nodes| && EdgesOf(g, es) && k <= |es|
  {
    if k == 0 then Flags(SeededControl(g, s, i), SeededControl(g, s, i), false, false, false, false, false)
    else Noted(g, s, Flagged(g, s, i, es, k - 1), es[k - 1])
  }

  lemma {:induction false} HasControlFlag(g: Layer, s: State, i: nat, es: seq<nat>, k: nat)
    requires Flat(g) && i < |g.nodes| && EdgesOf(g, es) && k <= |es|
    ensures Flagged(g, s, i, es, k).hasControl <==>
      SeededControl(g, s, i) || exists m :: 0 <= m < k && IsControl(g, es[m])
  {
    hide Flat, SeededControl, TokenOn, Seeded, IsControl, RequiredData;
    if k > 0 { HasControlFlag(g, s, i, es, k - 1); }
  }

  lemma {:induction false} ControlTokenFlag(g: Layer, s: State, i: nat, es: seq<nat>, k: nat)
    requires Flat(g) && i < |g.nodes| && EdgesOf(g, es) && k <= |es|
    ensures Flagged(g, s, i, es, k).controlToken <==>
      SeededControl(g, s, i) || exists m :: 0 <= m < k && IsControl(g, es[m]) && TokenOn(g, s, es[m])
  {
    hide Flat, SeededControl, TokenOn, Seeded, IsControl, RequiredData;
    if k > 0 { ControlTokenFlag(g, s, i, es, k - 1); }
  }

  lemma {:induction false} AnyDataFlag(g: Layer, s: State, i: nat, es: seq<nat>, k: nat)
    requires Flat(g) && i < |g.nodes| && EdgesOf(g, es) && k <= |es|
    ensures Flagged(g, s, i, es, k).anyData <==> exists m :: 0 <= m < k && !IsControl(g, es[m]) && TokenOn(g, s, es[m])
  {
    hide Flat, SeededControl, TokenOn, Seeded, IsControl, RequiredData;
    if k > 0 { AnyDataFlag(g, s, i, es, k - 1); }
  }

  lemma {:induction false} AnyFreshFlag(g: Layer, s: State, i: nat, es: seq<nat>, k: nat)
    requires Flat(g) && i < |g.nodes| && EdgesOf(g, es) && k <= |es|
    ensures Flagged(g, s, i, es, k).anyFresh <==>
      exists m :: 0 <= m < k && !IsControl(g, es[m]) && (es[m] in s.freshData || Seeded(g, s, es[m]))
  {
    hide Flat, SeededControl, TokenOn, Seeded, IsControl, RequiredData;
    if k > 0 { AnyFreshFlag(g, s, i, es, k - 1); }
  }

  lemma {:induction false} PendingFlag(g: Layer, s: State, i: nat, es: seq<nat>, k: nat)
    requires Flat(g) && i < |g.nodes| && EdgesOf(g, es) && k <= |es|
    ensures Flagged(g, s, i, es, k).dataPending <==>
      exists m :: 0 <= m < k && !IsControl(g, es[m]) && !TokenOn(g, s, es[m]) && es[m] !in s.inactive
  {
    hide Flat, SeededControl, TokenOn, Seeded, IsControl, RequiredData;
    if k > 0 { PendingFlag(g, s, i, es, k - 1); }
  }

  lemma {:induction false} RequiredFlag(g: Layer, s: State, i: nat, es: seq<nat>, k: nat)
    requires Flat(g) && i < |g.nodes| && EdgesOf(g, es) && k <= |es|
    ensures Flagged(g, s, i, es, k).requiredInactive <==>
      exists m :: 0 <= m < k && RequiredData(g, es[m]) && es[m] in s.inactive
  {
    hide Flat, SeededControl, TokenOn, Seeded, IsControl, RequiredData;
    if k > 0 {
      RequiredFlag(g, s, i, es, k - 1);
      RequiredIsData(g, es[k - 1]);
    }
  }

  lemma RequiredIsData(g: Layer, e: nat)
    requires Flat(g) && e < |g.edges|
    ensures RequiredData(g, e) ==> !IsControl(g, e)
  {
  }

  lemma {:induction false} ActiveFlag(g: Layer, s: State, i: nat, es: seq<nat>, k: nat)
    requires Flat(g) && i < |g.nodes| && EdgesOf(g, es) && k <= |es|
    ensures Flagged(g, s, i, es, k).activePath <==> exists m :: 0 <= m < k && es[m] !in s.inactive
  {
    hide Flat, SeededControl, TokenOn, Seeded, IsControl, RequiredData;
    if k > 0 { ActiveFlag(g, s, i, es, k - 1); }
  }

  lemma FlagsAre(g: Layer, s: State, i: nat, es: seq<nat>)
    requires Flat(g) && i < |g.nodes| && es == In(g, i)
    ensures Flagged(g, s, i, es, |es|) ==
      Flags(HasControl(g, s, i), ControlToken(g, s, i), AnyData(g, s, i), AnyFresh(g, s, i),
            DataPending(g, s, i), RequiredInactive(g, s, i), ActivePath(g, s, i))
  {
    hide Flat, SeededControl, TokenOn, Seeded, IsControl, RequiredData, Flagged;
    HasControlFlag(g, s, i, es, |es|);
    ControlTokenFlag(g, s, i, es, |es|);
    AnyDataFlag(g, s, i, es, |es|);
    AnyFreshFlag(g, s, i, es, |es|);
    PendingFlag(g, s, i, es, |es|);
    RequiredFlag(g, s, i, es, |es|);
    ActiveFlag(g, s, i, es, |es|);
  }

  class Scheduler {
    const g: Layer
    const scope: seq<nat>
    const parentDeadline: Option<nat>
    const env: Env
    const stream: Stream
    var seeds: map<(nat, string), Json>
    var tokens: map<nat, Json>
    var freshData: set<nat>
    var inactive: set<nat>
    var queue: seq<nat>
    var queued: set<nat>
    var settled: set<nat>
    var fired: set<nat>
    var activations: seq<nat>
    var latest: map<nat, Inputs>
    var failed: seq<nat>
    var skipped: seq<nat>
    var firstFailure: Option<Code>
    var cancelled: bool
    var timedOut: bool
    var loopState: Option<LoopState>
    var iteration: Option<nat>

    /** The fields as a value. */
    function View(): State
      reads this, stream
    {
      State(scope, parentDeadline, seeds, tokens, freshData, inactive, queue, queued, settled, fired,
            activations, latest, failed, skipped, firstFailure, cancelled, timedOut, loopState, iteration,
            stream.nextSeq, stream.trace, stream.tick)
    }

    ghost predicate Valid()
      reads this, stream
    {
      Flat(g) && Sized(g, View())
    }

    constructor (document: Layer, env: Env, stream: Stream, scope: seq<nat>, deadline: Option<nat>,
        seeds: map<(nat, string), Json>)
      requires Flat(document) && Documented(document)
      ensures Valid() && g == document && this.env == env && this.stream == stream
      ensures View() == Fresh(document, scope, deadline, seeds, stream.nextSeq, stream.trace, stream.tick)
    {
      var incoming, outgoing := BuildLists(document.nodes, document.edges);
      this.g := Layer(document.nodes, document.edges, incoming, outgoing);
      this.scope, this.parentDeadline, this.env, this.stream, this.seeds := scope, deadline, env, stream, seeds;
      tokens, freshData, inactive, queue, queued, settled, fired := map[], {}, {}, [], {}, {}, {};
      activations := seq(|document.nodes|, _ => 0);
      latest, failed, skipped, firstFailure := map[], [], [], None;
      cancelled, timedOut, loopState, iteration := false, false, None, None;
    }

    method Evaluate(i: nat) returns (r: Ready)
      requires Valid() && i < |g.nodes|
      ensures r == S.Evaluate(g, View(), i)
    {
      hide Flat, SeededControl, TokenOn, Seeded, IsControl, RequiredData;
      hide HasControl, ControlToken, AnyData, AnyFresh, DataPending, RequiredInactive, ActivePath;
      var es := In(g, i);
      var seededAny := exists k | k in seeds :: k.0 == i;
      ghost var s := View();
      if es == [] {
        return if activations[i] == 0 && i !in fired then Go else Wait;
      }
      var seededControl := SeededControl(g, View(), i);
      var hasControl, controlToken := seededControl, seededControl;
      var anyData, anyFresh, dataPending, requiredInactive, activePath := false, false, false, false, false;
      for k := 0 to |es|
        invariant Flags(hasControl, controlToken, anyData, anyFresh, dataPending, requiredInactive, activePath) ==
          Flagged(g, s, i, es, k)
      {
        var e := es[k];
        var seeded := Seeded(g, View(), e);
        var token := TokenOn(g, View(), e);
        activePath := activePath || e !in inactive;
        if IsControl(g, e) {
          hasControl := true;
          controlToken := controlToken || token;
        } else {
          anyData := anyData || token;
          anyFresh := anyFresh || e in freshData || seeded;
          dataPending := dataPending || (!token && e !in inactive);
          requiredInactive := requiredInactive || (RequiredData(g, e) && e in inactive);
        }
      }
      FlagsAre(g, s, i, es);
      if requiredInactive { return if activations[i] == 0 then Blocked else Wait; }
      if hasControl {
        if controlToken { return Go; }
        return if activations[i] > 0 || activePath then Wait else Blocked;
      }
      if activations[i] == 0 {
        if (anyData || seededAny) && !dataPending { return Go; }
      } else if anyFresh && !dataPending {
        return Go;
      }
      return if activePath then Wait else Blocked;
    }

    // ---------------------------------------------------------------- the skip cascade

    method Post(body: Body)
      modifies stream
      ensures View() == S.Emit(old(View()), body)
    {
      stream.Emit(scope, body);
    }

    method SkipNode(i: nat, reason: Reason)
      requires Valid() && i < |g.nodes|
      modifies this, stream
      ensures Valid() && View() == S.SkipNode(g, old(View()), i, reason)
      decreases |Unsettled(g, View())|, 0, 0
    {
      if i in settled { return; }
      settled := settled + {i};
      Post(Skipped(i, reason, activations[i], iteration));
      if i !in skipped { skipped := skipped + [i]; }
      assert View() == S.MarkSkipped(old(View()), i, reason);
      assert i in Unsettled(g, old(View())) && i !in Unsettled(g, View());
      SubsetCardinality(Unsettled(g, View()), Unsettled(g, old(View())));
      DeactivateOutgoing(i);
    }

    method DeactivateOutgoing(i: nat)
      requires Valid() && i < |g.nodes|
      modifies this, stream
      ensures Valid() && View() == S.DeactivateAll(g, old(View()), Out(g, i))
      decreases |Unsettled(g, View())|, 2, 0
    {
      var es := Out(g, i);
      for k := 0 to |es|
        invariant Valid() && S.Cascades(g, old(View()), View())
        invariant S.DeactivateAll(g, View(), es[k..]) == S.DeactivateAll(g, old(View()), es)
      {
        assert es[k..][1..] == es[k + 1..];
        SubsetCardinality(Unsettled(g, View()), Unsettled(g, old(View())));
        DeactivateEdge(es[k]);
      }
      assert es[|es|..] == [];
    }

    method DeactivateEdge(e: nat)
      requires Valid() && e < |g.edges|
      modifies this, stream
      ensures Valid() && View() == S.DeactivateEdge(g, old(View()), e)
      decreases |Unsettled(g, View())|, 1, 0
    {
      if e in inactive { return; }
      inactive := inactive + {e};
      assert Unsettled(g, View()) == Unsettled(g, old(View()));
      var target := g.edges[e].target;
      if target !in settled && activations[target] == 0 {
        var ready := Evaluate(target);
        if ready == Blocked { SkipNode(target, NoActiveInput); }
      }
    }

    method Prepare()
      requires Valid()
      modifies this, stream
      ensures Valid() && View() == S.Prepare(g, old(View()), 0)
    {
      hide S.SkipNode, Flat;
      for i := 0 to |g.nodes|
        invariant Valid() && S.Prepare(g, View(), i) == S.Prepare(g, old(View()), 0)
      {
        if !g.nodes[i].enabled { SkipNode(i, Disabled); }
      }
    }

    method EnqueueReady()
      requires Valid()
      modifies this, stream
      ensures Valid() && View() == S.EnqueueReady(g, old(View()), 0)
    {
      hide S.Evaluate, S.SkipNode;
      for i := 0 to |g.nodes|
        invariant Valid() && S.EnqueueReady(g, View(), i) == S.EnqueueReady(g, old(View()), 0)
      {
        if i !in settled && i !in queued {
          var ready := Evaluate(i);
          if ready == Go {
            queued := queued + {i};
            queue := queue + [i];
          } else if ready == Blocked && activations[i] == 0 {
            SkipNode(i, NoActiveInput);
          }
        }
      }
    }

    method SettleUnreached()
      requires Valid()
      modifies this, stream
      ensures Valid() && View() == S.SettleUnreached(g, old(View()), 0)
    {
      hide S.SkipNode, Flat;
      for i := 0 to |g.nodes|
        invariant Valid() && S.SettleUnreached(g, View(), i) == S.SettleUnreached(g, old(View()), 0)
      {
        if i !in settled && activations[i] == 0 { SkipNode(i, NoActivationPath); }
      }
    }

    // ---------------------------------------------------------------- one activation

    method ConsumeInputs(i: nat) returns (inputs: Inputs)
      requires Valid() && i < |g.nodes|
      modifies this
      ensures Valid() && View() == S.Consume(g, old(View()), i) && inputs == S.ConsumedInputs(g, old(View()), i)
    {
      hide EdgeInputs, NamedControl, Flat;
      var fromEdges := ConsumeEdges(i);
      var fromSeeds := ConsumeSeeds(i);
      inputs := fromEdges + fromSeeds;
    }

    /** Values on incoming edges; control tokens and fresh marks are used up. */
    method ConsumeEdges(i: nat) returns (inputs: Inputs)
      requires Valid() && i < |g.nodes|
      modifies this`tokens, this`freshData
      ensures Valid() && inputs == EdgeInputs(g, old(View()), In(g, i), map[])
      ensures tokens == S.Consume(g, old(View()), i).tokens && freshData == S.Consume(g, old(View()), i).freshData
    {
      hide NamedControl, EdgeInputs, Flat;
      var es := In(g, i);
      ghost var s := View();
      inputs := map[];
      assert Distinct(es) by { OneEach(g, i); }
      for k := 0 to |es|
        invariant EdgeInputs(g, s, es[k..], inputs) == EdgeInputs(g, s, es, map[])
        invariant tokens == s.tokens - Passed(g, es, k, true) && freshData == s.freshData - Passed(g, es, k, false)
      {
        var e := es[k];
        var key := (g.edges[e].target, g.edges[e].targetPort);
        PassedGrows(g, es, k, true);
        PassedGrows(g, es, k, false);
        EdgeInputsStep(g, s, es[k..], inputs);
        assert es[k..][1..] == es[k + 1..];
        if e in tokens {
          inputs := inputs[key.1 := tokens[e]];
        } else if key in seeds {
          inputs := inputs[key.1 := seeds[key]];
        }
        if IsControl(g, e) { tokens := tokens - {e}; } else { freshData := freshData - {e}; }
      }
      EdgeInputsEnd(g, s, es[|es|..], inputs);
      PassedAll(g, es, i);
    }

    /** Values bound from outside; control seeds are used up. */
    method ConsumeSeeds(i: nat) returns (inputs: Inputs)
      requires i < |g.nodes|
      modifies this`seeds
      ensures inputs == (map k | k in old(seeds) && k.0 == i :: k.1 := old(seeds)[k])
      ensures seeds == old(seeds) - (set k | k in old(seeds) && k.0 == i && NamedControl(g, i, k.1))
    {
      hide NamedControl;
      inputs := map[];
      var keys := set k | k in seeds && k.0 == i;
      ghost var all := keys;
      while keys != {}
        invariant keys <= all
        invariant forall k :: k in seeds <==> k in old(seeds) && !(k in all - keys && NamedControl(g, i, k.1))
        invariant forall k :: k in seeds ==> seeds[k] == old(seeds)[k]
        invariant forall p :: p in inputs <==> (i, p) in all - keys
        invariant forall p :: p in inputs ==> inputs[p] == old(seeds)[(i, p)]
        decreases keys
      {
        var key :| key in keys;
        assert key == (i, key.1) && key in seeds;
        inputs := inputs[key.1 := seeds[key]];
        if NamedControl(g, i, key.1) { seeds := seeds - {key}; }
        keys := keys - {key};
      }
    }

    method PropagateOutputs(i: nat, outputs: Inputs)
      requires Valid() && i < |g.nodes|
      modifies this, stream
      ensures Valid() && View() == S.Propagate(g, old(View()), i, outputs, Out(g, i))
    {
      hide S.DeactivateEdge, Routes, Flat;
      var es := Out(g, i);
      for k := 0 to |es|
        invariant Valid() && S.Propagate(g, View(), i, outputs, es[k..]) == S.Propagate(g, old(View()), i, outputs, es)
      {
        var e, port := es[k], g.edges[es[k]].sourcePort;
        assert es[k..][1..] == es[k + 1..];
        if port in outputs {
          inactive := inactive - {e};
          tokens := tokens[e := outputs[port]];
          if !IsControl(g, e) { freshData := freshData + {e}; }
        } else if g.nodes[i].IsGate() {
        } else if !IsControl(g, e) {
          tokens, freshData := tokens - {e}, freshData - {e};
        } else {
          DeactivateEdge(e);
        }
      }
    }

    method FailStarted(i: nat, activation: nat, k: Option<nat>, code: Code)
      requires Valid() && i < |g.nodes|
      modifies this, stream
      ensures Valid() && View() == S.FailStarted(g, old(View()), i, activation, k, code)
    {
      hide Flat, Spares, S.DeactivateAll;
      if firstFailure.None? { firstFailure := Some(code); }
      Post(Failed(i, code, activation, k));
      settled := settled + {i};
      if i !in failed { failed := failed + [i]; }
      DeactivateOutgoing(i);
    }

    /** Finished, and the outputs handed on. */
    method Finish(i: nat, outputs: Inputs, k: Option<nat>)
      requires Valid() && i < |g.nodes|
      modifies this, stream
      ensures Valid() && View() == S.Finish(g, old(View()), i, outputs, k)
    {
      hide S.Propagate;
      Post(Finished(i, outputs, activations[i], k));
      latest := latest[i := outputs];
      PropagateOutputs(i, outputs);
    }

    method Begin(i: nat)
      requires Valid() && i < |g.nodes|
      modifies this, stream
      ensures Valid() && View() == S.Begin(g, old(View()), i)
    {
      activations := activations[i := activations[i] + 1];
      if g.incoming[i] == [] { fired := fired + {i}; }
      Post(Started(i, activations[i], iteration, g.nodes[i].Composite?));
    }

    /** Returns whether the run goes on. */
    method RunNode(i: nat, inputs: Inputs) returns (goOn: bool)
      requires Valid() && i < |g.nodes|
      modifies this, stream
      ensures Valid() && S.RunNode(g, env, old(View()), i, inputs) == Step(View(), if goOn then Continue else Break)
    {
      hide S.FailStarted, S.Answered, S.LacksInput, Flat, Spares, Cascades;
      var k := iteration;
      Begin(i);
      ghost var s1 := View();
      if S.LacksInput(g, i, inputs) {
        FailStarted(i, activations[i], k, MissingInput);
        goOn := true;
      } else {
        var reply := env.execute(scope, i, activations[i], inputs, stream.tick);
        stream.tick := stream.tick + 1;
        assert View() == S.Tick(s1);
        if reply.denied.Some? {
          FailStarted(i, activations[i], k, reply.denied.value);
          goOn := true;
        } else {
          goOn := Answered(i, reply);
        }
      }
    }

    method Answered(i: nat, reply: Reply) returns (goOn: bool)
      requires Valid() && i < |g.nodes|
      modifies this, stream
      ensures Valid() && S.Answered(g, old(View()), i, reply) == Step(View(), if goOn then Continue else Break)
    {
      hide S.FailStarted, S.Finish, Flat, Spares, S.Deadline;
      var activation, k := activations[i], iteration;
      if reply.cancelled {
        Post(Cancelled(i, activation, k));
        cancelled := true;
        return false;
      }
      if Deadline().Some? && reply.expired {
        FailStarted(i, activation, k, LoopTimeout);
        loopState := None;
        return false;
      }
      match reply.answer
      case Ok(outputs) => Finish(i, outputs, k); return true;
      case Err(code) => FailStarted(i, activation, k, code); return true;
    }

    function Deadline(): (d: Option<nat>)
      reads this, stream
      ensures d == S.Deadline(View())
    {
      match (loopState, parentDeadline)
      case (Some(inner), Some(outer)) => Some(Min(inner.deadline, outer))
      case (Some(inner), None) => Some(inner.deadline)
      case (None, outer) => outer
    }

    // ---------------------------------------------------------------- the loop gate

    /** Looks at the outside world at the next tick. */
    method Tick() returns (now: nat)
      modifies stream`tick
      ensures now == old(stream.tick) && View() == S.Tick(old(View()))
    {
      now := stream.tick;
      stream.tick := now + 1;
    }

    method FailGate(i: nat, k: Option<nat>, code: Code)
      requires Valid() && i < |g.nodes|
      modifies this, stream
      ensures Valid() && View() == S.FailGate(g, old(View()), i, k, code)
    {
      hide S.FailStarted;
      Post(Started(i, activations[i], k, g.nodes[i].Composite?));
      FailStarted(i, activations[i], k, code);
    }

    method FailGateTimeout(i: nat, k: nat)
      requires Valid() && i < |g.nodes|
      modifies this, stream
      ensures Valid() && View() == S.FailGateTimeout(g, old(View()), i, k)
    {
      hide S.FailGate;
      FailGate(i, Some(k), LoopTimeout);
      loopState := None;
      iteration := Some(k);
    }

    method FailLoopTimeout()
      requires Valid()
      modifies this, stream
      ensures Valid() && View() == S.FailLoopTimeout(g, old(View()))
    {
      hide S.FailGateTimeout;
      if loopState.Some? {
        var state := loopState.value;
        activations := activations[state.gate := activations[state.gate] + 1];
        FailGateTimeout(state.gate, state.iteration);
      }
    }

    method EmitContinue(i: nat, k: nat, payload: Json, inputs: Inputs)
      requires Valid() && i < |g.nodes|
      modifies this, stream
      ensures Valid() && View() == S.EmitContinue(g, old(View()), i, k, payload, inputs)
    {
      hide S.Propagate;
      iteration := Some(k);
      Post(Started(i, activations[i], Some(k), g.nodes[i].Composite?));
      var outputs := GateOutputs("continue", payload, inputs);
      Post(Finished(i, outputs, activations[i], Some(k)));
      PropagateOutputs(i, outputs);
      Post(Log(i));
    }

    method StartLoop(i: nat, timeout: nat, inputs: Inputs)
      requires Valid() && i < |g.nodes| && "start" in inputs
      modifies this, stream
      ensures Valid() && S.GateStart(g, env, old(View()), i, timeout, inputs) == Step(View(), Continue)
    {
      hide S.EmitContinue, S.FailGate;
      if loopState.Some? {
        FailGate(i, iteration, LoopInvalidState);
      } else {
        loopState := Some(LoopState(i, 1, env.now(stream.tick) + timeout));
        stream.tick := stream.tick + 1;
        EmitContinue(i, 1, inputs["start"], inputs);
      }
    }

    method NextIteration(i: nat, limit: nat, inputs: Inputs) returns (goOn: bool)
      requires Valid() && i < |g.nodes| && "next" in inputs
      modifies this, stream
      ensures Valid() &&
        S.GateNext(g, env, old(View()), i, limit, inputs) == Step(View(), if goOn then Continue else Break)
    {
      hide S.EmitContinue, S.FailGate, S.FailGateTimeout;
      if loopState.None? {
        FailGate(i, iteration, LoopInvalidState);
        return true;
      }
      var state, now := loopState.value, env.now(stream.tick);
      stream.tick := stream.tick + 1;
      if now >= state.deadline {
        FailGateTimeout(i, state.iteration);
        return false;
      }
      if state.iteration + 1 > limit {
        FailGate(i, Some(state.iteration), LoopBudgetExhausted);
        loopState := None;
        return false;
      }
      loopState := Some(state.(iteration := state.iteration + 1));
      EmitContinue(i, state.iteration + 1, inputs["next"], inputs);
      return true;
    }

    method StopLoop(i: nat, inputs: Inputs)
      requires Valid() && i < |g.nodes| && "stop" in inputs
      modifies this, stream
      ensures Valid() && S.GateStop(g, old(View()), i, inputs) == Step(View(), Continue)
    {
      hide S.Propagate;
      var k := if loopState.Some? then loopState.value.iteration else 0;
      Post(Started(i, activations[i], Some(k), g.nodes[i].Composite?));
      var outputs := GateOutputs("exit", inputs["stop"], inputs);
      Post(Finished(i, outputs, activations[i], Some(k)));
      Post(Log(i));
      loopState := None;
      iteration := Some(k);
      PropagateOutputs(i, outputs);
    }

    method HandleGate(i: nat, inputs: Inputs) returns (goOn: bool)
      requires Valid() && i < |g.nodes|
      modifies this, stream
      ensures Valid() && S.HandleGate(g, env, old(View()), i, inputs) == Step(View(), if goOn then Continue else Break)
    {
      hide S.FailGate, S.GateStart, S.GateNext, S.GateStop, S.GateBudget, Flat, Spares;
      activations := activations[i := activations[i] + 1];
      goOn := true;
      var budget := GateBudget(g.nodes[i]);
      if budget.None? {
        FailGate(i, iteration, LoopInvalidBudget);
      } else if "stop" in inputs {
        StopLoop(i, inputs);
      } else if "start" in inputs {
        StartLoop(i, budget.value.1, inputs);
      } else if "next" in inputs {
        goOn := NextIteration(i, budget.value.0, inputs);
      } else {
        FailGate(i, iteration, LoopMissingTrigger);
      }
    }

    // ---------------------------------------------------------------- composites and the run loop

    /** Runs the composite's own layer in a nested instance on the same stream. */
    method RunNested(fuel: nat, i: nat, inputs: Inputs) returns (inner: Scheduler, flow: Flow)
      requires Valid() && ValidLayer(g) && Documented(g) && i < |g.nodes| && g.nodes[i].Composite?
      modifies this, stream
      ensures Valid() && fresh(inner) && View() == Resume(old(View()), inner.View())
      ensures var layer := g.nodes[i].layer;
        S.Run(layer, env, fuel, fuel, S.Prepare(layer, S.Nested(g, old(View()), i, inputs), 0)) ==
          Step(inner.View(), flow)
      decreases g, 0, 0
    {
      hide S.Prepare, S.Run, ValidLayer, Documented, SeedsFor;
      NestedIsValid(g, i);
      inner := new Scheduler(g.nodes[i].layer, env, stream, scope + [i], Deadline(),
        SeedsFor(g.nodes[i].ports, inputs, map[]));
      inner.Prepare();
      flow := inner.Run(fuel, fuel);
    }

    method RunComposite(fuel: nat, i: nat, inputs: Inputs) returns (flow: Flow)
      requires Valid() && ValidLayer(g) && Documented(g) && i < |g.nodes| && g.nodes[i].Composite?
      modifies this, stream
      ensures Valid() && S.RunComposite(g, env, fuel, old(View()), i, inputs) == Step(View(), flow)
      decreases g, 0, 1
    {
      hide S.Closed, S.FailStarted, S.Prepare, S.Run, S.Nested, ValidLayer, Documented;
      var k := iteration;
      Begin(i);
      ghost var s1 := View();
      if LacksPort(g, i, inputs) {
        FailStarted(i, activations[i], k, MissingInput);
        return Continue;
      }
      var inner, innerFlow := RunNested(fuel, i, inputs);
      if innerFlow.Cut? { return Cut; }
      ghost var ended := inner.View();
      var at := Tick();
      flow := Close(i, inner, ended, env.cancelled(at));
    }

    /** The composite's own outcome, read off the instance that ran. */
    method Close(i: nat, inner: Scheduler, ghost ended: State, stopped: bool) returns (flow: Flow)
      requires Valid() && i < |g.nodes| && g.nodes[i].Composite? && inner != this &&
        ended == inner.View().(tick := ended.tick)
      modifies this, stream
      ensures Valid() && S.Closed(g, old(View()), i, ended, stopped) == Step(View(), flow)
    {
      hide S.FailStarted, S.Finish, Flat, Spares, CompositeOutputs;
      if inner.cancelled || stopped {
        Post(Cancelled(i, activations[i], iteration));
        cancelled := true;
        return Break;
      }
      if inner.timedOut || inner.failed != [] {
        var code := if inner.firstFailure.Some? then inner.firstFailure.value else LoopTimeout;
        FailStarted(i, activations[i], iteration, code);
        return Continue;
      }
      Finish(i, CompositeOutputs(g.nodes[i].outputs, inner.latest, map[]), iteration);
      return Continue;
    }

    method Activate(fuel: nat, i: nat) returns (flow: Flow)
      requires Valid() && ValidLayer(g) && Documented(g) && i < |g.nodes|
      modifies this, stream
      ensures Valid() && S.Activate(g, env, fuel, old(View()), i) == Step(View(), flow)
      decreases g, 1, 0
    {
      hide S.HandleGate, S.RunNode, S.RunComposite, ConsumedInputs, S.Consume, ValidLayer, Flat;
      var inputs := ConsumeInputs(i);
      if g.nodes[i].IsGate() {
        var goOn := HandleGate(i, inputs);
        flow := if goOn then Continue else Break;
      } else if g.nodes[i].Composite? {
        flow := RunComposite(fuel, i, inputs);
      } else {
        var goOn := RunNode(i, inputs);
        flow := if goOn then Continue else Break;
      }
    }

    method Dispatch(fuel: nat, i: nat) returns (flow: Flow)
      requires Valid() && ValidLayer(g) && Documented(g) && i < |g.nodes|
      modifies this, stream
      ensures Valid() && S.Dispatch(g, env, fuel, old(View()), i) == Step(View(), flow)
      decreases g, 2, 0
    {
      hide S.Evaluate, S.SkipNode, S.Activate, ValidLayer, Flat;
      if i in settled { return Continue; }
      var ready := Evaluate(i);
      match ready
      case Blocked => SkipNode(i, NoActiveInput); return Continue;
      case Wait => return Continue;
      case Go => flow := Activate(fuel, i);
    }

    /** One turn of the run loop past its safe point. */
    method Turn(fuel: nat) returns (flow: Flow)
      requires Valid() && ValidLayer(g) && Documented(g)
      modifies this, stream
      ensures Valid() && S.Turn(g, env, fuel, old(View())) == Step(View(), flow)
      decreases g, 3, 0
    {
      hide S.EnqueueReady, S.Dispatch, ValidLayer, Flat;
      EnqueueReady();
      if queue == [] { return Break; }
      ghost var t := View();
      var i := queue[0];
      queue, queued := queue[1..], queued - {i};
      assert View() == S.Pop(t) && i in t.queue;
      flow := Dispatch(fuel, i);
    }

    /** The safe point, and then a turn. */
    method Iterate(fuel: nat) returns (flow: Flow)
      requires Valid() && ValidLayer(g) && Documented(g)
      modifies this, stream
      ensures Valid() && S.Iterate(g, env, fuel, old(View())) == Step(View(), flow)
      decreases g, 4, 0
    {
      hide S.Turn, S.FailLoopTimeout, ValidLayer, Flat, Documented;
      var at := Tick();
      if env.cancelled(at) { cancelled := true; return Break; }
      at := Tick();
      if !env.resumed(at) { cancelled := true; return Break; }
      at := Tick();
      if Deadline().Some? && env.now(at) >= Deadline().value {
        if loopState.Some? { FailLoopTimeout(); } else { timedOut := true; }
        return Break;
      }
      flow := Turn(fuel);
    }

    /** The run loop, observed for at most `n` turns. */
    method Run(fuel: nat, n: nat) returns (flow: Flow)
      requires Valid() && ValidLayer(g) && Documented(g)
      modifies this, stream
      ensures Valid() && S.Run(g, env, fuel, n, old(View())) == Step(View(), flow)
      decreases g, 5, n
    {
      hide S.Iterate, S.SettleUnreached, ValidLayer, Flat;
      var left := n;
      while left > 0
        invariant Valid() && S.Run(g, env, fuel, left, View()) == S.Run(g, env, fuel, n, old(View()))
      {
        flow := Iterate(fuel);
        if flow.Cut? { return; }
        if flow.Break? {
          SettleUnreached();
          return;
        }
        left := left - 1;
      }
      flow := Cut;
    }

    /** `finish`: the status the run reports. */
    method Status() returns (status: Status)
      ensures status == StatusOf(View())
    {
      if cancelled { return CancelledRun; }
      return if failed == [] then Completed else FailedRun;
    }
  }

  ghost function Passed(g: Layer, es: seq<nat>, k: nat, control: bool): set<nat>
    requires k <= |es| && EdgesOf(g, es)
  {
    set m | 0 <= m < k && IsControl(g, es[m]) == control :: es[m]
  }

  lemma PassedGrows(g: Layer, es: seq<nat>, k: nat, control: bool)
    requires k < |es| && EdgesOf(g, es) && Distinct(es)
    ensures Passed(g, es, k + 1, control) ==
      Passed(g, es, k, control) + if IsControl(g, es[k]) == control then {es[k]} else {}
    ensures es[k] !in Passed(g, es, k, control)
  {
  }

  lemma PassedAll(g: Layer, es: seq<nat>, i: nat)
    requires Flat(g) && i < |g.nodes| && es == In(g, i)
    ensures Passed(g, es, |es|, true) == set e | e in g.incoming[i] && IsControl(g, e)
    ensures Passed(g, es, |es|, false) == set e | e in g.incoming[i] && !IsControl(g, e)
  {
  }

  lemma OneEach(g: Layer, i: nat)
    requires Flat(g) && i < |g.nodes|
    ensures Distinct(In(g, i))
  {
  }

  lemma EdgeInputsStep(g: Layer, s: State, es: seq<nat>, inputs: Inputs)
    requires EdgesOf(g, es) && es != []
    ensures var key := (g.edges[es[0]].target, g.edges[es[0]].targetPort);
      EdgeInputs(g, s, es, inputs) == EdgeInputs(g, s, es[1..],
        if es[0] in s.tokens then inputs[key.1 := s.tokens[es[0]]]
        else if key in s.seeds then inputs[key.1 := s.seeds[key]] else inputs)
  {
  }

  lemma EdgeInputsEnd(g: Layer, s: State, es: seq<nat>, inputs: Inputs)
    requires es == []
    ensures EdgeInputs(g, s, es, inputs) == inputs
  {
  }

  lemma NestedIsValid(g: Layer, i: nat)
    requires ValidLayer(g) && Documented(g) && i < |g.nodes| && g.nodes[i].Composite?
    ensures ValidLayer(g.nodes[i].layer) && Documented(g.nodes[i].layer)
  {
  }

  /** `execute`: a root instance on a new stream. */
  method Execute(g: Layer, env: Env, fuel: nat) returns (flow: Flow, scheduler: Scheduler)
    requires ValidLayer(g) && Documented(g)
    ensures fresh(scheduler) && S.Execute(g, env, fuel) == Step(scheduler.View(), flow)
  {
    var stream := new Stream();
    scheduler := new Scheduler(g, env, stream, [], None, map[]);
    scheduler.Prepare();
    flow := scheduler.Run(fuel, fuel);
  }
}
