/** Runs end.  An edge triggers its target if it is a control edge, or a data edge into a node
    without control edges.  If every cycle of triggering edges passes through some gate's
    `continue`, and no path of them leads from a gate to a `start`, a run makes boundedly many
    turns, whatever the executors answer: every activation uses up a pending control token, a
    fresh mark, a control seed or the node's first activation, and `continue` is rationed by the
    largest loop budget, whichever gates drive the loop. */
module SchedulerTermination {
  import opened Wrappers
  import opened Json
  import opened Workflow
  import opened Digraph
  import opened SchedulerSpec
  import opened SchedulerExit

  // ---------------------------------------------------------------- the hypothesis

  ghost predicate HasControlEdge(g: Layer, i: nat)
    requires Flat(g) && i < |g.nodes|
  {
    exists e :: e in g.incoming[i] && IsControl(g, e)
  }

  ghost predicate Triggers(g: Layer, e: nat)
    requires Flat(g) && e < |g.edges|
  {
    IsControl(g, e) || !HasControlEdge(g, g.edges[e].target)
  }

  /** The `continue` edges of gates. */
  ghost predicate Reopens(g: Layer, e: nat)
    requires Flat(g) && e < |g.edges|
  {
    g.nodes[g.edges[e].source].IsGate() && g.edges[e].sourcePort == "continue"
  }

  ghost predicate Starts(g: Layer, e: nat)
    requires Flat(g) && e < |g.edges|
  {
    g.nodes[g.edges[e].target].IsGate() && g.edges[e].targetPort == "start"
  }

  ghost function TriggerArcs(g: Layer): Arcs
    requires Flat(g)
  {
    set e | 0 <= e < |g.edges| && Triggers(g, e) :: (g.edges[e].source, g.edges[e].target)
  }

  ghost function SequencingArcs(g: Layer): Arcs
    requires Flat(g)
  {
    set e | 0 <= e < |g.edges| && Triggers(g, e) && !Reopens(g, e) :: (g.edges[e].source, g.edges[e].target)
  }

  /** No external input feeds a port that an internal edge feeds, as validation demands. */
  ghost predicate BindingsApart(ports: seq<SubgraphInput>, layer: Layer) {
    forall p, b, e :: p in ports && b in p.targets && 0 <= e < |layer.edges| ==>
      (b.node, b.port) != (layer.edges[e].target, layer.edges[e].targetPort)
  }

  ghost predicate GateControlled(g: Layer)
    requires Flat(g)
  {
    && (forall i :: 0 <= i < |g.nodes| && g.nodes[i].IsGate() ==> NamedControl(g, i, "start"))
    && (forall e :: 0 <= e < |g.edges| && Starts(g, e) ==> IsControl(g, e))
    && Acyclic(SequencingArcs(g))
    && (forall c, e :: Walk(TriggerArcs(g), c) && c[0] < |g.nodes| && g.nodes[c[0]].IsGate() ==>
          0 <= e < |g.edges| && Starts(g, e) ==> g.edges[e].source != c[|c| - 1])
  }

  /** The hypothesis, layer by layer. */
  ghost predicate Controlled(g: Layer) {
    && Flat(g) && GateControlled(g)
    && forall i :: 0 <= i < |g.nodes| && g.nodes[i].Composite? ==>
         Controlled(g.nodes[i].layer) && BindingsApart(g.nodes[i].ports, g.nodes[i].layer)
  }

  ghost predicate SeedsApart(g: Layer, seeds: map<(nat, string), Json>) {
    forall e :: 0 <= e < |g.edges| ==> (g.edges[e].target, g.edges[e].targetPort) !in seeds
  }

  // ---------------------------------------------------------------- sums

  ghost function Sum(f: nat -> nat, n: nat): nat {
    if n == 0 then 0 else Sum(f, n - 1) + f(n - 1)
  }

  lemma {:induction false} SumLeq(f: nat -> nat, h: nat -> nat, d: nat -> nat, n: nat)
    requires forall i :: 0 <= i < n ==> h(i) <= f(i) + d(i)
    ensures Sum(h, n) <= Sum(f, n) + Sum(d, n)
  {
    if n > 0 { SumLeq(f, h, d, n - 1); }
  }

  /** As SumLeq, where the term at `c` has gone. */
  lemma {:induction false} SumDrops(f: nat -> nat, h: nat -> nat, d: nat -> nat, c: nat, n: nat)
    requires c < n && h(c) == 0 && forall i :: 0 <= i < n ==> h(i) <= f(i) + d(i)
    ensures Sum(h, n) + f(c) <= Sum(f, n) + Sum(d, n)
  {
    if c == n - 1 {
      SumLeq(f, h, d, n - 1);
    } else {
      SumDrops(f, h, d, c, n - 1);
    }
  }

  lemma {:induction false} SumZero(d: nat -> nat, n: nat)
    requires forall i :: 0 <= i < n ==> d(i) == 0
    ensures Sum(d, n) == 0
  {
    if n > 0 { SumZero(d, n - 1); }
  }

  const Nothing: nat -> nat := (i: nat) => 0

  // ---------------------------------------------------------------- weights

  /** A rank that drops along every triggering edge other than a gate's `continue`. */
  ghost predicate Ranked(g: Layer, rank: seq<nat>)
    requires Flat(g)
  {
    |rank| == |g.nodes| && forall e :: 0 <= e < |g.edges| && Triggers(g, e) && !Reopens(g, e) ==>
      rank[g.edges[e].source] > rank[g.edges[e].target]
  }

  /** How many activations can follow from one of node `v` without another `continue`,
      that one included. */
  ghost function Weight(g: Layer, rank: seq<nat>, v: nat): (w: nat)
    requires Flat(g) && Ranked(g, rank) && v < |g.nodes|
    ensures w >= 1
    decreases rank[v], |g.edges| + 1
  {
    1 + WeightOut(g, rank, v, |g.edges|)
  }

  ghost function WeightOut(g: Layer, rank: seq<nat>, v: nat, k: nat): nat
    requires Flat(g) && Ranked(g, rank) && v < |g.nodes| && k <= |g.edges|
    decreases rank[v], k
  {
    if k == 0 then 0
    else
      var e: nat := k - 1;
      WeightOut(g, rank, v, e) +
      if g.edges[e].source == v && Triggers(g, e) && !Reopens(g, e) then Weight(g, rank, g.edges[e].target) else 0
  }

  /** How many `start` triggers of gates can follow from one activation of node `v`. */
  ghost function Sparks(g: Layer, rank: seq<nat>, v: nat): nat
    requires Flat(g) && Ranked(g, rank) && v < |g.nodes|
    decreases rank[v], |g.edges| + 1
  {
    if g.nodes[v].IsGate() then 0 else SparksOut(g, rank, v, |g.edges|)
  }

  ghost function SparksOut(g: Layer, rank: seq<nat>, v: nat, k: nat): nat
    requires Flat(g) && Ranked(g, rank) && v < |g.nodes| && !g.nodes[v].IsGate() && k <= |g.edges|
    decreases rank[v], k
  {
    if k == 0 then 0
    else
      var e: nat := k - 1;
      SparksOut(g, rank, v, e) + if g.edges[e].source == v && Triggers(g, e) then EdgeSparks(g, rank, e) else 0
  }

  ghost function EdgeSparks(g: Layer, rank: seq<nat>, e: nat): nat
    requires Flat(g) && Ranked(g, rank) && e < |g.edges|
    decreases rank[g.edges[e].target], |g.edges| + 2
  {
    Sparks(g, rank, g.edges[e].target) + if Starts(g, e) then 1 else 0
  }

  // ---------------------------------------------------------------- what is pending

  ghost predicate Pending(g: Layer, s: State, e: nat)
    requires e < |g.edges|
  {
    if IsControl(g, e) then e in s.tokens else e in s.freshData
  }

  ghost function NodeWeight(g: Layer, rank: seq<nat>, s: State): nat -> nat
    requires Flat(g) && Ranked(g, rank) && Sized(g, s)
  {
    (v: nat) => if v >= |g.nodes| then 0 else
      (if s.activations[v] == 0 then Weight(g, rank, v) else 0) +
        (if SeededControl(g, s, v) then Weight(g, rank, v) else 0)
  }

  ghost function EdgeWeight(g: Layer, rank: seq<nat>, s: State): nat -> nat
    requires Flat(g) && Ranked(g, rank)
  {
    (e: nat) => if e < |g.edges| && Triggers(g, e) && Pending(g, s, e) then Weight(g, rank, g.edges[e].target) else 0
  }

  ghost function NodeSpark(g: Layer, rank: seq<nat>, s: State): nat -> nat
    requires Flat(g) && Ranked(g, rank) && Sized(g, s)
  {
    (v: nat) => if v >= |g.nodes| then 0 else
      (if s.activations[v] == 0 then Sparks(g, rank, v) else 0) +
        (if SeededControl(g, s, v) then Sparks(g, rank, v) else 0)
      + (if g.nodes[v].IsGate() && (v, "start") in s.seeds then 1 else 0)
  }

  ghost function EdgeSpark(g: Layer, rank: seq<nat>, s: State): nat -> nat
    requires Flat(g) && Ranked(g, rank)
  {
    (e: nat) => if e < |g.edges| && Triggers(g, e) && Pending(g, s, e) then EdgeSparks(g, rank, e) else 0
  }

  /** Activations still in store without another `continue`. */
  ghost function Work(g: Layer, rank: seq<nat>, s: State): nat
    requires Flat(g) && Ranked(g, rank) && Sized(g, s)
  {
    Sum(NodeWeight(g, rank, s), |g.nodes|) + Sum(EdgeWeight(g, rank, s), |g.edges|)
  }

  /** `start` triggers still in store. */
  ghost function Fuse(g: Layer, rank: seq<nat>, s: State): nat
    requires Flat(g) && Ranked(g, rank) && Sized(g, s)
  {
    Sum(NodeSpark(g, rank, s), |g.nodes|) + Sum(EdgeSpark(g, rank, s), |g.edges|)
  }

  /** `t` follows `s` by an activation of `v` that emitted at most the ports in `outs`. */
  ghost predicate Turnover(g: Layer, s: State, t: State, v: nat, outs: set<string>)
    requires Flat(g) && Sized(g, s) && Sized(g, t) && v < |g.nodes|
  {
    && t.activations == Count(s, v).activations
    && t.seeds == Consume(g, s, v).seeds
    && (forall e :: 0 <= e < |g.edges| && Pending(g, t, e) ==>
          (Pending(g, s, e) && g.edges[e].target != v) || (g.edges[e].source == v && g.edges[e].sourcePort in outs))
  }

  /** What makes a node ready: something of its own is pending. */
  ghost predicate Due(g: Layer, s: State, v: nat)
    requires Flat(g) && Sized(g, s) && v < |g.nodes|
  {
    || s.activations[v] == 0
    || SeededControl(g, s, v)
    || exists e :: e in g.incoming[v] && Triggers(g, e) && Pending(g, s, e)
  }

  lemma GoIsDue(g: Layer, s: State, v: nat)
    requires Flat(g) && Sized(g, s) && v < |g.nodes| && SeedsApart(g, s.seeds) && Evaluate(g, s, v) == Go
    ensures Due(g, s, v)
  {
  }

  /** Consuming its inputs leaves a node without control seeds. */
  lemma SeedsUsedUp(g: Layer, s: State, v: nat)
    requires Flat(g) && v < |g.nodes|
    ensures var t := Consume(g, s, v);
      && !SeededControl(g, t, v)
      && (NamedControl(g, v, "start") ==> (v, "start") !in t.seeds)
      && (forall u :: 0 <= u < |g.nodes| && SeededControl(g, t, u) ==> SeededControl(g, s, u))
  {
    var t := Consume(g, s, v);
    forall k | k in t.seeds && k.0 == v ensures !ControlPort(g, v, k.1) {
      if ControlPort(g, v, k.1) { Found(g.nodes[v].Inputs(), k.1); }
    }
  }

  lemma {:induction false} Found(ports: seq<PortSpec>, name: string)
    requires FindPort(ports, name).Some?
    ensures var p := FindPort(ports, name).value; p in ports && p.name == name
  {
    if ports[0].name != name { Found(ports[1..], name); }
  }

  ghost function Produced(g: Layer, rank: seq<nat>, v: nat): nat -> nat
    requires Flat(g) && Ranked(g, rank)
  {
    (e: nat) => if e < |g.edges| && g.edges[e].source == v && Triggers(g, e) && !Reopens(g, e)
                then Weight(g, rank, g.edges[e].target) else 0
  }

  lemma {:induction false} ProducedIsWeightOut(g: Layer, rank: seq<nat>, v: nat, k: nat)
    requires Flat(g) && Ranked(g, rank) && v < |g.nodes| && k <= |g.edges|
    ensures Sum(Produced(g, rank, v), k) == WeightOut(g, rank, v, k)
  {
    if k > 0 { ProducedIsWeightOut(g, rank, v, k - 1); }
  }

  ghost function Sparked(g: Layer, rank: seq<nat>, v: nat): nat -> nat
    requires Flat(g) && Ranked(g, rank)
  {
    (e: nat) => if e < |g.edges| && g.edges[e].source == v && Triggers(g, e) then EdgeSparks(g, rank, e) else 0
  }

  lemma {:induction false} SparkedIsSparksOut(g: Layer, rank: seq<nat>, v: nat, k: nat)
    requires Flat(g) && Ranked(g, rank) && v < |g.nodes| && !g.nodes[v].IsGate() && k <= |g.edges|
    ensures Sum(Sparked(g, rank, v), k) == SparksOut(g, rank, v, k)
  {
    if k > 0 { SparkedIsSparksOut(g, rank, v, k - 1); }
  }

  // ---------------------------------------------------------------- one activation's balance

  /** Without `continue`, an activation uses up more work than it makes. */
  lemma WorkDrops(g: Layer, rank: seq<nat>, s: State, t: State, v: nat, outs: set<string>)
    requires Flat(g) && Ranked(g, rank) && Sized(g, s) && Sized(g, t) && v < |g.nodes|
    requires Turnover(g, s, t, v, outs) && Due(g, s, v) && (g.nodes[v].IsGate() ==> "continue" !in outs)
    ensures Work(g, rank, t) < Work(g, rank, s)
  {
    var n, m := |g.nodes|, |g.edges|;
    var made := Produced(g, rank, v);
    NodesDrop(g, rank, s, t, v, outs);
    EdgesGain(g, rank, s, t, v, outs);
    ProducedIsWeightOut(g, rank, v, m);
    if s.activations[v] == 0 || SeededControl(g, s, v) {
      SumLeq(EdgeWeight(g, rank, s), EdgeWeight(g, rank, t), made, m);
    } else {
      var c :| c in g.incoming[v] && Triggers(g, c) && Pending(g, s, c);
      assert EdgeWeight(g, rank, t)(c) == 0;
      SumDrops(EdgeWeight(g, rank, s), EdgeWeight(g, rank, t), made, c, m);
    }
  }

  lemma EdgesGain(g: Layer, rank: seq<nat>, s: State, t: State, v: nat, outs: set<string>)
    requires Flat(g) && Ranked(g, rank) && Sized(g, s) && Sized(g, t) && v < |g.nodes|
    requires Turnover(g, s, t, v, outs) && (g.nodes[v].IsGate() ==> "continue" !in outs)
    ensures forall e :: 0 <= e < |g.edges| ==>
      EdgeWeight(g, rank, t)(e) <= EdgeWeight(g, rank, s)(e) + Produced(g, rank, v)(e)
  {
  }

  lemma NodesDrop(g: Layer, rank: seq<nat>, s: State, t: State, v: nat, outs: set<string>)
    requires Flat(g) && Ranked(g, rank) && Sized(g, s) && Sized(g, t) && v < |g.nodes| && Turnover(g, s, t, v, outs)
    ensures var n := |g.nodes|;
      Sum(NodeWeight(g, rank, t), n) + NodeWeight(g, rank, s)(v) <= Sum(NodeWeight(g, rank, s), n)
  {
    var n := |g.nodes|;
    SeedsUsedUp(g, s, v);
    forall u | 0 <= u < n ensures NodeWeight(g, rank, t)(u) <= NodeWeight(g, rank, s)(u) + Nothing(u) {
      assert SeededControl(g, t, u) == SeededControl(g, Consume(g, s, v), u);
    }
    assert NodeWeight(g, rank, t)(v) == 0;
    SumDrops(NodeWeight(g, rank, s), NodeWeight(g, rank, t), Nothing, v, n);
    SumZero(Nothing, n);
  }

  /** Nothing downstream of a gate sparks. */
  lemma {:induction false} NoSparks(g: Layer, rank: seq<nat>, v: nat, c: seq<nat>)
    requires Flat(g) && Ranked(g, rank) && GateControlled(g) && v < |g.nodes|
    requires Walk(TriggerArcs(g), c) && c[0] < |g.nodes| && g.nodes[c[0]].IsGate() && c[|c| - 1] == v
    ensures Sparks(g, rank, v) == 0
    ensures forall e :: 0 <= e < |g.edges| && g.edges[e].source == v && Triggers(g, e) && !Reopens(g, e) ==>
      EdgeSparks(g, rank, e) == 0
    decreases rank[v]
  {
    forall e | 0 <= e < |g.edges| && g.edges[e].source == v && Triggers(g, e) && !Reopens(g, e)
      ensures EdgeSparks(g, rank, e) == 0
    {
      assert !Starts(g, e);
      var w := g.edges[e].target;
      assert (v, w) in TriggerArcs(g);
      NoSparks(g, rank, w, c + [w]);
    }
    if !g.nodes[v].IsGate() { NoSparksOut(g, rank, v, |g.edges|); }
  }

  lemma {:induction false} NoSparksOut(g: Layer, rank: seq<nat>, v: nat, k: nat)
    requires Flat(g) && Ranked(g, rank) && v < |g.nodes| && !g.nodes[v].IsGate() && k <= |g.edges|
    requires forall e :: 0 <= e < |g.edges| && g.edges[e].source == v && Triggers(g, e) ==> EdgeSparks(g, rank, e) == 0
    ensures SparksOut(g, rank, v, k) == 0
  {
    if k > 0 { NoSparksOut(g, rank, v, k - 1); }
  }

  lemma GateMakesNoSparks(g: Layer, rank: seq<nat>, v: nat, e: nat)
    requires Flat(g) && Ranked(g, rank) && GateControlled(g) && v < |g.nodes| && g.nodes[v].IsGate()
    requires e < |g.edges| && g.edges[e].source == v && Triggers(g, e)
    ensures EdgeSparks(g, rank, e) == 0
  {
    var w := g.edges[e].target;
    assert Walk(TriggerArcs(g), [v]);
    assert !Starts(g, e) by { assert [v][|[v]| - 1] == v; }
    assert (v, w) in TriggerArcs(g);
    NoSparks(g, rank, w, [v, w]);
  }

  ghost predicate StartDue(g: Layer, s: State, v: nat)
    requires Flat(g) && v < |g.nodes|
  {
    || (v, "start") in s.seeds
    || exists e :: e in g.incoming[v] && Starts(g, e) && e in s.tokens
  }

  lemma SparkedTotal(g: Layer, rank: seq<nat>, v: nat)
    requires Flat(g) && Ranked(g, rank) && GateControlled(g) && v < |g.nodes|
    ensures Sum(Sparked(g, rank, v), |g.edges|) == Sparks(g, rank, v)
  {
    if g.nodes[v].IsGate() {
      forall e | 0 <= e < |g.edges| ensures Sparked(g, rank, v)(e) == 0 {
        if g.edges[e].source == v && Triggers(g, e) { GateMakesNoSparks(g, rank, v, e); }
      }
      SumZero(Sparked(g, rank, v), |g.edges|);
    } else {
      SparkedIsSparksOut(g, rank, v, |g.edges|);
    }
  }

  lemma SparkNodesDrop(g: Layer, rank: seq<nat>, s: State, t: State, v: nat, outs: set<string>)
    requires Flat(g) && Ranked(g, rank) && GateControlled(g) && Sized(g, s) && Sized(g, t) && v < |g.nodes| &&
      Turnover(g, s, t, v, outs)
    ensures Sum(NodeSpark(g, rank, t), |g.nodes|) + NodeSpark(g, rank, s)(v) <= Sum(NodeSpark(g, rank, s), |g.nodes|)
  {
    var n := |g.nodes|;
    SeedsUsedUp(g, s, v);
    forall u | 0 <= u < n ensures NodeSpark(g, rank, t)(u) <= NodeSpark(g, rank, s)(u) + Nothing(u) {
      assert SeededControl(g, t, u) == SeededControl(g, Consume(g, s, v), u);
    }
    assert NodeSpark(g, rank, t)(v) == 0 by { assert SeededControl(g, t, v) == SeededControl(g, Consume(g, s, v), v); }
    SumDrops(NodeSpark(g, rank, s), NodeSpark(g, rank, t), Nothing, v, n);
    SumZero(Nothing, n);
  }

  lemma SparkBalance(g: Layer, rank: seq<nat>, s: State, t: State, v: nat, outs: set<string>)
    requires Flat(g) && Ranked(g, rank) && Sized(g, s) && Sized(g, t) && v < |g.nodes| && Turnover(g, s, t, v, outs)
    ensures forall e :: 0 <= e < |g.edges| ==>
      EdgeSpark(g, rank, t)(e) <= EdgeSpark(g, rank, s)(e) + Sparked(g, rank, v)(e)
  {
  }

  lemma NodeFuseDrops(g: Layer, rank: seq<nat>, s: State, t: State, v: nat, outs: set<string>)
    requires Flat(g) && Ranked(g, rank) && GateControlled(g) && Sized(g, s) && Sized(g, t) && v < |g.nodes|
    requires Turnover(g, s, t, v, outs) && Due(g, s, v) && !g.nodes[v].IsGate()
    ensures Fuse(g, rank, t) <= Fuse(g, rank, s)
  {
    hide GateControlled;
    var m := |g.edges|;
    SparkNodesDrop(g, rank, s, t, v, outs);
    SparkedTotal(g, rank, v);
    SparkBalance(g, rank, s, t, v, outs);
    if s.activations[v] == 0 || SeededControl(g, s, v) {
      SumLeq(EdgeSpark(g, rank, s), EdgeSpark(g, rank, t), Sparked(g, rank, v), m);
    } else {
      var c :| c in g.incoming[v] && Triggers(g, c) && Pending(g, s, c);
      SparkUsed(g, rank, s, t, v, outs, c);
      SumDrops(EdgeSpark(g, rank, s), EdgeSpark(g, rank, t), Sparked(g, rank, v), c, m);
    }
  }

  lemma SparkUsed(g: Layer, rank: seq<nat>, s: State, t: State, v: nat, outs: set<string>, c: nat)
    requires Flat(g) && Ranked(g, rank) && Sized(g, s) && Sized(g, t) && v < |g.nodes| && Turnover(g, s, t, v, outs)
    requires !g.nodes[v].IsGate() && c in g.incoming[v] && Triggers(g, c) && Pending(g, s, c)
    ensures EdgeSpark(g, rank, t)(c) == 0 && EdgeSpark(g, rank, s)(c) >= Sparks(g, rank, v)
  {
    assert !Pending(g, t, c);
  }

  /** A gate's activation does not add to the fuse, and one that takes a `start` shortens it. */
  lemma GateFuseDrops(g: Layer, rank: seq<nat>, s: State, t: State, v: nat, outs: set<string>)
    requires Flat(g) && Ranked(g, rank) && GateControlled(g) && Sized(g, s) && Sized(g, t) && v < |g.nodes|
    requires Turnover(g, s, t, v, outs) && g.nodes[v].IsGate()
    ensures Fuse(g, rank, t) <= Fuse(g, rank, s)
    ensures StartDue(g, s, v) ==> Fuse(g, rank, t) < Fuse(g, rank, s)
  {
    hide GateControlled;
    var m := |g.edges|;
    SparkNodesDrop(g, rank, s, t, v, outs);
    SparkedTotal(g, rank, v);
    SparkBalance(g, rank, s, t, v, outs);
    if c :| c in g.incoming[v] && Starts(g, c) && c in s.tokens {
      SparkSpent(g, rank, s, t, v, outs, c);
      SumDrops(EdgeSpark(g, rank, s), EdgeSpark(g, rank, t), Sparked(g, rank, v), c, m);
    } else {
      SumLeq(EdgeSpark(g, rank, s), EdgeSpark(g, rank, t), Sparked(g, rank, v), m);
    }
  }

  /** A consumed `start` edge carried a spark and carries none afterwards. */
  lemma SparkSpent(g: Layer, rank: seq<nat>, s: State, t: State, v: nat, outs: set<string>, c: nat)
    requires Flat(g) && Ranked(g, rank) && GateControlled(g) && Sized(g, s) && Sized(g, t) && v < |g.nodes| &&
      g.nodes[v].IsGate()
    requires Turnover(g, s, t, v, outs) && c in g.incoming[v] && Starts(g, c) && c in s.tokens
    ensures EdgeSpark(g, rank, t)(c) == 0 && EdgeSpark(g, rank, s)(c) >= 1
  {
    assert IsControl(g, c) && Triggers(g, c) && Pending(g, s, c);
    if g.edges[c].source == v {
      GateMakesNoSparks(g, rank, v, c);
    }
  }

  // ---------------------------------------------------------------- the code's activations balance

  /** Marks after `t` come from `s`, or from the ports `i` emitted. */
  ghost predicate MarksFrom(g: Layer, s: State, t: State, i: nat, outs: set<string>) {
    forall e :: 0 <= e < |g.edges| && Pending(g, t, e) ==>
      Pending(g, s, e) || (g.edges[e].source == i && g.edges[e].sourcePort in outs)
  }

  lemma {:induction false} PropagateMarks(g: Layer, s: State, i: nat, outputs: Inputs, es: seq<nat>)
    requires Flat(g) && Sized(g, s) && i < |g.nodes| && EdgesOf(g, es)
    requires forall k :: 0 <= k < |es| ==> g.edges[es[k]].source == i
    ensures MarksFrom(g, s, Propagate(g, s, i, outputs, es), i, outputs.Keys)
    decreases |es|
  {
    hide Flat, DeactivateEdge, MarksFrom, Deliver, Withdraw;
    if es == [] {
      NoMarks(g, s, i, outputs.Keys);
    } else {
      var s1 := OneMark(g, s, i, outputs, es[0]);
      PropagateMarks(g, s1, i, outputs, es[1..]);
      MarksChain(g, s, s1, Propagate(g, s1, i, outputs, es[1..]), i, outputs.Keys);
    }
  }

  lemma OneMark(g: Layer, s: State, i: nat, outputs: Inputs, e: nat) returns (t: State)
    requires Flat(g) && Sized(g, s) && i < |g.nodes| && e < |g.edges| && g.edges[e].source == i
    ensures var port := g.edges[e].sourcePort;
      t == if port in outputs then Deliver(g, s, e, outputs[port])
           else if g.nodes[i].IsGate() then s
           else if !IsControl(g, e) then Withdraw(s, e)
           else DeactivateEdge(g, s, e)
    ensures Sized(g, t) && MarksFrom(g, s, t, i, outputs.Keys)
  {
    hide Flat, DeactivateEdge;
    var port := g.edges[e].sourcePort;
    t := if port in outputs then Deliver(g, s, e, outputs[port])
      else if g.nodes[i].IsGate() then s
      else if !IsControl(g, e) then Withdraw(s, e)
      else DeactivateEdge(g, s, e);
  }

  lemma NoMarks(g: Layer, s: State, i: nat, outs: set<string>)
    ensures MarksFrom(g, s, s, i, outs)
  {
  }

  lemma MarksChain(g: Layer, s: State, s1: State, t: State, i: nat, outs: set<string>)
    requires MarksFrom(g, s, s1, i, outs) && MarksFrom(g, s1, t, i, outs)
    ensures MarksFrom(g, s, t, i, outs)
  {
  }

  lemma ConsumeTurns(g: Layer, s: State, t: State, v: nat, outs: set<string>)
    requires Flat(g) && Sized(g, s) && Sized(g, t) && v < |g.nodes|
    requires t.activations == Count(s, v).activations && t.seeds == Consume(g, s, v).seeds
    requires MarksFrom(g, Consume(g, s, v), t, v, outs)
    ensures Turnover(g, s, t, v, outs)
  {
    assert forall e :: 0 <= e < |g.edges| && g.edges[e].target == v ==> e in g.incoming[v];
  }

  /** The marks, seeds and counts of two states agree. */
  ghost predicate SameStore(s: State, t: State) {
    s.tokens == t.tokens && s.freshData == t.freshData && s.seeds == t.seeds && s.activations == t.activations
  }

  lemma FailMarks(g: Layer, s: State, i: nat, activation: nat, iteration: Option<nat>, code: Code)
    requires Flat(g) && Sized(g, s) && i < |g.nodes|
    ensures SameStore(s, FailStarted(g, s, i, activation, iteration, code))
  {
  }

  lemma FinishMarks(g: Layer, s: State, i: nat, outputs: Inputs, iteration: Option<nat>)
    requires Flat(g) && Sized(g, s) && i < |g.nodes|
    ensures MarksFrom(g, s, Finish(g, s, i, outputs, iteration), i, outputs.Keys)
  {
    OwnEdges(g, i);
    var s1 := Emit(s, Finished(i, outputs, s.activations[i], iteration));
    PropagateMarks(g, s1.(latest := s1.latest[i := outputs]), i, outputs, Out(g, i));
  }

  lemma BeginMarks(g: Layer, s: State, i: nat)
    requires Flat(g) && Sized(g, s) && i < |g.nodes|
    ensures var t := Begin(g, s, i);
      t.tokens == s.tokens && t.freshData == s.freshData && t.seeds == s.seeds && t.loopState == s.loopState
  {
  }

  /** How a step that goes on leaves the store: outputs of some ports, and the loop untouched. */
  ghost predicate Emits(g: Layer, s: State, r: Step, i: nat) {
    r.flow.Continue? ==>
      r.s.seeds == s.seeds && r.s.loopState == s.loopState && exists outs :: MarksFrom(g, s, r.s, i, outs)
  }

  lemma AnsweredEmits(g: Layer, s: State, i: nat, reply: Reply)
    requires Flat(g) && Sized(g, s) && i < |g.nodes|
    ensures Emits(g, s, Answered(g, s, i, reply), i)
  {
    hide FailStarted, Finish, Flat;
    if !reply.cancelled && !(Deadline(s).Some? && reply.expired) {
      match reply.answer
      case Ok(outputs) => FinishMarks(g, s, i, outputs, s.iteration);
      case Err(code) =>
        FailMarks(g, s, i, s.activations[i], s.iteration, code);
        assert MarksFrom(g, s, Answered(g, s, i, reply).s, i, {});
    }
  }

  lemma NodeEmits(g: Layer, env: Env, s: State, i: nat, inputs: Inputs)
    requires Flat(g) && Sized(g, s) && i < |g.nodes|
    ensures Emits(g, s, RunNode(g, env, s, i, inputs), i)
  {
    hide FailStarted, Answered, Begin, Flat;
    var s1 := Begin(g, s, i);
    BeginMarks(g, s, i);
    if LacksInput(g, i, inputs) {
      FailEmits(g, s, s1, i, MissingInput);
    } else {
      var reply, s2 := env.execute(s.scope, i, s1.activations[i], inputs, s.tick), Tick(s1);
      if reply.denied.Some? {
        FailEmits(g, s, s2, i, reply.denied.value);
      } else {
        AnsweredEmits(g, s2, i, reply);
        EmitsFrom(g, s, s2, Answered(g, s2, i, reply), i);
      }
    }
  }

  lemma FailEmits(g: Layer, s: State, t: State, i: nat, code: Code)
    requires Flat(g) && Sized(g, t) && i < |g.nodes|
    requires t.tokens == s.tokens && t.freshData == s.freshData && t.seeds == s.seeds && t.loopState == s.loopState
    ensures Emits(g, s, Step(FailStarted(g, t, i, t.activations[i], s.iteration, code), Continue), i)
  {
    FailMarks(g, t, i, t.activations[i], s.iteration, code);
    assert MarksFrom(g, s, FailStarted(g, t, i, t.activations[i], s.iteration, code), i, {});
  }

  lemma EmitsFrom(g: Layer, s: State, t: State, r: Step, i: nat)
    requires t.tokens == s.tokens && t.freshData == s.freshData && t.seeds == s.seeds && t.loopState == s.loopState
    requires Emits(g, t, r, i)
    ensures Emits(g, s, r, i)
  {
    if r.flow.Continue? {
      var outs :| MarksFrom(g, t, r.s, i, outs);
      assert MarksFrom(g, s, r.s, i, outs);
    }
  }

  lemma ClosedEmits(g: Layer, s: State, i: nat, inner: State, cancelled: bool)
    requires Flat(g) && Sized(g, s) && i < |g.nodes| && g.nodes[i].Composite?
    ensures Emits(g, s, Closed(g, s, i, inner, cancelled), i)
  {
    hide FailStarted, Finish, Flat, CompositeOutputs;
    if inner.cancelled || cancelled {
    } else if inner.timedOut || inner.failed != [] {
      FailEmits(g, s, s, i, if inner.firstFailure.Some? then inner.firstFailure.value else LoopTimeout);
    } else {
      FinishMarks(g, s, i, CompositeOutputs(g.nodes[i].outputs, inner.latest, map[]), s.iteration);
    }
  }

  lemma CompositeEmits(g: Layer, env: Env, fuel: nat, s: State, i: nat, inputs: Inputs)
    requires ValidLayer(g) && Sized(g, s) && i < |g.nodes| && g.nodes[i].Composite?
    ensures Emits(g, s, RunComposite(g, env, fuel, s, i, inputs), i)
  {
    hide FailStarted, Closed, Begin, Run, Prepare, Nested;
    var s1, layer := Begin(g, s, i), g.nodes[i].layer;
    BeginMarks(g, s, i);
    if LacksPort(g, i, inputs) {
      FailEmits(g, s, s1, i, MissingInput);
    } else {
      var r := Run(layer, env, fuel, fuel, Prepare(layer, Nested(g, s1, i, inputs), 0));
      var t := Tick(Resume(s1, r.s));
      ClosedEmits(g, t, i, r.s, env.cancelled(Resume(s1, r.s).tick));
      EmitsFrom(g, s, t, Closed(g, t, i, r.s, env.cancelled(Resume(s1, r.s).tick)), i);
    }
  }

  // ---------------------------------------------------------------- the gate's ration

  /** No gate of the layer allows more than `limit` iterations. */
  ghost predicate Budgeted(g: Layer, limit: nat) {
    forall i :: 0 <= i < |g.nodes| && g.nodes[i].IsGate() && GateBudget(g.nodes[i]).Some? ==>
      GateBudget(g.nodes[i]).value.0 <= limit
  }

  /** How many times the open loop may still go round. */
  ghost function Laps(limit: nat, s: State): nat {
    if s.loopState.Some? && s.loopState.value.iteration <= limit then limit + 1 - s.loopState.value.iteration else 0
  }

  /** Fewer starts in store; or as many and fewer laps; or as many of both and less work. */
  ghost predicate Descends(g: Layer, rank: seq<nat>, limit: nat, s: State, t: State)
    requires Flat(g) && Ranked(g, rank) && Sized(g, s) && Sized(g, t)
  {
    || Fuse(g, rank, t) < Fuse(g, rank, s)
    || (Fuse(g, rank, t) <= Fuse(g, rank, s)
        && (Laps(limit, t) < Laps(limit, s)
            || (Laps(limit, t) <= Laps(limit, s) && Work(g, rank, t) < Work(g, rank, s))))
  }

  lemma {:induction false} EdgeInputsDue(g: Layer, s: State, i: nat, es: seq<nat>, inputs: Inputs, port: string)
    requires Flat(g) && i < |g.nodes| && SeedsApart(g, s.seeds) && EdgesOf(g, es)
    requires forall k :: 0 <= k < |es| ==> es[k] in g.incoming[i]
    requires port in EdgeInputs(g, s, es, inputs)
    ensures port in inputs || exists e :: e in g.incoming[i] && g.edges[e].targetPort == port && e in s.tokens
    decreases |es|
  {
    if es != [] {
      var edge := g.edges[es[0]];
      var next := if es[0] in s.tokens then inputs[edge.targetPort := s.tokens[es[0]]] else inputs;
      assert es[0] in g.incoming[i];
      EdgeInputsDue(g, s, i, es[1..], next, port);
    }
  }

  /** A `start` input is a `start` trigger in store. */
  lemma StartInputDue(g: Layer, s: State, i: nat)
    requires Flat(g) && i < |g.nodes| && g.nodes[i].IsGate() && SeedsApart(g, s.seeds)
    requires "start" in ConsumedInputs(g, s, i)
    ensures StartDue(g, s, i)
  {
    if (i, "start") !in s.seeds {
      assert forall k :: 0 <= k < |In(g, i)| ==> In(g, i)[k] in g.incoming[i];
      EdgeInputsDue(g, s, i, In(g, i), map[], "start");
      var e :| e in g.incoming[i] && g.edges[e].targetPort == "start" && e in s.tokens;
      assert Starts(g, e);
    }
  }

  lemma FailGateMarks(g: Layer, s: State, i: nat, iteration: Option<nat>, code: Code)
    requires Flat(g) && Sized(g, s) && i < |g.nodes|
    ensures SameStore(s, FailGate(g, s, i, iteration, code))
  {
    FailMarks(g, Emit(s, Started(i, s.activations[i], iteration, g.nodes[i].Composite?)), i, s.activations[i],
      iteration, code);
  }

  lemma ContinueMarks(g: Layer, s: State, i: nat, k: nat, payload: Json, inputs: Inputs)
    requires Flat(g) && Sized(g, s) && i < |g.nodes|
    ensures MarksFrom(g, s, EmitContinue(g, s, i, k, payload, inputs), i, GateOutputs("continue", payload, inputs).Keys)
  {
    OwnEdges(g, i);
    var outputs := GateOutputs("continue", payload, inputs);
    var s1 := Emit(s.(iteration := Some(k)), Started(i, s.activations[i], Some(k), g.nodes[i].Composite?));
    PropagateMarks(g, Emit(s1, Finished(i, outputs, s.activations[i], Some(k))), i, outputs, Out(g, i));
  }

  lemma StopMarks(g: Layer, s: State, i: nat, inputs: Inputs)
    requires Flat(g) && Sized(g, s) && i < |g.nodes| && "stop" in inputs
    ensures var t := GateStop(g, s, i, inputs).s;
      && MarksFrom(g, s, t, i, GateOutputs("exit", inputs["stop"], inputs).Keys)
      && t.seeds == s.seeds && t.loopState.None?
  {
    hide MarksFrom, Propagate, GateOutputs, Flat, Closing;
    OwnEdges(g, i);
    var k := if s.loopState.Some? then s.loopState.value.iteration else 0;
    var outputs := GateOutputs("exit", inputs["stop"], inputs);
    var s1 := Closing(g, s, i, k, outputs);
    PropagateMarks(g, s1, i, outputs, Out(g, i));
    SameMarks(g, s, s1, Propagate(g, s1, i, outputs, Out(g, i)), i, outputs.Keys);
  }

  lemma SameMarks(g: Layer, s: State, s1: State, t: State, i: nat, outs: set<string>)
    requires SameStore(s, s1) && MarksFrom(g, s1, t, i, outs)
    ensures MarksFrom(g, s, t, i, outs)
  {
  }

  /** The common part of every balance: what was consumed, then what was emitted. */
  lemma Balance(g: Layer, s: State, c: State, t: State, v: nat, outs: set<string>)
    requires Flat(g) && Sized(g, s) && Sized(g, t) && v < |g.nodes|
    requires c.tokens == Consume(g, s, v).tokens && c.freshData == Consume(g, s, v).freshData &&
      c.seeds == Consume(g, s, v).seeds
    requires t.activations == Count(s, v).activations && t.seeds == c.seeds && MarksFrom(g, c, t, v, outs)
    ensures Turnover(g, s, t, v, outs)
  {
    assert MarksFrom(g, Consume(g, s, v), t, v, outs);
    ConsumeTurns(g, s, t, v, outs);
  }

  lemma FailDescends(g: Layer, rank: seq<nat>, limit: nat, s: State, v: nat, iteration: Option<nat>, code: Code)
    requires Flat(g) && Ranked(g, rank) && GateControlled(g) && Sized(g, s) && v < |g.nodes| && g.nodes[v].IsGate() &&
      Due(g, s, v)
    ensures var t := FailGate(g, Count(Consume(g, s, v), v), v, iteration, code);
      t.seeds == Consume(g, s, v).seeds && Descends(g, rank, limit, s, t)
  {
    hide GateControlled, FailGate, Work, Fuse;
    var c := Count(Consume(g, s, v), v);
    var t := FailGate(g, c, v, iteration, code);
    FailGateMarks(g, c, v, iteration, code);
    Balance(g, s, c, t, v, {});
    WorkDrops(g, rank, s, t, v, {});
    GateFuseDrops(g, rank, s, t, v, {});
  }

  lemma StartDescends(g: Layer, rank: seq<nat>, limit: nat, s: State, c: State, v: nat, payload: Json, inputs: Inputs)
    requires Flat(g) && Ranked(g, rank) && GateControlled(g) && Sized(g, s) && Sized(g, c) && v < |g.nodes| &&
      g.nodes[v].IsGate()
    requires StartDue(g, s, v) && c == Count(Consume(g, s, v), v).(tick := c.tick, loopState := c.loopState)
    ensures var t := EmitContinue(g, c, v, 1, payload, inputs);
      t.seeds == Consume(g, s, v).seeds && Descends(g, rank, limit, s, t)
  {
    hide GateControlled, EmitContinue, Work, Fuse;
    var t, outs := EmitContinue(g, c, v, 1, payload, inputs), GateOutputs("continue", payload, inputs).Keys;
    ContinueMarks(g, c, v, 1, payload, inputs);
    Balance(g, s, c, t, v, outs);
    GateFuseDrops(g, rank, s, t, v, outs);
  }

  lemma NextDescends(g: Layer, rank: seq<nat>, limit: nat, s: State, c: State, v: nat, state: LoopState, inputs: Inputs)
    requires Flat(g) && Ranked(g, rank) && GateControlled(g) && Sized(g, s) && Sized(g, c) && v < |g.nodes| &&
      g.nodes[v].IsGate()
    requires "next" in inputs && s.loopState == Some(state) && state.iteration + 1 <= limit && state.gate < |g.nodes|
    requires c == Count(Consume(g, s, v), v).(tick := c.tick)
    ensures var t := Reenter(g, c, v, state, inputs);
      t.seeds == Consume(g, s, v).seeds && Descends(g, rank, limit, s, t)
  {
    hide GateControlled, EmitContinue, Work, Fuse;
    var c1 := c.(loopState := Some(state.(iteration := state.iteration + 1)));
    var t, outs := Reenter(g, c, v, state, inputs), GateOutputs("continue", inputs["next"], inputs).Keys;
    ContinueMarks(g, c1, v, state.iteration + 1, inputs["next"], inputs);
    Balance(g, s, c1, t, v, outs);
    GateFuseDrops(g, rank, s, t, v, outs);
  }

  lemma StopDescends(g: Layer, rank: seq<nat>, limit: nat, s: State, v: nat, inputs: Inputs)
    requires Flat(g) && Ranked(g, rank) && GateControlled(g) && Sized(g, s) && v < |g.nodes| && g.nodes[v].IsGate() &&
      Due(g, s, v)
    requires "stop" in inputs
    ensures var t := GateStop(g, Count(Consume(g, s, v), v), v, inputs).s;
      t.seeds == Consume(g, s, v).seeds && Descends(g, rank, limit, s, t)
  {
    hide GateControlled, GateStop, Work, Fuse;
    var c := Count(Consume(g, s, v), v);
    var t, outs := GateStop(g, c, v, inputs).s, GateOutputs("exit", inputs["stop"], inputs).Keys;
    StopMarks(g, c, v, inputs);
    Balance(g, s, c, t, v, outs);
    WorkDrops(g, rank, s, t, v, outs);
    GateFuseDrops(g, rank, s, t, v, outs);
  }

  /** Every turn that activates a node and goes on descends. */
  ghost predicate TurnDescends(g: Layer, rank: seq<nat>, limit: nat, s: State, r: Step, v: nat)
    requires Flat(g) && Ranked(g, rank) && Sized(g, s) && Sized(g, r.s) && v < |g.nodes|
  {
    r.flow.Continue? ==> r.s.seeds == Consume(g, s, v).seeds && Descends(g, rank, limit, s, r.s)
  }

  lemma GateDescends(g: Layer, rank: seq<nat>, limit: nat, env: Env, s: State, v: nat)
    requires Flat(g) && Ranked(g, rank) && GateControlled(g) && Budgeted(g, limit) && SeedsApart(g, s.seeds)
    requires Sized(g, s) && v < |g.nodes| && g.nodes[v].IsGate() && Due(g, s, v)
    ensures TurnDescends(g, rank, limit, s, HandleGate(g, env, Consume(g, s, v), v, ConsumedInputs(g, s, v)), v)
  {
    hide GateControlled, GateStop, FailGate, EmitContinue, Reenter, FailGateTimeout, Exhaust, GateBudget, Descends,
      ConsumedInputs;
    var inputs, budget, c := ConsumedInputs(g, s, v), GateBudget(g.nodes[v]), Count(Consume(g, s, v), v);
    if budget.None? {
      FailDescends(g, rank, limit, s, v, s.iteration, LoopInvalidBudget);
    } else if "stop" in inputs {
      StopDescends(g, rank, limit, s, v, inputs);
    } else if "start" in inputs {
      if s.loopState.Some? {
        FailDescends(g, rank, limit, s, v, s.iteration, LoopInvalidState);
      } else {
        StartInputDue(g, s, v);
        var c1 := Tick(c).(loopState := Some(LoopState(v, 1, env.now(s.tick) + budget.value.1)));
        StartDescends(g, rank, limit, s, c1, v, inputs["start"], inputs);
      }
    } else if "next" in inputs {
      if s.loopState.None? {
        FailDescends(g, rank, limit, s, v, s.iteration, LoopInvalidState);
      } else if env.now(s.tick) < s.loopState.value.deadline && s.loopState.value.iteration + 1 <= limit {
        NextDescends(g, rank, limit, s, Tick(c), v, s.loopState.value, inputs);
      }
    } else {
      FailDescends(g, rank, limit, s, v, s.iteration, LoopMissingTrigger);
    }
  }

  lemma OtherDescends(g: Layer, rank: seq<nat>, limit: nat, s: State, r: Step, v: nat)
    requires Flat(g) && Ranked(g, rank) && GateControlled(g) && Sized(g, s) && Sized(g, r.s) && v < |g.nodes| &&
      !g.nodes[v].IsGate()
    requires Due(g, s, v) && Emits(g, Consume(g, s, v), r, v) && r.s.activations == Count(s, v).activations
    ensures TurnDescends(g, rank, limit, s, r, v)
  {
    hide GateControlled, Work, Fuse;
    if r.flow.Continue? {
      var outs :| MarksFrom(g, Consume(g, s, v), r.s, v, outs);
      ConsumeTurns(g, s, r.s, v, outs);
      WorkDrops(g, rank, s, r.s, v, outs);
      NodeFuseDrops(g, rank, s, r.s, v, outs);
    }
  }

  lemma ActivateDescends(g: Layer, rank: seq<nat>, limit: nat, env: Env, fuel: nat, s: State, v: nat)
    requires ValidLayer(g) && Ranked(g, rank) && GateControlled(g) && Budgeted(g, limit) && SeedsApart(g, s.seeds)
    requires Sized(g, s) && v < |g.nodes| && Due(g, s, v)
    ensures TurnDescends(g, rank, limit, s, Activate(g, env, fuel, s, v), v)
  {
    hide GateControlled, HandleGate, RunNode, RunComposite, ConsumedInputs, Descends;
    var c, inputs := Consume(g, s, v), ConsumedInputs(g, s, v);
    if g.nodes[v].IsGate() {
      GateDescends(g, rank, limit, env, s, v);
    } else if g.nodes[v].Composite? {
      CompositeEmits(g, env, fuel, c, v, inputs);
      OtherDescends(g, rank, limit, s, RunComposite(g, env, fuel, c, v, inputs), v);
    } else {
      NodeEmits(g, env, c, v, inputs);
      OtherDescends(g, rank, limit, s, RunNode(g, env, c, v, inputs), v);
    }
  }

  // ---------------------------------------------------------------- the measure of a whole turn

  ghost function AllWork(g: Layer, rank: seq<nat>): nat -> nat
    requires Flat(g) && Ranked(g, rank)
  {
    (v: nat) => if v < |g.nodes| then 2 * Weight(g, rank, v) else 0
  }

  ghost function AllEdgeWork(g: Layer, rank: seq<nat>): nat -> nat
    requires Flat(g) && Ranked(g, rank)
  {
    (e: nat) => if e < |g.edges| then Weight(g, rank, g.edges[e].target) else 0
  }

  ghost function WorkCap(g: Layer, rank: seq<nat>): nat
    requires Flat(g) && Ranked(g, rank)
  {
    Sum(AllWork(g, rank), |g.nodes|) + Sum(AllEdgeWork(g, rank), |g.edges|)
  }

  lemma WorkIsCapped(g: Layer, rank: seq<nat>, s: State)
    requires Flat(g) && Ranked(g, rank) && Sized(g, s)
    ensures Work(g, rank, s) <= WorkCap(g, rank)
  {
    SumLeq(AllWork(g, rank), NodeWeight(g, rank, s), Nothing, |g.nodes|);
    SumLeq(AllEdgeWork(g, rank), EdgeWeight(g, rank, s), Nothing, |g.edges|);
    SumZero(Nothing, |g.nodes|);
    SumZero(Nothing, |g.edges|);
  }

  ghost function AllSparks(g: Layer, rank: seq<nat>): nat -> nat
    requires Flat(g) && Ranked(g, rank)
  {
    (v: nat) => if v < |g.nodes| then 2 * Sparks(g, rank, v) + 1 else 0
  }

  ghost function AllEdgeSparks(g: Layer, rank: seq<nat>): nat -> nat
    requires Flat(g) && Ranked(g, rank)
  {
    (e: nat) => if e < |g.edges| then EdgeSparks(g, rank, e) else 0
  }

  ghost function FuseCap(g: Layer, rank: seq<nat>): nat
    requires Flat(g) && Ranked(g, rank)
  {
    Sum(AllSparks(g, rank), |g.nodes|) + Sum(AllEdgeSparks(g, rank), |g.edges|)
  }

  lemma FuseIsCapped(g: Layer, rank: seq<nat>, s: State)
    requires Flat(g) && Ranked(g, rank) && Sized(g, s)
    ensures Fuse(g, rank, s) <= FuseCap(g, rank)
  {
    SumLeq(AllSparks(g, rank), NodeSpark(g, rank, s), Nothing, |g.nodes|);
    SumLeq(AllEdgeSparks(g, rank), EdgeSpark(g, rank, s), Nothing, |g.edges|);
    SumZero(Nothing, |g.nodes|);
    SumZero(Nothing, |g.edges|);
  }

  /** A pair ordered lexicographically, as a number: `low` stays below `cap + 1`. */
  ghost function Pack(high: nat, cap: nat, low: nat): nat {
    high * (cap + 1) + low
  }

  lemma PackMonotone(high: nat, high': nat, cap: nat, low: nat, low': nat)
    requires low' <= cap
    ensures high' < high ==> Pack(high', cap, low') < Pack(high, cap, low)
    ensures high' <= high && low' < low ==> Pack(high', cap, low') < Pack(high, cap, low)
    ensures high' <= high && low' <= low ==> Pack(high', cap, low') <= Pack(high, cap, low)
  {
    if high' < high {
      assert (high' + 1) * (cap + 1) <= high * (cap + 1);
    } else if high' == high {
      assert high' * (cap + 1) == high * (cap + 1);
    }
  }

  ghost function Stock(g: Layer, rank: seq<nat>, limit: nat, s: State): nat
    requires Flat(g) && Ranked(g, rank) && Sized(g, s)
  {
    Pack(Pack(Fuse(g, rank, s), limit + 1, Laps(limit, s)), WorkCap(g, rank), Work(g, rank, s))
  }

  lemma StockDrops(g: Layer, rank: seq<nat>, limit: nat, s: State, t: State)
    requires Flat(g) && Ranked(g, rank) && Sized(g, s) && Sized(g, t) && Descends(g, rank, limit, s, t)
    ensures Stock(g, rank, limit, t) < Stock(g, rank, limit, s)
  {
    hide Work, Fuse, WorkCap, Pack;
    WorkIsCapped(g, rank, t);
    PackMonotone(Fuse(g, rank, s), Fuse(g, rank, t), limit + 1, Laps(limit, s), Laps(limit, t));
    PackMonotone(Pack(Fuse(g, rank, s), limit + 1, Laps(limit, s)), Pack(Fuse(g, rank, t), limit + 1, Laps(limit, t)),
                 WorkCap(g, rank), Work(g, rank, s), Work(g, rank, t));
  }

  lemma StockIsCapped(g: Layer, rank: seq<nat>, limit: nat, s: State)
    requires Flat(g) && Ranked(g, rank) && Sized(g, s)
    ensures Stock(g, rank, limit, s) <= Pack(Pack(FuseCap(g, rank), limit + 1, limit + 1), WorkCap(g, rank),
      WorkCap(g, rank))
  {
    hide Work, Fuse, WorkCap, FuseCap, Pack;
    WorkIsCapped(g, rank, s);
    FuseIsCapped(g, rank, s);
    PackMonotone(FuseCap(g, rank), Fuse(g, rank, s), limit + 1, limit + 1, Laps(limit, s));
    PackMonotone(Pack(FuseCap(g, rank), limit + 1, limit + 1), Pack(Fuse(g, rank, s), limit + 1, Laps(limit, s)),
                 WorkCap(g, rank), WorkCap(g, rank), Work(g, rank, s));
  }

  /** The stock looks at the store and the loop only. */
  lemma SameStock(g: Layer, rank: seq<nat>, limit: nat, s: State, t: State)
    requires Flat(g) && Ranked(g, rank) && Sized(g, s) && Sized(g, t) && SameStore(s, t) && s.loopState == t.loopState
    ensures Stock(g, rank, limit, s) == Stock(g, rank, limit, t)
  {
    SameSums(g, rank, s, t);
    SameSums(g, rank, t, s);
  }

  lemma SameSums(g: Layer, rank: seq<nat>, s: State, t: State)
    requires Flat(g) && Ranked(g, rank) && Sized(g, s) && Sized(g, t) && SameStore(s, t)
    ensures Work(g, rank, t) <= Work(g, rank, s) && Fuse(g, rank, t) <= Fuse(g, rank, s)
  {
    hide NodeWeight, EdgeWeight, NodeSpark, EdgeSpark, Flat, Ranked;
    SumZero(Nothing, |g.nodes|);
    SumZero(Nothing, |g.edges|);
    SameNodeSums(g, rank, s, t);
    SameEdgeSums(g, rank, s, t);
  }

  lemma SameNodeSums(g: Layer, rank: seq<nat>, s: State, t: State)
    requires Flat(g) && Ranked(g, rank) && Sized(g, s) && Sized(g, t) && SameStore(s, t)
    ensures Sum(NodeWeight(g, rank, t), |g.nodes|) <= Sum(NodeWeight(g, rank, s), |g.nodes|) + Sum(Nothing, |g.nodes|)
    ensures Sum(NodeSpark(g, rank, t), |g.nodes|) <= Sum(NodeSpark(g, rank, s), |g.nodes|) + Sum(Nothing, |g.nodes|)
  {
    forall v | 0 <= v < |g.nodes| ensures SeededControl(g, t, v) == SeededControl(g, s, v) {}
    SumLeq(NodeWeight(g, rank, s), NodeWeight(g, rank, t), Nothing, |g.nodes|);
    SumLeq(NodeSpark(g, rank, s), NodeSpark(g, rank, t), Nothing, |g.nodes|);
  }

  lemma SameEdgeSums(g: Layer, rank: seq<nat>, s: State, t: State)
    requires Flat(g) && Ranked(g, rank) && Sized(g, s) && Sized(g, t) && SameStore(s, t)
    ensures Sum(EdgeWeight(g, rank, t), |g.edges|) <= Sum(EdgeWeight(g, rank, s), |g.edges|) + Sum(Nothing, |g.edges|)
    ensures Sum(EdgeSpark(g, rank, t), |g.edges|) <= Sum(EdgeSpark(g, rank, s), |g.edges|) + Sum(Nothing, |g.edges|)
  {
    SumLeq(EdgeWeight(g, rank, s), EdgeWeight(g, rank, t), Nothing, |g.edges|);
    SumLeq(EdgeSpark(g, rank, s), EdgeSpark(g, rank, t), Nothing, |g.edges|);
  }

  /** Nodes queued, or ready to be. */
  ghost function Ripe(g: Layer, s: State): set<nat>
    requires Flat(g) && Sized(g, s)
  {
    set i | 0 <= i < |g.nodes| && (i in s.queue || (i !in s.settled && Evaluate(g, s, i) == Go))
  }

  lemma {:induction false} SetsAreSmall(n: nat, a: set<nat>)
    requires forall i :: i in a ==> i < n
    ensures |a| <= n
  {
    if n == 0 {
      assert a == {};
    } else {
      var m: nat := n - 1;
      forall i | i in a - {m} ensures i < m {}
      SetsAreSmall(m, a - {m});
    }
  }

  ghost function Toll(g: Layer, rank: seq<nat>, limit: nat, s: State): nat
    requires Flat(g) && Ranked(g, rank) && Sized(g, s)
  {
    Pack(Pack(Stock(g, rank, limit, s), |g.nodes|, |Unsettled(g, s)|), |g.nodes|, |Ripe(g, s)|)
  }

  ghost function TollCap(g: Layer, rank: seq<nat>, limit: nat): nat
    requires Flat(g) && Ranked(g, rank)
  {
    var stock := Pack(Pack(FuseCap(g, rank), limit + 1, limit + 1), WorkCap(g, rank), WorkCap(g, rank));
    Pack(Pack(stock, |g.nodes|, |g.nodes|), |g.nodes|, |g.nodes|)
  }

  lemma TollOrder(g: Layer, rank: seq<nat>, limit: nat, s: State, t: State)
    requires Flat(g) && Ranked(g, rank) && Sized(g, s) && Sized(g, t)
    ensures var a, b := Stock(g, rank, limit, s), Stock(g, rank, limit, t);
      var u, v := |Unsettled(g, s)|, |Unsettled(g, t)|;
      var p, q := |Ripe(g, s)|, |Ripe(g, t)|;
      && (b < a || (b <= a && (v < u || (v <= u && q < p))) ==> Toll(g, rank, limit, t) < Toll(g, rank, limit, s))
      && (b <= a && (v < u || (v <= u && q <= p)) ==> Toll(g, rank, limit, t) <= Toll(g, rank, limit, s))
  {
    hide Stock, Pack, Unsettled, Ripe;
    var n := |g.nodes|;
    var a, b := Stock(g, rank, limit, s), Stock(g, rank, limit, t);
    UnsettledIsSmall(g, t);
    RipeIsSmall(g, t);
    PackMonotone(a, b, n, |Unsettled(g, s)|, |Unsettled(g, t)|);
    PackMonotone(Pack(a, n, |Unsettled(g, s)|), Pack(b, n, |Unsettled(g, t)|), n, |Ripe(g, s)|, |Ripe(g, t)|);
  }

  lemma UnsettledIsSmall(g: Layer, s: State)
    ensures |Unsettled(g, s)| <= |g.nodes|
  {
    SetsAreSmall(|g.nodes|, Unsettled(g, s));
  }

  lemma RipeIsSmall(g: Layer, s: State)
    requires Flat(g) && Sized(g, s)
    ensures |Ripe(g, s)| <= |g.nodes|
  {
    SetsAreSmall(|g.nodes|, Ripe(g, s));
  }

  lemma TollIsCapped(g: Layer, rank: seq<nat>, limit: nat, s: State)
    requires Flat(g) && Ranked(g, rank) && Sized(g, s)
    ensures Toll(g, rank, limit, s) <= TollCap(g, rank, limit)
  {
    hide Stock, Pack, Unsettled, Ripe, FuseCap, WorkCap;
    var n := |g.nodes|;
    var stock := Pack(Pack(FuseCap(g, rank), limit + 1, limit + 1), WorkCap(g, rank), WorkCap(g, rank));
    StockIsCapped(g, rank, limit, s);
    UnsettledIsSmall(g, s);
    RipeIsSmall(g, s);
    PackMonotone(stock, Stock(g, rank, limit, s), n, n, |Unsettled(g, s)|);
    PackMonotone(Pack(stock, n, n), Pack(Stock(g, rank, limit, s), n, |Unsettled(g, s)|), n, n, |Ripe(g, s)|);
  }

  // ---------------------------------------------------------------- turns

  /** Filling the queue leaves the store; if it settles nothing it only moves ripe nodes. */
  lemma {:induction false} EnqueueKeeps(g: Layer, s: State, from: nat)
    requires Flat(g) && Sized(g, s) && from <= |g.nodes|
    ensures var t := EnqueueReady(g, s, from);
      && SameStore(s, t) && s.loopState == t.loopState && s.settled <= t.settled
      && Unsettled(g, t) <= Unsettled(g, s)
      && (t.settled == s.settled ==> Ripe(g, t) == Ripe(g, s))
    decreases |g.nodes| - from
  {
    hide Evaluate, Flat;
    if from < |g.nodes| {
      if from in s.settled || from in s.queued {
        EnqueueKeeps(g, s, from + 1);
      } else {
        match Evaluate(g, s, from)
        case Go =>
          var s1 := s.(queued := s.queued + {from}, queue := s.queue + [from]);
          QueueDoesNotMatter(g, s, s1);
          assert Ripe(g, s1) == Ripe(g, s);
          EnqueueKeeps(g, s1, from + 1);
        case Blocked =>
          var s1 := if s.activations[from] == 0 then SkipNode(g, s, from, NoActiveInput) else s;
          if s.activations[from] == 0 { SkipSettlesNode(g, s, from); }
          EnqueueKeeps(g, s1, from + 1);
        case Wait => EnqueueKeeps(g, s, from + 1);
      }
    }
  }

  lemma QueueDoesNotMatter(g: Layer, s: State, t: State)
    requires Flat(g) && Sized(g, s) && Sized(g, t) && t == s.(queue := t.queue, queued := t.queued)
    ensures forall i :: 0 <= i < |g.nodes| ==> Evaluate(g, t, i) == Evaluate(g, s, i)
  {
    forall i | 0 <= i < |g.nodes| ensures Evaluate(g, t, i) == Evaluate(g, s, i) {
      assert HasControl(g, t, i) == HasControl(g, s, i);
      assert ControlToken(g, t, i) == ControlToken(g, s, i);
    }
  }

  lemma SkipSettlesNode(g: Layer, s: State, i: nat)
    requires Flat(g) && Sized(g, s) && i < |g.nodes|
    ensures i in SkipNode(g, s, i, NoActiveInput).settled
  {
    if i !in s.settled { assert i in MarkSkipped(s, i, NoActiveInput).settled; }
  }

  lemma EnqueueToll(g: Layer, rank: seq<nat>, limit: nat, s: State)
    requires Flat(g) && Ranked(g, rank) && Sized(g, s)
    ensures Toll(g, rank, limit, EnqueueReady(g, s, 0)) <= Toll(g, rank, limit, s)
  {
    hide Stock, EnqueueReady, Toll, Ripe;
    var t := EnqueueReady(g, s, 0);
    EnqueueKeeps(g, s, 0);
    SameStock(g, rank, limit, s, t);
    SubsetCardinality(Unsettled(g, t), Unsettled(g, s));
    if t.settled != s.settled {
      var i :| i in t.settled && i !in s.settled;
      assert i in Unsettled(g, s) && i !in Unsettled(g, t);
    }
    TollOrder(g, rank, limit, s, t);
  }

  /** Popping a node that does not run makes it no longer ripe, or settles it. */
  lemma PopToll(g: Layer, rank: seq<nat>, limit: nat, s: State)
    requires Flat(g) && Ranked(g, rank) && Good(g, s, {}) && s.queue != [] && s.queue[0] < |g.nodes|
    requires s.queue[0] in s.settled || Evaluate(g, s, s.queue[0]) != Go
    ensures Toll(g, rank, limit, Pop(s)) < Toll(g, rank, limit, s)
  {
    hide Stock, Toll, Live, Evaluate;
    var t, i := Pop(s), s.queue[0];
    QueueDoesNotMatter(g, s, t);
    assert i in Ripe(g, s) && i !in Ripe(g, t);
    assert Ripe(g, t) <= Ripe(g, s);
    SubsetCardinality(Ripe(g, t), Ripe(g, s));
    assert Unsettled(g, t) == Unsettled(g, s);
    SameStock(g, rank, limit, s, t);
    TollOrder(g, rank, limit, s, t);
  }

  lemma SkipToll(g: Layer, rank: seq<nat>, limit: nat, s: State, i: nat)
    requires Flat(g) && Ranked(g, rank) && Sized(g, s) && i < |g.nodes| && i !in s.settled
    ensures Toll(g, rank, limit, SkipNode(g, s, i, NoActiveInput)) < Toll(g, rank, limit, s)
  {
    hide Stock, Toll, SkipNode;
    var t := SkipNode(g, s, i, NoActiveInput);
    SkipSettlesNode(g, s, i);
    assert i in Unsettled(g, s) && i !in Unsettled(g, t);
    SubsetCardinality(Unsettled(g, t), Unsettled(g, s));
    SameStock(g, rank, limit, s, t);
    TollOrder(g, rank, limit, s, t);
  }

  /** Under which a layer's turns are counted. */
  ghost predicate Counting(g: Layer, rank: seq<nat>, limit: nat, s: State) {
    ValidLayer(g) && Ranked(g, rank) && GateControlled(g) && Budgeted(g, limit) && SeedsApart(g, s.seeds) &&
      Good(g, s, {})
  }

  lemma DispatchToll(g: Layer, rank: seq<nat>, limit: nat, env: Env, fuel: nat, s: State)
    requires Counting(g, rank, limit, s) && s.queue != [] && s.queue[0] < |g.nodes|
    ensures var r := Dispatch(g, env, fuel, Pop(s), s.queue[0]);
      r.flow.Continue? ==> SeedsApart(g, r.s.seeds) && Toll(g, rank, limit, r.s) < Toll(g, rank, limit, s)
  {
    hide Books, Live, Activate, SkipNode, Evaluate, ValidLayer, Toll, GateControlled, Budgeted;
    var t, i := Pop(s), s.queue[0];
    PopEvaluate(g, s);
    if i in t.settled || Evaluate(g, t, i) != Go {
      PopToll(g, rank, limit, s);
      if i !in t.settled && Evaluate(g, t, i) == Blocked { SkipToll(g, rank, limit, t, i); }
    } else {
      GoIsDue(g, t, i);
      ActivateDescends(g, rank, limit, env, fuel, t, i);
      ActivateToll(g, rank, limit, s, t, Activate(g, env, fuel, t, i), i);
    }
  }

  lemma ActivateToll(g: Layer, rank: seq<nat>, limit: nat, s: State, t: State, r: Step, i: nat)
    requires Flat(g) && Ranked(g, rank) && Sized(g, s) && Sized(g, t) && Sized(g, r.s) && i < |g.nodes|
    requires t == s.(queue := t.queue, queued := t.queued) && SeedsApart(g, s.seeds)
    requires TurnDescends(g, rank, limit, t, r, i)
    ensures r.flow.Continue? ==> SeedsApart(g, r.s.seeds) && Toll(g, rank, limit, r.s) < Toll(g, rank, limit, s)
  {
    hide Stock, Toll;
    if r.flow.Continue? {
      StockDrops(g, rank, limit, t, r.s);
      SameStock(g, rank, limit, s, t);
      TollOrder(g, rank, limit, s, r.s);
    }
  }

  lemma TurnToll(g: Layer, rank: seq<nat>, limit: nat, env: Env, fuel: nat, s: State)
    requires Counting(g, rank, limit, s)
    ensures var r := Turn(g, env, fuel, s);
      r.flow.Continue? ==> SeedsApart(g, r.s.seeds) && Toll(g, rank, limit, r.s) < Toll(g, rank, limit, s)
  {
    hide Books, Live, EnqueueReady, Dispatch, ValidLayer, Toll, GateControlled, Budgeted;
    var t := EnqueueReady(g, s, 0);
    EnqueueGood(g, s, 0);
    EnqueueKeeps(g, s, 0);
    EnqueueToll(g, rank, limit, s);
    if t.queue != [] {
      assert t.queue[0] in t.queue;
      DispatchToll(g, rank, limit, env, fuel, t);
    }
  }

  /** Every turn of the run loop that goes on costs toll. */
  lemma IterateToll(g: Layer, rank: seq<nat>, limit: nat, env: Env, fuel: nat, s: State)
    requires Counting(g, rank, limit, s)
    ensures var r := Iterate(g, env, fuel, s);
      r.flow.Continue? ==> Counting(g, rank, limit, r.s) && Toll(g, rank, limit, r.s) < Toll(g, rank, limit, s)
  {
    hide Books, Live, Turn, FailLoopTimeout, ValidLayer, Toll, GateControlled, Budgeted;
    var s1, s2, s3 := Tick(s), Tick(Tick(s)), Tick(Tick(Tick(s)));
    TickGood(g, s, {});
    TickGood(g, s1, {});
    TickGood(g, s2, {});
    TickToll(g, rank, limit, s);
    TickToll(g, rank, limit, s1);
    TickToll(g, rank, limit, s2);
    TurnToll(g, rank, limit, env, fuel, s3);
    IterateGood(g, env, fuel, s);
  }

  lemma TickToll(g: Layer, rank: seq<nat>, limit: nat, s: State)
    requires Flat(g) && Ranked(g, rank) && Sized(g, s)
    ensures Toll(g, rank, limit, Tick(s)) == Toll(g, rank, limit, s)
  {
    hide Stock;
    SameStock(g, rank, limit, s, Tick(s));
    assert Unsettled(g, Tick(s)) == Unsettled(g, s);
    forall i | 0 <= i < |g.nodes| ensures Evaluate(g, Tick(s), i) == Evaluate(g, s, i) {
      assert HasControl(g, Tick(s), i) == HasControl(g, s, i);
      assert ControlToken(g, Tick(s), i) == ControlToken(g, s, i);
    }
    assert Ripe(g, Tick(s)) == Ripe(g, s);
  }

  // ---------------------------------------------------------------- runs

  ghost predicate IsFresh(g: Layer, s: State) {
    s == Fresh(g, s.scope, s.parentDeadline, s.seeds, s.nextSeq, s.trace, s.tick)
  }

  /** Whatever the outside world does, a run observed for `bound` turns has ended. */
  ghost predicate EndsWithin(g: Layer, bound: nat)
    requires ValidLayer(g)
  {
    forall env: Env, fuel: nat, n: nat, s: State ::
      fuel >= bound && n >= bound && IsFresh(g, s) && SeedsApart(g, s.seeds) ==>
      Run(g, env, fuel, n, Prepare(g, s, 0)).flow.Break?
  }

  /** Every composite of the layer ends within the bound. */
  ghost predicate NestedEnd(g: Layer, k: nat, bound: nat)
    requires ValidLayer(g) && k <= |g.nodes|
  {
    forall i :: 0 <= i < k && g.nodes[i].Composite? ==> EndsWithin(g.nodes[i].layer, bound)
  }

  lemma {:induction false} BindApart(targets: seq<Binding>, value: Json, seeds: map<(nat, string), Json>, layer: Layer)
    requires SeedsApart(layer, seeds)
    requires forall b, e :: b in targets && 0 <= e < |layer.edges| ==>
      (b.node, b.port) != (layer.edges[e].target, layer.edges[e].targetPort)
    ensures SeedsApart(layer, Bind(targets, value, seeds))
  {
    if targets != [] {
      assert targets[0] in targets;
      BindApart(targets[1..], value, seeds[(targets[0].node, targets[0].port) := value], layer);
    }
  }

  lemma {:induction false} SeedsForApart(ports: seq<SubgraphInput>, inputs: Inputs, seeds: map<(nat, string), Json>,
      layer: Layer)
    requires SeedsApart(layer, seeds) && BindingsApart(ports, layer)
    ensures SeedsApart(layer, SeedsFor(ports, inputs, seeds))
  {
    if ports != [] {
      assert ports[0] in ports;
      if ports[0].port.name in inputs { BindApart(ports[0].targets, inputs[ports[0].port.name], seeds, layer); }
      SeedsForApart(ports[1..], inputs,
        if ports[0].port.name in inputs then Bind(ports[0].targets, inputs[ports[0].port.name], seeds) else seeds,
        layer);
    }
  }

  lemma CompositeIsNotCut(g: Layer, env: Env, fuel: nat, s: State, i: nat, inputs: Inputs, bound: nat)
    requires ValidLayer(g) && Controlled(g) && NestedEnd(g, |g.nodes|, bound) && fuel >= bound
    requires Sized(g, s) && i < |g.nodes| && g.nodes[i].Composite?
    ensures !RunComposite(g, env, fuel, s, i, inputs).flow.Cut?
  {
    hide Run, Prepare, FailStarted, Finish, CompositeOutputs, Begin, SeedsFor, Controlled, GateControlled;
    if !LacksPort(g, i, inputs) {
      NestedIsNotCut(g, env, fuel, Begin(g, s, i), i, inputs, bound);
    }
  }

  lemma NestedIsNotCut(g: Layer, env: Env, fuel: nat, s: State, i: nat, inputs: Inputs, bound: nat)
    requires ValidLayer(g) && Controlled(g) && NestedEnd(g, |g.nodes|, bound) && fuel >= bound
    requires i < |g.nodes| && g.nodes[i].Composite?
    ensures var layer := g.nodes[i].layer;
      Run(layer, env, fuel, fuel, Prepare(layer, Nested(g, s, i, inputs), 0)).flow.Break?
  {
    hide Run, Prepare, GateControlled;
    var layer := g.nodes[i].layer;
    SeedsForApart(g.nodes[i].ports, inputs, map[], layer);
    assert IsFresh(layer, Nested(g, s, i, inputs));
    assert EndsWithin(layer, bound);
  }

  lemma NodeIsNotCut(g: Layer, env: Env, s: State, i: nat, inputs: Inputs)
    requires Flat(g) && Sized(g, s) && i < |g.nodes|
    ensures !RunNode(g, env, s, i, inputs).flow.Cut? && !HandleGate(g, env, s, i, inputs).flow.Cut?
  {
    hide FailStarted, Finish, FailGate, EmitContinue, FailGateTimeout, Exhaust, Reenter;
  }

  lemma IterateIsNotCut(g: Layer, env: Env, fuel: nat, s: State, bound: nat)
    requires ValidLayer(g) && Controlled(g) && NestedEnd(g, |g.nodes|, bound) && fuel >= bound && Sized(g, s)
    ensures !Iterate(g, env, fuel, s).flow.Cut?
  {
    var s3 := Tick(Tick(Tick(s)));
    TurnIsNotCut(g, env, fuel, s3, bound);
  }

  lemma TurnIsNotCut(g: Layer, env: Env, fuel: nat, s: State, bound: nat)
    requires ValidLayer(g) && Controlled(g) && NestedEnd(g, |g.nodes|, bound) && fuel >= bound && Sized(g, s)
    ensures !Turn(g, env, fuel, s).flow.Cut?
  {
    hide EnqueueReady, Activate, Evaluate, SkipNode, ValidLayer, Controlled, NestedEnd;
    var q := EnqueueReady(g, s, 0);
    if q.queue != [] {
      assert q.queue[0] in q.queue;
      ActivateIsNotCut(g, env, fuel, Pop(q), q.queue[0], bound);
    }
  }

  lemma ActivateIsNotCut(g: Layer, env: Env, fuel: nat, s: State, i: nat, bound: nat)
    requires ValidLayer(g) && Controlled(g) && NestedEnd(g, |g.nodes|, bound) && fuel >= bound && Sized(g, s) &&
      i < |g.nodes|
    ensures !Activate(g, env, fuel, s, i).flow.Cut?
  {
    hide HandleGate, RunNode, RunComposite, ConsumedInputs, ValidLayer, Controlled, NestedEnd;
    var c, inputs := Consume(g, s, i), ConsumedInputs(g, s, i);
    NodeIsNotCut(g, env, c, i, inputs);
    if g.nodes[i].Composite? { CompositeIsNotCut(g, env, fuel, c, i, inputs, bound); }
  }

  lemma {:induction false} RunEnds(g: Layer, rank: seq<nat>, limit: nat, env: Env, fuel: nat, n: nat, s: State,
      bound: nat)
    requires Counting(g, rank, limit, s) && Controlled(g) && NestedEnd(g, |g.nodes|, bound) && fuel >= bound
    requires n > Toll(g, rank, limit, s)
    ensures Run(g, env, fuel, n, s).flow.Break?
    decreases n
  {
    hide Books, Live, Iterate, SettleUnreached, ValidLayer, Toll, GateControlled, Budgeted, Controlled, NestedEnd;
    var r := Iterate(g, env, fuel, s);
    IterateIsNotCut(g, env, fuel, s, bound);
    IterateToll(g, rank, limit, env, fuel, s);
    if r.flow.Continue? {
      RunEnds(g, rank, limit, env, fuel, n - 1, r.s, bound);
    }
  }

  // ---------------------------------------------------------------- the theorem

  /** On an acyclic layer, place in Kahn's order gives a rank. */
  lemma RankExists(g: Layer) returns (rank: seq<nat>)
    requires Flat(g) && Acyclic(SequencingArcs(g))
    ensures Ranked(g, rank)
  {
    var n, arcs := |g.nodes|, SequencingArcs(g);
    assert Within(n, arcs);
    KahnIsCompleteIffAcyclic(n, arcs);
    var order := Kahn(n, arcs, []);
    rank := seq(n, v requires 0 <= v < n => n - Position(order, v));
    forall e | 0 <= e < |g.edges| && Triggers(g, e) && !Reopens(g, e)
      ensures rank[g.edges[e].source] > rank[g.edges[e].target]
    {
      var a := (g.edges[e].source, g.edges[e].target);
      assert a in arcs;
      var k := Position(order, a.1);
      assert order[k] == a.1;
      var j :| 0 <= j < |order[..k]| && order[..k][j] == a.0;
      var p := Position(order, a.0);
      assert order[p] == order[j] && p == j;
    }
  }

  lemma {:induction false} LimitExists(g: Layer, k: nat) returns (limit: nat)
    requires k <= |g.nodes|
    ensures forall i :: 0 <= i < k && g.nodes[i].IsGate() && GateBudget(g.nodes[i]).Some? ==>
      GateBudget(g.nodes[i]).value.0 <= limit
  {
    limit := 0;
    if k > 0 {
      limit := LimitExists(g, k - 1);
      var budget := GateBudget(g.nodes[k - 1]);
      if budget.Some? && budget.value.0 > limit { limit := budget.value.0; }
    }
  }

  lemma FreshCounts(g: Layer, rank: seq<nat>, limit: nat, s: State)
    requires ValidLayer(g) && Ranked(g, rank) && GateControlled(g) && Budgeted(g, limit)
    requires IsFresh(g, s) && SeedsApart(g, s.seeds)
    ensures Sized(g, s) && Counting(g, rank, limit, Prepare(g, s, 0))
  {
    PrepareGood(g, s, 0);
    PrepareSeeds(g, s, 0);
  }

  lemma {:induction false} PrepareSeeds(g: Layer, s: State, from: nat)
    requires Flat(g) && Sized(g, s) && from <= |g.nodes|
    ensures Prepare(g, s, from).seeds == s.seeds
    decreases |g.nodes| - from
  {
    hide SkipNode, Flat;
    if from < |g.nodes| {
      PrepareSeeds(g, if g.nodes[from].enabled then s else SkipNode(g, s, from, Disabled), from + 1);
    }
  }

  lemma {:induction false} Loosen(g: Layer, k: nat, bound: nat, more: nat)
    requires ValidLayer(g) && k <= |g.nodes| && NestedEnd(g, k, bound) && bound <= more
    ensures NestedEnd(g, k, more)
  {
    forall i | 0 <= i < k && g.nodes[i].Composite? ensures EndsWithin(g.nodes[i].layer, more) {
      assert EndsWithin(g.nodes[i].layer, bound);
    }
  }

  lemma {:induction false} NestedBound(g: Layer, k: nat) returns (bound: nat)
    requires ValidLayer(g) && Controlled(g) && k <= |g.nodes|
    ensures NestedEnd(g, k, bound)
    decreases g, 0, k
  {
    hide EndsWithin, GateControlled, Flat;
    bound := 0;
    if k > 0 {
      var rest := NestedBound(g, k - 1);
      if g.nodes[k - 1].Composite? {
        var own := EveryRunEnds(g.nodes[k - 1].layer);
        bound := if own > rest then own else rest;
        LoosenOne(g.nodes[k - 1].layer, own, bound);
      } else {
        bound := rest;
      }
      Loosen(g, k - 1, rest, bound);
    }
  }

  lemma LoosenOne(g: Layer, bound: nat, more: nat)
    requires ValidLayer(g) && EndsWithin(g, bound) && bound <= more
    ensures EndsWithin(g, more)
  {
    hide ValidLayer;
  }

  /** Every controlled layer has a bound within which each of its runs ends, as root or inside
      a composite, for any executors, clock, cancellation and inputs. */
  lemma {:induction false} EveryRunEnds(g: Layer) returns (bound: nat)
    requires ValidLayer(g) && Controlled(g)
    ensures EndsWithin(g, bound)
    decreases g, 1
  {
    var nested := NestedBound(g, |g.nodes|);
    var rank := RankExists(g);
    var limit := LimitExists(g, |g.nodes|);
    bound := nested + TollCap(g, rank, limit) + 1;
    Loosen(g, |g.nodes|, nested, bound);
    forall env: Env, fuel: nat, n: nat, s: State | fuel >= bound && n >= bound && IsFresh(g, s) &&
      SeedsApart(g, s.seeds)
      ensures Run(g, env, fuel, n, Prepare(g, s, 0)).flow.Break?
    {
      FreshCounts(g, rank, limit, s);
      TollIsCapped(g, rank, limit, Prepare(g, s, 0));
      RunEnds(g, rank, limit, env, fuel, n, Prepare(g, s, 0), bound);
    }
  }
}
