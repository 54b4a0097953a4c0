/** A run's event stream as its own record: what the stores of an instance must hold after the
    events of that instance so far, and what every activation in the stream must look like. */
module SchedulerStream {
  import opened Wrappers
  import opened Json
  import opened Workflow
  import opened SchedulerSpec

  /** What the instance at `scope` said from position `from` on. */
  ghost function At(trace: seq<Event>, from: nat, scope: seq<nat>): seq<Body>
    decreases |trace|
  {
    if |trace| <= from then []
    else
      var k := |trace| - 1;
      At(trace[..k], from, scope) + if trace[k].scope == scope then [trace[k].body] else []
  }

  /** The next position from `p` on at which the instance speaks, or the end. */
  ghost function Next(trace: seq<Event>, p: nat, scope: seq<nat>): (q: nat)
    requires p <= |trace|
    ensures p <= q <= |trace| && (q < |trace| ==> trace[q].scope == scope)
    ensures forall k :: p <= k < q ==> trace[k].scope != scope
    decreases |trace| - p
  {
    if p == |trace| || trace[p].scope == scope then p else Next(trace, p + 1, scope)
  }

  function Get<K, V>(m: map<K, V>, k: K): Option<V> {
    if k in m then Some(m[k]) else None
  }

  // ---------------------------------------------------------------- reading the stores off the events

  /** The value waiting on an edge: what its source last finished with on its port.  A start of the
      target takes a control edge's value; a plain source that finishes without the port clears a
      data edge. */
  ghost function TokenAfter(g: Layer, e: nat, b: Body, before: Option<Json>): Option<Json>
    requires Flat(g) && e < |g.edges|
  {
    var edge := g.edges[e];
    if b.Finished? && b.node == edge.source then
      if edge.sourcePort in b.outputs then Some(b.outputs[edge.sourcePort])
      else if g.nodes[edge.source].IsGate() || IsControl(g, e) then before else None
    else if b.Started? && b.node == edge.target && IsControl(g, e) then None
    else before
  }

  ghost function Token(g: Layer, told: seq<Body>, e: nat): Option<Json>
    requires Flat(g) && e < |g.edges|
  {
    if told == [] then None
    else TokenAfter(g, e, told[|told| - 1], Token(g, told[..|told| - 1], e))
  }

  /** Whether a data edge's value is newer than the target's last start. */
  ghost function FreshAfter(g: Layer, e: nat, b: Body, before: bool): bool
    requires Flat(g) && e < |g.edges|
  {
    var edge := g.edges[e];
    if IsControl(g, e) then false
    else if b.Finished? && b.node == edge.source then
      edge.sourcePort in b.outputs || (g.nodes[edge.source].IsGate() && before)
    else if b.Started? && b.node == edge.target then false
    else before
  }

  ghost predicate Recent(g: Layer, told: seq<Body>, e: nat)
    requires Flat(g) && e < |g.edges|
  {
    told != [] && FreshAfter(g, e, told[|told| - 1], Recent(g, told[..|told| - 1], e))
  }

  /** What the node last finished with; the outputs of a gate are not kept. */
  ghost function LatestAfter(g: Layer, i: nat, b: Body, before: Option<Inputs>): Option<Inputs>
    requires i < |g.nodes|
  {
    if b.Finished? && b.node == i && !g.nodes[i].IsGate() then Some(b.outputs) else before
  }

  ghost function Latest(g: Layer, told: seq<Body>, i: nat): Option<Inputs>
    requires i < |g.nodes|
  {
    if told == [] then None
    else LatestAfter(g, i, told[|told| - 1], Latest(g, told[..|told| - 1], i))
  }

  /** The first failure's code. */
  ghost function FailureAfter(b: Body, before: Option<Code>): Option<Code> {
    if before.None? && b.Failed? then Some(b.code) else before
  }

  ghost function Failure(told: seq<Body>): Option<Code> {
    if told == [] then None else FailureAfter(told[|told| - 1], Failure(told[..|told| - 1]))
  }

  /** Whether a loop is open: the last gate to finish went on, and none has closed the loop since by
      running out of time or budget. */
  ghost predicate OpenAfter(g: Layer, b: Body, before: bool) {
    if b.Finished? && b.node < |g.nodes| && g.nodes[b.node].IsGate() then "continue" in b.outputs
    else if b.Failed? && b.node < |g.nodes| && g.nodes[b.node].IsGate() && b.code in {LoopTimeout, LoopBudgetExhausted}
    then false
    else before
  }

  ghost predicate LoopOpen(g: Layer, told: seq<Body>) {
    told != [] && OpenAfter(g, told[|told| - 1], LoopOpen(g, told[..|told| - 1]))
  }

  /** How often the node was started. */
  ghost function Runs(told: seq<Body>, i: nat): nat {
    if told == [] then 0
    else
      var b := told[|told| - 1];
      Runs(told[..|told| - 1], i) + if b.Started? && b.node == i then 1 else 0
  }

  ghost predicate HasFailed(told: seq<Body>, i: nat) {
    exists k :: 0 <= k < |told| && told[k].Failed? && told[k].node == i
  }

  ghost predicate WasSkipped(told: seq<Body>, i: nat) {
    exists k :: 0 <= k < |told| && told[k].Skipped? && told[k].node == i
  }

  ghost predicate SeedLeft(g: Layer, seeds: map<(nat, string), Json>, told: seq<Body>, i: nat, port: string)
    requires i < |g.nodes|
  {
    (i, port) in seeds && !(NamedControl(g, i, port) && Runs(told, i) > 0)
  }

  /** The stores hold what the instance's events say. */
  ghost predicate Stores(g: Layer, seeds: map<(nat, string), Json>, s: State, told: seq<Body>)
    requires Flat(g)
  {
    && (forall e :: 0 <= e < |g.edges| ==> Get(s.tokens, e) == Token(g, told, e))
    && (forall e :: 0 <= e < |g.edges| ==> (e in s.freshData <==> Recent(g, told, e)))
    && (forall k :: k in s.seeds ==> k in seeds && s.seeds[k] == seeds[k])
    && (forall k :: k in seeds && k.0 < |g.nodes| ==> (k in s.seeds <==> SeedLeft(g, seeds, told, k.0, k.1)))
  }

  ghost predicate Results(g: Layer, s: State, told: seq<Body>) {
    && |s.activations| == |g.nodes|
    && (forall i :: 0 <= i < |g.nodes| ==> Get(s.latest, i) == Latest(g, told, i))
    && (forall i :: 0 <= i < |g.nodes| ==> s.activations[i] == Runs(told, i))
    && (forall i :: 0 <= i < |g.nodes| ==> (i in s.settled <==> HasFailed(told, i) || WasSkipped(told, i)))
    && (forall i :: i in s.failed <==> HasFailed(told, i))
    && s.firstFailure == Failure(told)
    && (forall i :: i in s.fired ==> Runs(told, i) > 0)
  }

  ghost predicate Records(g: Layer, seeds: map<(nat, string), Json>, s: State, told: seq<Body>)
    requires Flat(g)
  {
    Stores(g, seeds, s, told) && Results(g, s, told)
  }

  // ---------------------------------------------------------------- events that leave the stores alone

  /** A log line or a skip.  Only a disabled node is skipped as disabled, and only one with incoming
      edges for want of input. */
  ghost predicate Neutral(g: Layer, rest: seq<Body>)
    requires Flat(g)
  {
    forall k :: 0 <= k < |rest| ==> rest[k].Log? || SkipOf(g, rest[k])
  }

  ghost predicate SkipOf(g: Layer, b: Body)
    requires Flat(g)
  {
    && b.Skipped? && b.node < |g.nodes|
    && (b.reason.Disabled? ==> !g.nodes[b.node].enabled)
    && (b.reason.NoActiveInput? ==> g.incoming[b.node] != [])
  }

  lemma {:induction false} NeutralReads(g: Layer, told: seq<Body>, rest: seq<Body>)
    requires Flat(g) && Neutral(g, rest)
    ensures forall e :: 0 <= e < |g.edges| ==> Token(g, told + rest, e) == Token(g, told, e)
    ensures forall e :: 0 <= e < |g.edges| ==> Recent(g, told + rest, e) == Recent(g, told, e)
    ensures forall i :: 0 <= i < |g.nodes| ==> Latest(g, told + rest, i) == Latest(g, told, i)
    ensures forall i: nat :: Runs(told + rest, i) == Runs(told, i)
    ensures Failure(told + rest) == Failure(told) && (LoopOpen(g, told + rest) <==> LoopOpen(g, told))
  {
    if rest == [] {
      assert told + rest == told;
    } else {
      var front := rest[..|rest| - 1];
      NeutralReads(g, told, front);
      assert told + rest == (told + front) + [rest[|rest| - 1]];
      Snoc(g, told + front, rest[|rest| - 1]);
    }
  }

  lemma Snoc(g: Layer, told: seq<Body>, b: Body)
    requires Flat(g)
    ensures forall e :: 0 <= e < |g.edges| ==> Token(g, told + [b], e) == TokenAfter(g, e, b, Token(g, told, e))
    ensures forall e :: 0 <= e < |g.edges| ==> Recent(g, told + [b], e) == FreshAfter(g, e, b, Recent(g, told, e))
    ensures forall i :: 0 <= i < |g.nodes| ==> Latest(g, told + [b], i) == LatestAfter(g, i, b, Latest(g, told, i))
    ensures forall i: nat :: Runs(told + [b], i) == Runs(told, i) + if b.Started? && b.node == i then 1 else 0
    ensures Failure(told + [b]) == FailureAfter(b, Failure(told))
    ensures LoopOpen(g, told + [b]) <==> OpenAfter(g, b, LoopOpen(g, told))
  {
    assert (told + [b])[..|told|] == told;
  }

  lemma Outcomes(told: seq<Body>, more: seq<Body>)
    ensures forall i: nat :: HasFailed(told + more, i) <==> HasFailed(told, i) || HasFailed(more, i)
    ensures forall i: nat :: WasSkipped(told + more, i) <==> WasSkipped(told, i) || WasSkipped(more, i)
  {
    var all := told + more;
    forall k | 0 <= k < |told| ensures all[k] == told[k] {}
    forall k | 0 <= k < |more| ensures all[|told| + k] == more[k] {}
  }

  /** `t` has the results of `s` after one more event, and the nodes skipped by `rest` are settled. */
  ghost predicate LeapsOn(g: Layer, s: State, t: State, b: Body, rest: seq<Body>)
    requires Flat(g)
  {
    && Neutral(g, rest) && |t.activations| == |g.nodes| == |s.activations|
    && (forall i :: 0 <= i < |g.nodes| ==> Get(t.latest, i) == LatestAfter(g, i, b, Get(s.latest, i)))
    && (forall i :: 0 <= i < |g.nodes| ==>
          t.activations[i] == s.activations[i] + if b.Started? && b.node == i then 1 else 0)
    && (forall i :: 0 <= i < |g.nodes| ==>
          (i in t.settled <==> i in s.settled || HasFailed([b], i) || WasSkipped([b], i) || WasSkipped(rest, i)))
    && (forall i :: i in t.failed <==> i in s.failed || HasFailed([b], i))
    && t.firstFailure == FailureAfter(b, s.firstFailure)
    && (forall i :: i in t.fired ==> i in s.fired || (b.Started? && b.node == i))
  }

  /** And its stores. */
  ghost predicate Leaps(g: Layer, s: State, t: State, b: Body, rest: seq<Body>)
    requires Flat(g)
  {
    && LeapsOn(g, s, t, b, rest)
    && (forall e :: 0 <= e < |g.edges| ==> Get(t.tokens, e) == TokenAfter(g, e, b, Get(s.tokens, e)))
    && (forall e :: 0 <= e < |g.edges| ==> (e in t.freshData <==> FreshAfter(g, e, b, e in s.freshData)))
    && t.seeds == if b.Started? && b.node < |g.nodes|
         then s.seeds - (set k | k in s.seeds && k.0 == b.node && NamedControl(g, b.node, k.1)) else s.seeds
  }

  lemma LeapResults(g: Layer, s: State, t: State, told: seq<Body>, b: Body, rest: seq<Body>)
    requires Flat(g) && Results(g, s, told) && LeapsOn(g, s, t, b, rest)
    ensures Results(g, t, told + [b] + rest)
  {
    hide Token, Recent, Latest, Runs, Failure, HasFailed, WasSkipped;
    Snoc(g, told, b);
    NeutralReads(g, told + [b], rest);
    Outcomes(told, [b]);
    Outcomes(told + [b], rest);
    NeutralOutcomes(g, rest);
  }

  lemma NeutralOutcomes(g: Layer, rest: seq<Body>)
    requires Flat(g) && Neutral(g, rest)
    ensures forall i: nat :: !HasFailed(rest, i)
  {
  }

  lemma LeapStores(g: Layer, seeds: map<(nat, string), Json>, s: State, t: State, told: seq<Body>, b: Body,
      rest: seq<Body>)
    requires Flat(g) && Stores(g, seeds, s, told) && Leaps(g, s, t, b, rest)
    requires forall i :: 0 <= i < |g.nodes| ==> s.activations[i] == Runs(told, i)
    ensures Stores(g, seeds, t, told + [b] + rest)
  {
    hide Token, Recent, Latest, Runs, Failure, HasFailed, WasSkipped;
    Snoc(g, told, b);
    NeutralReads(g, told + [b], rest);
  }
}
