/** Small documents that validation accepts, and in whose runs properties one might expect of the
    loop gate do not hold. */
module SchedulerExamples {
  import opened Wrappers
  import opened Json
  import opened Workflow
  import opened Digraph
  import opened SchedulerSpec
  import opened SchedulerExit
  import opened SchedulerTrace
  import opened SchedulerGate
  import opened ControlRuns
  import T = SchedulerTermination

  // ---------------------------------------------------------------- what validation asks

  ghost function Wires(g: Layer): Arcs {
    set e | 0 <= e < |g.edges| :: (g.edges[e].source, g.edges[e].target)
  }

  ghost predicate Joined(g: Layer, u: nat, v: nat) {
    exists c :: |c| >= 2 && Walk(Wires(g), c) && c[0] == u && c[|c| - 1] == v
  }

  ghost predicate IsGateAt(g: Layer, i: nat) {
    i < |g.nodes| && g.nodes[i].IsGate()
  }

  /** What validation asks of a control document's edges and gates.  Nodes joined both ways are a
      component: it holds one gate, every cycle passes it, it is triggered and an exit leaves. */
  ghost predicate Accepted(g: Layer) {
    && ControlDocument(g)
    && (forall e :: 0 <= e < |g.edges| ==> g.edges[e].source != g.edges[e].target)
    && (forall e, f :: 0 <= e < f < |g.edges| ==>
          (g.edges[e].target, g.edges[e].targetPort) != (g.edges[f].target, g.edges[f].targetPort))
    && (forall c :: Cycle(Wires(g), c) ==> exists k :: 0 <= k < |c| && IsGateAt(g, c[k]))
    && (forall i: nat, j: nat :: IsGateAt(g, i) && IsGateAt(g, j) && Joined(g, i, j) && Joined(g, j, i) ==> i == j)
    && (forall i: nat :: IsGateAt(g, i) ==> InBounds(GateBudget(g.nodes[i])) && (Joined(g, i, i) ==> Wired(g, i)))
  }

  predicate InBounds(budget: Option<(nat, nat)>) {
    budget.Some? && budget.value.0 <= 1_000_000 && budget.value.1 <= 86_400_000
  }

  ghost predicate Wired(g: Layer, i: nat) {
    && (exists e :: 0 <= e < |g.edges| && g.edges[e].target == i && g.edges[e].targetPort == "start")
    && (exists e :: 0 <= e < |g.edges| && g.edges[e].target == i && g.edges[e].targetPort == "next")
    && (exists e :: 0 <= e < |g.edges| && g.edges[e].source == i && g.edges[e].sourcePort == "exit" &&
          !Joined(g, g.edges[e].target, i))
  }

  lemma {:induction false} WalksFall(arcs: Arcs, rank: nat -> nat, c: seq<nat>)
    requires Walk(arcs, c) && |c| >= 2 && forall a :: a in arcs ==> rank(a.0) > rank(a.1)
    ensures rank(c[0]) > rank(c[|c| - 1])
  {
    assert (c[0], c[1]) in arcs;
    if |c| > 2 {
      forall k | 0 <= k < |c[1..]| - 1 ensures (c[1..][k], c[1..][k + 1]) in arcs {
        assert (c[k + 1], c[k + 2]) in arcs;
      }
      WalksFall(arcs, rank, c[1..]);
    }
  }

  /** Along a rank that falls on every edge there is no cycle to ask anything of. */
  lemma AcceptsRanked(g: Layer, rank: nat -> nat)
    requires ControlDocument(g) && forall e :: 0 <= e < |g.edges| ==> rank(g.edges[e].source) > rank(g.edges[e].target)
    requires forall e, f :: 0 <= e < f < |g.edges| ==>
      (g.edges[e].target, g.edges[e].targetPort) != (g.edges[f].target, g.edges[f].targetPort)
    requires forall i: nat :: IsGateAt(g, i) ==> InBounds(GateBudget(g.nodes[i]))
    ensures Accepted(g)
  {
    hide ControlDocument, InBounds, GateBudget;
    forall u, v | Joined(g, u, v) ensures rank(u) > rank(v) {
      var c :| |c| >= 2 && Walk(Wires(g), c) && c[0] == u && c[|c| - 1] == v;
      WalksFall(Wires(g), rank, c);
    }
    forall c ensures !Cycle(Wires(g), c) {
      if Cycle(Wires(g), c) { WalksFall(Wires(g), rank, c); }
    }
  }

  // ---------------------------------------------------------------- nodes and edges

  const TRIGGERS := [PortSpec("start", false, true), PortSpec("next", false, true), PortSpec("stop", false, true)]

  function Gate(limit: nat): Node {
    Task(true, LoopGate, TRIGGERS, map["maxIterations" := Num(PosInt(limit)), "timeoutMs" := Num(PosInt(10))])
  }

  lemma BudgetIs(limit: nat)
    requires limit > 0
    ensures GateBudget(Gate(limit)) == Some((limit, 10))
  {
    assert "maxIterations"[0] != "timeoutMs"[0];
  }

  /** A node with control inputs that answers on its control output. */
  function Work(ports: seq<string>): Node {
    Task(true, Normal, seq(|ports|, k requires 0 <= k < |ports| => PortSpec(ports[k], false, true)), map[])
  }

  function Wire(source: nat, port: string, target: nat, input: string): Edge {
    Edge(source, port, target, input, Control)
  }

  lemma PortsAreControl(ports: seq<string>, limit: nat)
    ensures forall p :: p in Work(ports).Inputs() ==> p.control
    ensures forall p :: p in Gate(limit).Inputs() ==> p.control
  {
  }

  lemma SimpleIsControl(nodes: seq<Node>, edges: seq<Edge>)
    requires Endpoints(LayerOf(nodes, edges))
    requires forall i :: 0 <= i < |nodes| ==>
      (exists ports :: nodes[i] == Work(ports)) || exists k :: nodes[i] == Gate(k)
    requires forall e :: 0 <= e < |edges| ==> edges[e].kind == Control
    requires forall e :: 0 <= e < |edges| ==>
      edges[e].sourcePort in if nodes[edges[e].source].IsGate() then {"continue", "exit"} else {"out"}
    ensures ControlDocument(LayerOf(nodes, edges))
  {
    hide EdgesInto, EdgesFrom;
    forall i | 0 <= i < |nodes|
      ensures nodes[i].Task? && nodes[i].enabled && forall p :: p in nodes[i].Inputs() ==> p.control
    {
      if ports :| nodes[i] == Work(ports) {
        PortsAreControl(ports, 0);
      } else {
        var k :| nodes[i] == Gate(k);
        PortsAreControl([], k);
      }
    }
  }

  /** The clock stands still. */
  function Still(t: nat): nat { 0 }

  const OPEN := Some(LoopState(0, 1, 10))

  // ---------------------------------------------------------------- a budget that is passed

  /** A source starts the first gate, with one iteration, and reaches `next` of the second, with
      two. */
  const CROSSED := LayerOf(
    [Gate(1), Gate(2), Work([]), Work(["in"])],
    [Wire(2, "out", 0, "start"), Wire(2, "out", 3, "in"), Wire(3, "out", 1, "next")])

  const CROSSED_RUN := [
    START,
    Snap([], {0, 1}, {2}, {}, None, 4),
    Snap([3], {1}, {0, 2}, {}, OPEN, 8),
    Snap([], {2}, {0, 2, 3}, {}, OPEN, 12),
    Snap([], {}, {0, 1, 2, 3}, {}, Some(LoopState(0, 2, 10)), 16)]

  lemma CrossedIsControl()
    ensures ControlDocument(CROSSED)
  {
    hide EdgesInto, EdgesFrom;
    SimpleIsControl(CROSSED.nodes, CROSSED.edges);
  }

  lemma CrossedIsAccepted()
    ensures Accepted(CROSSED)
  {
    hide GateBudget, Accepted, ControlDocument;
    CrossedIsControl();
    BudgetIs(1);
    BudgetIs(2);
    AcceptsRanked(CROSSED, v => if v == 2 then 2 else if v == 3 then 1 else 0);
  }

  lemma CrossedTable()
    ensures var g := CROSSED;
      && Flat(g)
      && Leads(g, 0) == {0} && Leads(g, 1) == {2} && Leads(g, 2) == {} && Leads(g, 3) == {1}
      && Laid(g, 2, "out") == {0, 1} && Laid(g, 3, "out") == {2}
      && Laid(g, 0, "continue") == {} && Laid(g, 1, "continue") == {}
      && GateBudget(g.nodes[0]) == Some((1, 10)) && GateBudget(g.nodes[1]) == Some((2, 10))
  {
    hide EdgesInto, EdgesFrom, Flat;
    BudgetIs(1);
    BudgetIs(2);
  }

  lemma CrossedTurns(k: nat)
    requires 0 < k < 5
    ensures Flat(CROSSED) && Turns(CROSSED, Still, CROSSED_RUN[k - 1], CROSSED_RUN[k])
  {
    hide Flat, Turns, Leads, Laid, GateBudget;
    CrossedTable();
    var g, r := CROSSED, CROSSED_RUN;
    match k
    case 1 => TurnsBy(g, Still, r[0], [2], 2, [], r[1]);
    case 2 => TurnsBy(g, Still, r[1], [0, 3], 0, [3], r[2]);
    case 3 => TurnsBy(g, Still, r[2], [], 3, [], r[3]);
    case 4 => TurnsBy(g, Still, r[3], [1], 1, [], r[4]);
  }

  /** The loop opened by the first gate, which allows one iteration, reaches its second. */
  lemma LoopPassesItsBudget()
    ensures Accepted(CROSSED) && CROSSED.nodes[0].IsGate() && Limit(CROSSED, 0) == 1
    ensures Execute(CROSSED, Calm(Still), 4).s.loopState == Some(LoopState(0, 2, 10))
  {
    hide Turns, Orderly, Accepted, GateBudget, Prepare, Flat, Execute;
    CrossedIsAccepted();
    CrossedIsControl();
    BudgetIs(1);
    forall k | 0 < k < 5 ensures Turns(CROSSED, Still, CROSSED_RUN[k - 1], CROSSED_RUN[k]) { CrossedTurns(k); }
    var t := RunsAlong(CROSSED, Still, CROSSED_RUN, 4);
  }

  // ---------------------------------------------------------------- a gate that fails twice

  /** A source sets off node 1 and another node, which sets off node 1 again; each time it starts
      the gate. */
  const RESTARTED := LayerOf(
    [Gate(1), Work(["p", "q"]), Work([]), Work(["in"])],
    [Wire(2, "out", 1, "p"), Wire(2, "out", 3, "in"), Wire(3, "out", 1, "q"), Wire(1, "out", 0, "start")])

  /** The clock passes the loop's deadline before the seventh turn. */
  function Late(t: nat): nat { if t < 24 then 0 else 100 }

  const RESTARTED_RUN := [
    START,
    Snap([], {0, 1}, {2}, {}, None, 4),
    Snap([3], {1, 3}, {1, 2}, {}, None, 8),
    Snap([0], {2, 3}, {1, 2, 3}, {}, None, 12),
    Snap([1], {2}, {0, 1, 2, 3}, {}, OPEN, 16),
    Snap([], {3}, {0, 1, 2, 3}, {}, OPEN, 20),
    Snap([], {}, {0, 1, 2, 3}, {0}, OPEN, 23)]

  lemma RestartedIsControl()
    ensures ControlDocument(RESTARTED)
  {
    hide EdgesInto, EdgesFrom;
    SimpleIsControl(RESTARTED.nodes, RESTARTED.edges);
  }

  lemma RestartedIsAccepted()
    ensures Accepted(RESTARTED)
  {
    hide GateBudget, Accepted, ControlDocument;
    RestartedIsControl();
    BudgetIs(1);
    AcceptsRanked(RESTARTED, v => if v == 2 then 3 else if v == 3 then 2 else v);
  }

  lemma RestartedTable()
    ensures var g := RESTARTED;
      && Flat(g)
      && Leads(g, 0) == {3} && Leads(g, 1) == {0, 2} && Leads(g, 2) == {} && Leads(g, 3) == {1}
      && Laid(g, 1, "out") == {3} && Laid(g, 2, "out") == {0, 1} && Laid(g, 3, "out") == {2}
      && Laid(g, 0, "continue") == {} && Ends(g, 0)
      && GateBudget(g.nodes[0]) == Some((1, 10))
  {
    hide EdgesInto, EdgesFrom, Flat;
    BudgetIs(1);
  }

  lemma RestartedTurns(k: nat)
    requires 0 < k < 7
    ensures Flat(RESTARTED) && Turns(RESTARTED, Late, RESTARTED_RUN[k - 1], RESTARTED_RUN[k])
  {
    hide Flat, Turns, Leads, Laid, GateBudget;
    var g, r := RESTARTED, RESTARTED_RUN;
    RestartedTable();
    match k
    case 1 => TurnsBy(g, Late, r[0], [2], 2, [], r[1]);
    case 2 => TurnsBy(g, Late, r[1], [1, 3], 1, [3], r[2]);
    case 3 => TurnsBy(g, Late, r[2], [0], 3, [0], r[3]);
    case _ => LaterTurns(k);
  }

  lemma LaterTurns(k: nat)
    requires 3 < k < 7
    ensures Flat(RESTARTED) && Turns(RESTARTED, Late, RESTARTED_RUN[k - 1], RESTARTED_RUN[k])
  {
    hide Flat, Turns, Leads, Laid, GateBudget;
    var g, r := RESTARTED, RESTARTED_RUN;
    RestartedTable();
    match k
    case 4 => TurnsBy(g, Late, r[3], [1], 0, [1], r[4]);
    case 5 => TurnsBy(g, Late, r[4], [], 1, [], r[5]);
    case 6 => TurnsBy(g, Late, r[5], [0], 0, [], r[6]);
  }

  /** The open loop of a settled gate runs out of time: the gate fails again and the run ends. */
  lemma TimesOut(g: Layer, env: Env, fuel: nat, t: State, gate: nat)
    requires ValidLayer(g) && Orderly(g, t) && OneGate(g, gate) && t.loopState.Some? && gate in t.settled
    requires !env.cancelled(t.tick) && env.resumed(t.tick + 1) && Expired(env, t.(tick := t.tick + 2))
    ensures var r := Iterate(g, env, fuel, t); r.flow.Break? && Failures(gate, LevelLog(r.s)) == 2
  {
    hide Good, Quiet, Turn, FailLoopTimeout, ValidLayer, Agrees, Failures, LevelLog, Flat;
    var s1, s2, s3 := Tick(t), Tick(Tick(t)), Tick(Tick(Tick(t)));
    TickGood(g, t, {});
    TickGood(g, s1, {});
    TickGood(g, s2, {});
    StaysQuiet(t, s3, []);
    TickAgrees(g, t, gate);
    TickAgrees(g, s1, gate);
    TickAgrees(g, s2, gate);
    TimeoutFailsAgainIff(g, s3, [], gate);
  }

  /** The time out lowers no activation count. */
  lemma TimeOutCounts(g: Layer, env: Env, fuel: nat, t: State)
    requires ValidLayer(g) && Sized(g, t) && t.loopState.Some?
    requires !env.cancelled(t.tick) && env.resumed(t.tick + 1) && Expired(env, t.(tick := t.tick + 2))
    ensures var r := Iterate(g, env, fuel, t);
      && |t.activations| == |r.s.activations|
      && forall i :: 0 <= i < |t.activations| ==> t.activations[i] <= r.s.activations[i]
  {
    hide Turn, ValidLayer, FailGate;
  }

  lemma {:induction false} NothingUnreached(g: Layer, s: State, from: nat)
    requires Flat(g) && Sized(g, s) && from <= |g.nodes| && forall i :: from <= i < |g.nodes| ==> s.activations[i] > 0
    ensures SettleUnreached(g, s, from) == s
    decreases |g.nodes| - from
  {
    if from < |g.nodes| { NothingUnreached(g, s, from + 1); }
  }

  lemma RestartedReaches(n: nat) returns (t: State)
    requires n >= 7
    ensures ControlDocument(RESTARTED) && Orderly(RESTARTED, t) && Shows(RESTARTED, t, RESTARTED_RUN[6])
    ensures Execute(RESTARTED, Calm(Late), n) == Run(RESTARTED, Calm(Late), n, n - 6, t)
  {
    hide Turns, ControlDocument, Execute, Orderly, Shows, LayerOf, Run;
    RestartedIsControl();
    forall k | 0 < k < 7 ensures Turns(RESTARTED, Late, RESTARTED_RUN[k - 1], RESTARTED_RUN[k]) { RestartedTurns(k); }
    t := RunsAlong(RESTARTED, Late, RESTARTED_RUN, n);
  }

  lemma RestartedEnds(n: nat, t: State)
    requires ControlDocument(RESTARTED) && Orderly(RESTARTED, t) && Shows(RESTARTED, t, RESTARTED_RUN[6]) && n >= 7
    ensures var r := Run(RESTARTED, Calm(Late), n, n - 6, t); r.flow.Break? && Failures(0, LevelLog(r.s)) == 2
  {
    hide Orderly, Iterate, SettleUnreached, LevelLog, Failures, Flat, ControlDocument;
    assert OneGate(RESTARTED, 0);
    TimesOut(RESTARTED, Calm(Late), n, t, 0);
    TimeOutCounts(RESTARTED, Calm(Late), n, t);
    NothingUnreached(RESTARTED, Iterate(RESTARTED, Calm(Late), n, t).s, 0);
  }

  /** The gate of that document fails for the second start, and once more when the loop which that
      start left open runs out of time. */
  lemma GateFailsTwice(n: nat)
    requires n >= 7
    ensures Accepted(RESTARTED)
    ensures var r := Execute(RESTARTED, Calm(Late), n); r.flow.Break? && Failures(0, LevelLog(r.s)) == 2
  {
    hide Accepted, Execute, LevelLog, Failures;
    RestartedIsAccepted();
    RestartedIsControl();
    var t := RestartedReaches(n);
    RestartedEnds(n, t);
  }

  // ---------------------------------------------------------------- a run without end

  /** The gate's exit leads back, through node 1, to its own `stop`. */
  const LOOPED := LayerOf(
    [Gate(1), Work(["p", "q"]), Work([]), Work(["in"])],
    [Wire(2, "out", 0, "start"), Wire(0, "continue", 1, "p"), Wire(1, "out", 0, "stop"), Wire(1, "out", 0, "next"),
     Wire(0, "exit", 1, "q"), Wire(0, "exit", 3, "in")])

  const LOOPED_RUN := [
    START,
    Snap([], {0}, {2}, {}, None, 4),
    Snap([], {1}, {0, 2}, {}, OPEN, 8),
    Snap([], {2, 3}, {0, 1, 2}, {}, OPEN, 12),
    Snap([], {4, 5}, {0, 1, 2}, {}, None, 15)]

  lemma LoopedIsControl()
    ensures ControlDocument(LOOPED)
  {
    hide EdgesInto, EdgesFrom;
    SimpleIsControl(LOOPED.nodes, LOOPED.edges);
  }

  lemma LoopedTable()
    ensures var g := LOOPED;
      && Flat(g)
      && Leads(g, 0) == {0, 2, 3} && Leads(g, 1) == {1, 4} && Leads(g, 2) == {} && Leads(g, 3) == {5}
      && Laid(g, 1, "out") == {2, 3} && Laid(g, 2, "out") == {0} && Laid(g, 3, "out") == {}
      && Laid(g, 0, "continue") == {1} && Laid(g, 0, "exit") == {4, 5}
      && GateBudget(g.nodes[0]) == Some((1, 10))
  {
    hide EdgesInto, EdgesFrom, Flat;
    BudgetIs(1);
    assert "continue"[0] != "exit"[0];
  }

  lemma LoopedTurns(k: nat)
    requires 0 < k < 5
    ensures Flat(LOOPED) && Turns(LOOPED, Still, LOOPED_RUN[k - 1], LOOPED_RUN[k])
  {
    hide Flat, Turns, Leads, Laid, GateBudget;
    LoopedTable();
    var g, r := LOOPED, LOOPED_RUN;
    match k
    case 1 => TurnsBy(g, Still, r[0], [2], 2, [], r[1]);
    case 2 => TurnsBy(g, Still, r[1], [0], 0, [], r[2]);
    case 3 => TurnsBy(g, Still, r[2], [1], 1, [], r[3]);
    case 4 => TurnsBy(g, Still, r[3], [0], 0, [], r[4]);
  }

  /** The three snapshots of one round. */
  ghost predicate Around(a: Snap) {
    && 2 in a.ran && a.settled == {} && a.loop.None?
    && ((a.queue == [] && a.tokens == {4, 5}) || (a.queue == [3] && a.tokens == {2, 3, 5})
        || (a.queue == [0] && a.tokens == {2, 3}))
  }

  lemma GoesAround(now: nat -> nat, a: Snap) returns (b: Snap)
    requires Around(a)
    ensures Flat(LOOPED) && Turns(LOOPED, now, a, b) && Around(b)
  {
    hide Flat, Turns, Leads, Laid, GateBudget;
    LoopedTable();
    var g := LOOPED;
    if a.queue == [] {
      b := Stepped(g, now, a.(tick := a.tick + 3), 1).(queue := [3]);
      TurnsBy(g, now, a, [1, 3], 1, [3], b);
    } else if a.queue == [3] {
      b := Stepped(g, now, a.(tick := a.tick + 3), 3).(queue := [0]);
      TurnsBy(g, now, a, [0], 3, [0], b);
    } else {
      b := Stepped(g, now, a.(tick := a.tick + 3), 0).(queue := []);
      TurnsBy(g, now, a, [], 0, [], b);
    }
  }

  lemma {:induction false} NeverEnds(now: nat -> nat, fuel: nat, s: State, a: Snap, n: nat)
    requires ValidLayer(LOOPED) && Sized(LOOPED, s) && Shows(LOOPED, s, a) && Around(a)
    ensures Run(LOOPED, Calm(now), fuel, n, s).flow.Cut?
    decreases n
  {
    hide Iterate, Turns, Around, Shows, ControlDocument, Flat;
    if n > 0 {
      LoopedIsControl();
      var b := GoesAround(now, a);
      TurnShows(LOOPED, now, fuel, s, a, b);
      NeverEnds(now, fuel, Iterate(LOOPED, Calm(now), fuel, s).s, b, n - 1);
    }
  }

  /** All edges of the document touch the gate. */
  lemma EveryCyclePassesTheGate(c: seq<nat>)
    requires Cycle(Wires(LOOPED), c)
    ensures exists k :: 0 <= k < |c| && IsGateAt(LOOPED, c[k])
  {
    assert (c[0], c[1]) in Wires(LOOPED);
    assert IsGateAt(LOOPED, c[0]) || IsGateAt(LOOPED, c[1]);
  }

  /** No edge leaves the node that the exit leads to. */
  lemma ExitLeaves(c: seq<nat>)
    requires |c| >= 2 && Walk(Wires(LOOPED), c)
    ensures c[0] != 3
  {
    assert (c[0], c[1]) in Wires(LOOPED);
  }

  lemma LoopedIsWired()
    ensures Wired(LOOPED, 0)
  {
    var g := LOOPED;
    assert g.edges[0].target == 0 && g.edges[3].target == 0 && g.edges[5].source == 0;
    assert !Joined(g, 3, 0) by {
      forall c | |c| >= 2 && Walk(Wires(g), c) ensures c[0] != 3 { ExitLeaves(c); }
    }
  }

  lemma LoopedGates()
    ensures forall i: nat :: IsGateAt(LOOPED, i) <==> i == 0
    ensures InBounds(GateBudget(LOOPED.nodes[0]))
  {
    hide GateBudget;
    BudgetIs(1);
  }

  lemma LoopedSlots()
    ensures forall e, f :: 0 <= e < f < |LOOPED.edges| ==>
      (LOOPED.edges[e].target, LOOPED.edges[e].targetPort) != (LOOPED.edges[f].target, LOOPED.edges[f].targetPort)
    ensures forall e :: 0 <= e < |LOOPED.edges| ==> LOOPED.edges[e].source != LOOPED.edges[e].target
  {
  }

  lemma LoopedIsAccepted()
    ensures Accepted(LOOPED)
  {
    hide GateBudget, ControlDocument, Cycle, Joined, Wired, Wires, InBounds, IsGateAt, Gate, Work;
    LoopedIsControl();
    LoopedGates();
    LoopedSlots();
    LoopedIsWired();
    forall c | Cycle(Wires(LOOPED), c) ensures exists k :: 0 <= k < |c| && IsGateAt(LOOPED, c[k]) {
      EveryCyclePassesTheGate(c);
    }
  }

  lemma LoopedChain()
    ensures ControlDocument(LOOPED)
    ensures |LOOPED_RUN| == 5 && LOOPED_RUN[0] == START && Around(LOOPED_RUN[4])
    ensures forall k :: 0 < k < 5 ==> Turns(LOOPED, Still, LOOPED_RUN[k - 1], LOOPED_RUN[k])
  {
    hide Turns, ControlDocument, LayerOf;
    LoopedIsControl();
    forall k | 0 < k < 5 ensures Turns(LOOPED, Still, LOOPED_RUN[k - 1], LOOPED_RUN[k]) { LoopedTurns(k); }
  }

  lemma LoopedRuns(n: nat)
    ensures ControlDocument(LOOPED) && Execute(LOOPED, Calm(Still), n).flow.Cut?
  {
    hide Turns, ControlDocument, Execute, Shows, Orderly, LayerOf, Around, LOOPED, LOOPED_RUN;
    LoopedChain();
    if n < 4 {
      var t := RunsAlong(LOOPED, Still, LOOPED_RUN[..n + 1], n);
      OrderlySized(LOOPED, t);
    } else {
      var t := RunsAlong(LOOPED, Still, LOOPED_RUN, n);
      OrderlySized(LOOPED, t);
      NeverEnds(Still, n, t, LOOPED_RUN[4], n - 4);
    }
  }

  /** However long this document's run is observed, it has not ended, though every executor
      answers: the gate's exit is not rationed.  This is what the hypothesis of `EveryRunEnds`
      shuts out: a cycle of triggering edges that avoids `continue`. */
  lemma RunsForever(n: nat)
    ensures Accepted(LOOPED) && !Acyclic(T.SequencingArcs(LOOPED))
    ensures Execute(LOOPED, Calm(Still), n).flow.Cut?
  {
    hide Accepted, Execute, Acyclic;
    LoopedIsAccepted();
    LoopedRuns(n);
    StopsInCircles();
  }

  lemma StopsInCircles()
    ensures Flat(LOOPED) && !Acyclic(T.SequencingArcs(LOOPED))
  {
    hide EdgesInto, EdgesFrom, Flat;
    assert T.Triggers(LOOPED, 4) && !T.Reopens(LOOPED, 4) by { assert "continue"[0] != "exit"[0]; }
    assert T.Triggers(LOOPED, 2) && !T.Reopens(LOOPED, 2);
    assert Cycle(T.SequencingArcs(LOOPED), [0, 1, 0]);
  }
}
