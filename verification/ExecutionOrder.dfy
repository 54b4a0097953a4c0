/** `execution_order`: Kahn's algorithm on arrays with a min-heap of ready nodes.  The heap is
    a library type; what the loop relies on is that it pops the least element of a set. */
module ExecutionOrder {
  import opened Wrappers
  import opened Workflow
  import opened Digraph

  ghost function ArcsOf(edges: seq<Edge>): Arcs {
    set k | 0 <= k < |edges| :: (edges[k].source, edges[k].target)
  }

  ghost predicate EndpointsExist(n: nat, edges: seq<Edge>) {
    forall k :: 0 <= k < |edges| ==> edges[k].source < n && edges[k].target < n
  }

  /** Edges among the first `k` that lead into `v` from a node not in `done`. */
  ghost function Indegree(edges: seq<Edge>, done: seq<nat>, v: nat, k: nat): nat
    requires k <= |edges|
  {
    if k == 0 then 0
    else Indegree(edges, done, v, k - 1) + if edges[k - 1].target == v && edges[k - 1].source !in done then 1 else 0
  }

  /** Targets of the edges among the first `k` that leave `u`, in document order. */
  ghost function Targets(edges: seq<Edge>, u: nat, k: nat): seq<nat>
    requires k <= |edges|
  {
    if k == 0 then []
    else Targets(edges, u, k - 1) + if edges[k - 1].source == u then [edges[k - 1].target] else []
  }

  ghost function Occurs(s: seq<nat>, v: nat): nat {
    multiset(s)[v]
  }

  lemma {:induction false} TakingOne(edges: seq<Edge>, done: seq<nat>, u: nat, v: nat, k: nat)
    requires k <= |edges| && u !in done
    ensures Indegree(edges, done, v, k) == Indegree(edges, done + [u], v, k) + Occurs(Targets(edges, u, k), v)
  {
    if k > 0 { TakingOne(edges, done, u, v, k - 1); }
  }

  lemma {:induction false} NoneLeft(edges: seq<Edge>, done: seq<nat>, v: nat, k: nat)
    requires k <= |edges|
    ensures Indegree(edges, done, v, k) == 0 <==>
      forall j :: 0 <= j < k && edges[j].target == v ==> edges[j].source in done
  {
    if k > 0 { NoneLeft(edges, done, v, k - 1); }
  }

  lemma ReadyMeansNoneLeft(n: nat, edges: seq<Edge>, done: seq<nat>, v: nat)
    requires EndpointsExist(n, edges) && v < n
    ensures Ready(n, ArcsOf(edges), done, v) <==> v !in done && Indegree(edges, done, v, |edges|) == 0
  {
    NoneLeft(edges, done, v, |edges|);
    if forall j :: 0 <= j < |edges| && edges[j].target == v ==> edges[j].source in done {
      forall a | a in ArcsOf(edges) && a.1 == v ensures a.0 in done {}
    } else {
      var j :| 0 <= j < |edges| && edges[j].target == v && edges[j].source !in done;
      assert (edges[j].source, edges[j].target) in ArcsOf(edges);
    }
  }

  lemma {:induction false} TargetsExist(n: nat, edges: seq<Edge>, u: nat, k: nat)
    requires EndpointsExist(n, edges) && k <= |edges|
    ensures forall j :: 0 <= j < |Targets(edges, u, k)| ==> Targets(edges, u, k)[j] < n
  {
    if k > 0 { TargetsExist(n, edges, u, k - 1); }
  }

  method PopLeast(ready: set<nat>) returns (node: nat, rest: set<nat>)
    requires ready != {}
    ensures node in ready && rest == ready - {node} && forall v :: v in ready ==> node <= v
  {
    node :| node in ready;
    var others := ready - {node};
    while others != {}
      invariant node in ready && others <= ready && forall v :: v in ready ==> node <= v || v in others
      decreases others
    {
      var v :| v in others;
      if v < node { node := v; }
      others := others - {v};
    }
    rest := ready - {node};
  }

  /** `indegree` counts what is left to take, and `ready` holds the nodes with nothing left. */
  ghost predicate Bookkeeping(n: nat, edges: seq<Edge>, done: seq<nat>, indegree: seq<nat>, ready: set<nat>) {
    && |indegree| == n
    && (forall v :: 0 <= v < n ==> indegree[v] == Indegree(edges, done, v, |edges|))
    && (forall v :: v in ready <==> 0 <= v < n && v !in done && indegree[v] == 0)
  }

  lemma ReadySetIsReady(n: nat, edges: seq<Edge>, done: seq<nat>, indegree: seq<nat>, ready: set<nat>)
    requires EndpointsExist(n, edges) && Bookkeeping(n, edges, done, indegree, ready)
    ensures forall v :: v in ready <==> 0 <= v < n && Ready(n, ArcsOf(edges), done, v)
  {
    forall v | 0 <= v < n ensures v in ready <==> Ready(n, ArcsOf(edges), done, v) {
      ReadyMeansNoneLeft(n, edges, done, v);
    }
  }

  lemma TakenHasNoneLeft(n: nat, edges: seq<Edge>, done: seq<nat>, v: nat)
    requires Started(n, ArcsOf(edges), done) && v in done
    ensures Indegree(edges, done, v, |edges|) == 0
  {
    var k :| 0 <= k < |done| && done[k] == v;
    forall j | 0 <= j < |edges| && edges[j].target == v ensures edges[j].source in done {
      assert (edges[j].source, v) in ArcsOf(edges);
      assert edges[j].source in done[..k];
    }
    NoneLeft(edges, done, v, |edges|);
  }

  lemma TakingLowers(n: nat, edges: seq<Edge>, done: seq<nat>, node: nat, before: seq<nat>, ready: set<nat>)
      returns (after: seq<nat>)
    requires EndpointsExist(n, edges) && node < n && Bookkeeping(n, edges, done, before, ready)
    requires node in ready && Started(n, ArcsOf(edges), done)
    ensures |after| == n && forall v :: 0 <= v < n ==> after[v] == Indegree(edges, done + [node], v, |edges|)
    ensures forall v :: 0 <= v < n ==> before[v] == after[v] + Occurs(Targets(edges, node, |edges|), v)
    ensures forall v :: v in done + [node] ==> v !in Targets(edges, node, |edges|)
  {
    after := seq(n, v requires 0 <= v < n => Indegree(edges, done + [node], v, |edges|));
    forall v | 0 <= v < n ensures before[v] == after[v] + Occurs(Targets(edges, node, |edges|), v) {
      TakingOne(edges, done, node, v, |edges|);
    }
    forall v | v in done ensures v !in Targets(edges, node, |edges|) {
      TakenHasNoneLeft(n, edges, done, v);
    }
  }

  /** Lowers the indegree of every target by one; those that reach zero get ready. */
  method Lower(n: nat, targets: seq<nat>, ghost after: seq<nat>, indegree: array<nat>, rest: set<nat>)
      returns (ready: set<nat>)
    requires |after| == n == indegree.Length && forall k :: 0 <= k < |targets| ==> targets[k] < n
    requires forall v :: 0 <= v < n ==> indegree[v] == after[v] + Occurs(targets, v)
    modifies indegree
    ensures indegree[..] == after
    ensures ready == rest + set v | v in targets && after[v] == 0
  {
    ready := rest;
    for i := 0 to |targets|
      invariant forall v :: 0 <= v < n ==> indegree[v] == after[v] + Occurs(targets[i..], v)
      invariant forall v :: v in ready <==> v in rest || (v in targets[..i] && indegree[v] == 0)
    {
      var next := targets[i];
      assert targets[i..] == [next] + targets[i + 1..];
      assert targets[..i + 1] == targets[..i] + [next];
      indegree[next] := indegree[next] - 1;
      if indegree[next] == 0 { ready := ready + {next}; }
    }
    assert targets[..|targets|] == targets;
  }

  /** The bookkeeping after `node` is taken. */
  method Take(n: nat, edges: seq<Edge>, ghost done: seq<nat>, node: nat, targets: seq<nat>, indegree: array<nat>,
      rest: set<nat>)
    returns (ready: set<nat>)
    requires EndpointsExist(n, edges) && node < n && node !in done && targets == Targets(edges, node, |edges|)
    requires indegree.Length == n && Bookkeeping(n, edges, done, indegree[..], rest + {node}) && node !in rest
    requires Started(n, ArcsOf(edges), done)
    modifies indegree
    ensures Bookkeeping(n, edges, done + [node], indegree[..], ready)
  {
    hide Started, EndpointsExist, Targets, Indegree;
    ghost var before := indegree[..];
    ghost var after := TakingLowers(n, edges, done, node, before, rest + {node});
    TargetsExist(n, edges, node, |edges|);
    ready := Lower(n, targets, after, indegree, rest);
    forall v | 0 <= v < n ensures v in ready <==> v !in done + [node] && after[v] == 0 {
      assert v in rest + {node} <==> v !in done && before[v] == 0;
      assert v in targets <==> Occurs(targets, v) > 0;
    }
  }

  /** Indegrees and adjacency lists, or None for a self-loop or an edge to a missing node. */
  method Adjacency(n: nat, edges: seq<Edge>) returns (ok: bool, indegree: array<nat>, adjacency: array<seq<nat>>)
    ensures fresh(indegree) && fresh(adjacency) && indegree.Length == n && adjacency.Length == n
    ensures ok <==> EndpointsExist(n, edges) && forall k :: 0 <= k < |edges| ==> edges[k].source != edges[k].target
    ensures ok ==> forall v :: 0 <= v < n ==>
      indegree[v] == Indegree(edges, [], v, |edges|) && adjacency[v] == Targets(edges, v, |edges|)
  {
    indegree, adjacency := new nat[n](_ => 0), new seq<nat>[n](_ => []);
    for i := 0 to |edges|
      invariant forall k :: 0 <= k < i ==>
        edges[k].source < n && edges[k].target < n && edges[k].source != edges[k].target
      invariant forall v :: 0 <= v < n ==>
        indegree[v] == Indegree(edges, [], v, i) && adjacency[v] == Targets(edges, v, i)
    {
      var edge := edges[i];
      if edge.source == edge.target || edge.source >= n || edge.target >= n {
        return false, indegree, adjacency;
      }
      adjacency[edge.source] := adjacency[edge.source] + [edge.target];
      indegree[edge.target] := indegree[edge.target] + 1;
    }
    ok := true;
  }

  lemma SelfLoopIsCycle(edges: seq<Edge>, k: nat)
    requires k < |edges| && edges[k].source == edges[k].target
    ensures !Acyclic(ArcsOf(edges))
  {
    var u := edges[k].source;
    assert (u, u) in ArcsOf(edges);
    assert Cycle(ArcsOf(edges), [u, u]);
  }

  lemma NextReady(n: nat, edges: seq<Edge>, order: seq<nat>, indegree: seq<nat>, ready: set<nat>)
    requires EndpointsExist(n, edges) && Started(n, ArcsOf(edges), order) &&
      Bookkeeping(n, edges, order, indegree, ready)
    ensures |order| <= n
    ensures ready == {} ==> Kahn(n, ArcsOf(edges), order) == order
    ensures forall v :: v in ready && (forall u :: u in ready ==> v <= u) ==>
      && v < n && v !in order && Started(n, ArcsOf(edges), order + [v])
      && |order| < n && Kahn(n, ArcsOf(edges), order) == Kahn(n, ArcsOf(edges), order + [v])
  {
    hide Started, EndpointsExist, ArcsOf, Kahn;
    ReadySetIsReady(n, edges, order, indegree, ready);
    Pigeonhole(n, order) by { OrderBelow(n, ArcsOf(edges), order); }
    if ready == {} { NoneReady(n, ArcsOf(edges), order); }
    forall v | v in ready && (forall u :: u in ready ==> v <= u)
      ensures v !in order && Started(n, ArcsOf(edges), order + [v]) && |order| < n
      ensures Kahn(n, ArcsOf(edges), order) == Kahn(n, ArcsOf(edges), order + [v])
    {
      LeastReady(n, ArcsOf(edges), order, v);
    }
  }

  lemma OrderBelow(n: nat, arcs: Arcs, order: seq<nat>)
    requires Started(n, arcs, order)
    ensures Distinct(order) && forall v :: v in order ==> v < n
  {
  }

  lemma NoneReady(n: nat, arcs: Arcs, order: seq<nat>)
    requires Started(n, arcs, order) && forall v :: 0 <= v < n ==> !Ready(n, arcs, order, v)
    ensures Kahn(n, arcs, order) == order
  {
    hide Started, Ready;
  }

  lemma LeastReady(n: nat, arcs: Arcs, order: seq<nat>, v: nat)
    requires Started(n, arcs, order) && Ready(n, arcs, order, v)
    requires forall u :: 0 <= u < n && Ready(n, arcs, order, u) ==> v <= u
    ensures v < n && v !in order && Started(n, arcs, order + [v]) && |order| < n &&
      Kahn(n, arcs, order) == Kahn(n, arcs, order + [v])
  {
    hide Started;
    Grow(n, arcs, order, v);
    OrderBelow(n, arcs, order + [v]);
    Pigeonhole(n, order + [v]);
  }

  /** The main loop: pop the least ready node until none is left. */
  method Drain(n: nat, edges: seq<Edge>, indegree: array<nat>, adjacency: array<seq<nat>>) returns (order: seq<nat>)
    requires EndpointsExist(n, edges) && indegree.Length == n == adjacency.Length
    requires forall v :: 0 <= v < n ==>
      indegree[v] == Indegree(edges, [], v, |edges|) && adjacency[v] == Targets(edges, v, |edges|)
    modifies indegree
    ensures order == Kahn(n, ArcsOf(edges), [])
  {
    hide Started, EndpointsExist, Targets, Indegree, ArcsOf, Kahn;
    ghost var arcs := ArcsOf(edges);
    var ready: set<nat> := set v: nat | v < n && indegree[v] == 0;
    order := [];
    assert Started(n, arcs, order) by { NothingTaken(n, arcs); }
    NextReady(n, edges, order, indegree[..], ready);
    while ready != {}
      invariant Started(n, arcs, order) && |order| <= n
      invariant Bookkeeping(n, edges, order, indegree[..], ready)
      invariant forall v :: 0 <= v < n ==> adjacency[v] == Targets(edges, v, |edges|)
      invariant Kahn(n, arcs, order) == Kahn(n, arcs, [])
      decreases n - |order|
    {
      var node, rest := PopLeast(ready);
      assert rest + {node} == ready;
      NextReady(n, edges, order, indegree[..], ready);
      ready := Take(n, edges, order, node, adjacency[node], indegree, rest);
      order := order + [node];
    }
    NextReady(n, edges, order, indegree[..], ready);
  }

  lemma NothingTaken(n: nat, arcs: Arcs)
    ensures Started(n, arcs, [])
  {
  }

  /** An order exactly for acyclic graphs; then it is topological, and of all topological orders
      the least by document position. */
  method ExecutionOrder(n: nat, edges: seq<Edge>) returns (result: Option<seq<nat>>)
    ensures result.Some? <==> EndpointsExist(n, edges) && Acyclic(ArcsOf(edges))
    ensures result.Some? ==> Topological(n, ArcsOf(edges), result.value)
    ensures result.Some? ==> forall other :: Topological(n, ArcsOf(edges), other) ==> LexLeq(result.value, other)
  {
    hide Started, Topological, Acyclic, Kahn;
    NothingTaken(n, ArcsOf(edges));
    var ok, indegree, adjacency := Adjacency(n, edges);
    if !ok {
      if k :| 0 <= k < |edges| && edges[k].source == edges[k].target { SelfLoopIsCycle(edges, k); }
      return None;
    }
    var order := Drain(n, edges, indegree, adjacency);
    KahnIsCompleteIffAcyclic(n, ArcsOf(edges));
    forall other | Topological(n, ArcsOf(edges), other) ensures LexLeq(Kahn(n, ArcsOf(edges), []), other) {
      KahnIsLexicographicallyLeast(n, ArcsOf(edges), other);
    }
    result := if |order| == n then Some(order) else None;
  }
}
