/** The workflow document, as the scheduler sees it after validation: node and edge ids are
    unique, so a node or an edge is its position in the document, and composites do not
    recurse, so a composite node carries its own definition. */
module Workflow {
  import opened Json
  import opened Wrappers

  datatype EdgeKind = Data | Control

  datatype Edge = Edge(source: nat, sourcePort: string, target: nat, targetPort: string, kind: EdgeKind)

  datatype PortSpec = PortSpec(name: string, required: bool, control: bool)

  datatype Role = Normal | Branch | LoopGate

  datatype Binding = Binding(node: nat, port: string)

  datatype SubgraphInput = SubgraphInput(port: PortSpec, targets: seq<Binding>)

  datatype SubgraphOutput = SubgraphOutput(port: PortSpec, source: Binding)

  datatype Node =
    | Task(enabled: bool, role: Role, inputs: seq<PortSpec>, params: map<string, Json>)
    | Composite(enabled: bool, layer: Layer, ports: seq<SubgraphInput>, outputs: seq<SubgraphOutput>)
  {
    /** True for the nodes the loop controller drives; a composite's role is always normal. */
    predicate IsGate() {
      Task? && role == LoopGate
    }

    /** The input ports of the node's specification. */
    function Inputs(): seq<PortSpec> {
      if Task? then inputs else seq(|ports|, k requires 0 <= k < |ports| => ports[k].port)
    }
  }

  /** One layer of the document with its adjacency lists of edge positions. */
  datatype Layer = Layer(nodes: seq<Node>, edges: seq<Edge>, incoming: seq<seq<nat>>, outgoing: seq<seq<nat>>)

  ghost predicate Endpoints(g: Layer) {
    forall e :: 0 <= e < |g.edges| ==> g.edges[e].source < |g.nodes| && g.edges[e].target < |g.nodes|
  }

  /** `incoming[i]` lists every edge into `i` once, in any order. */
  ghost predicate IncomingLists(g: Layer)
    requires Endpoints(g)
  {
    && |g.incoming| == |g.nodes|
    && (forall i :: 0 <= i < |g.nodes| ==> Distinct(g.incoming[i]))
    && (forall i, e {:trigger e in g.incoming[i]} :: 0 <= i < |g.nodes| && e in g.incoming[i] ==>
      e < |g.edges| && g.edges[e].target == i)
    && (forall e :: 0 <= e < |g.edges| ==> e in g.incoming[g.edges[e].target])
  }

  /** `outgoing[i]` lists every edge out of `i` once, in any order. */
  ghost predicate OutgoingLists(g: Layer)
    requires Endpoints(g)
  {
    && |g.outgoing| == |g.nodes|
    && (forall i :: 0 <= i < |g.nodes| ==> Distinct(g.outgoing[i]))
    && (forall i, e {:trigger e in g.outgoing[i]} :: 0 <= i < |g.nodes| && e in g.outgoing[i] ==>
      e < |g.edges| && g.edges[e].source == i)
    && (forall e :: 0 <= e < |g.edges| ==> e in g.outgoing[g.edges[e].source])
  }

  /** One layer on its own: endpoints exist and the adjacency lists are the edges. */
  ghost predicate Flat(g: Layer) {
    && Endpoints(g)
    && IncomingLists(g)
    && OutgoingLists(g)
  }

  /** What validation and `Scheduler::new` establish for a layer and every layer below it. */
  ghost predicate ValidLayer(g: Layer)
    ensures ValidLayer(g) ==> Flat(g)
  {
    && Flat(g)
    && (forall i :: 0 <= i < |g.nodes| && g.nodes[i].Composite? ==> ValidLayer(g.nodes[i].layer))
    && (forall i, k :: 0 <= i < |g.nodes| && g.nodes[i].Composite? && 0 <= k < |g.nodes[i].outputs| ==>
          g.nodes[i].outputs[k].source.node < |g.nodes[i].layer.nodes|)
  }

  /** The positions below `n`. */
  ghost function UpTo(n: nat): (all: set<nat>)
    ensures forall i :: i in all <==> 0 <= i < n
  {
    if n == 0 then {} else
      var m: nat := n - 1;
      UpTo(m) + {m}
  }

  /** Every number is a position below `n`. */
  ghost predicate Below(s: seq<nat>, n: nat) {
    forall k :: 0 <= k < |s| ==> s[k] < n
  }

  /** The edges among the first `k` that lead into `i`, in document order. */
  function EdgesInto(edges: seq<Edge>, i: nat, k: nat): (es: seq<nat>)
    requires k <= |edges|
    ensures Below(es, k)
  {
    if k == 0 then []
    else if edges[k - 1].target == i then EdgesInto(edges, i, k - 1) + [k - 1]
    else EdgesInto(edges, i, k - 1)
  }

  /** The edges among the first `k` that leave `i`, in document order. */
  function EdgesFrom(edges: seq<Edge>, i: nat, k: nat): (es: seq<nat>)
    requires k <= |edges|
    ensures Below(es, k)
  {
    if k == 0 then []
    else if edges[k - 1].source == i then EdgesFrom(edges, i, k - 1) + [k - 1]
    else EdgesFrom(edges, i, k - 1)
  }

  lemma {:induction false} ListsAreEdges(edges: seq<Edge>, i: nat, k: nat)
    requires k <= |edges|
    ensures forall e :: e in EdgesInto(edges, i, k) <==> 0 <= e < k && edges[e].target == i
    ensures forall e :: e in EdgesFrom(edges, i, k) <==> 0 <= e < k && edges[e].source == i
    ensures Distinct(EdgesInto(edges, i, k)) && Distinct(EdgesFrom(edges, i, k))
  {
    if k > 0 { ListsAreEdges(edges, i, k - 1); }
  }

  /** The layer with its adjacency lists in document order, as `Scheduler::new` builds them. */
  function LayerOf(nodes: seq<Node>, edges: seq<Edge>): (g: Layer)
    ensures Endpoints(g) ==> Flat(g)
  {
    var g := Layer(nodes, edges,
                   seq(|nodes|, i requires 0 <= i < |nodes| => EdgesInto(edges, i, |edges|)),
                   seq(|nodes|, i requires 0 <= i < |nodes| => EdgesFrom(edges, i, |edges|)));
    assert Endpoints(g) ==> Flat(g) by { ListedOnce(g); }
    g
  }

  lemma ListedOnce(g: Layer)
    requires |g.incoming| == |g.nodes| == |g.outgoing|
    requires forall i :: 0 <= i < |g.nodes| ==>
      g.incoming[i] == EdgesInto(g.edges, i, |g.edges|) && g.outgoing[i] == EdgesFrom(g.edges, i, |g.edges|)
    ensures Endpoints(g) ==> Flat(g)
  {
    forall i | 0 <= i < |g.nodes|
      ensures forall e :: e in g.incoming[i] <==> 0 <= e < |g.edges| && g.edges[e].target == i
      ensures forall e :: e in g.outgoing[i] <==> 0 <= e < |g.edges| && g.edges[e].source == i
      ensures Distinct(g.incoming[i]) && Distinct(g.outgoing[i])
    {
      ListsAreEdges(g.edges, i, |g.edges|);
    }
  }

  /** The first port with this name, as `NodeSpec::input_port` finds it. */
  function FindPort(ports: seq<PortSpec>, name: string): Option<PortSpec> {
    if ports == [] then None
    else if ports[0].name == name then Some(ports[0])
    else FindPort(ports[1..], name)
  }
}
