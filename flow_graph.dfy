/**
 * The flow graph as the encoder sees it: node payloads, edge capacities and
 * the directed-adjacency queries the graph provides. How the graph stores
 * its adjacency is not modelled; each query is given by the graph's own
 * lists.
 */
module FlowGraph {
  import opened Wrappers
  import opened Fractions

  type NodeIndex = nat
  type EdgeIndex = nat

  /** One of the two outgoing sides of a splitter. */
  datatype Side = Left | Right
  {
    function Other(): (s: Side)
      ensures s != this
    {
      if Left? then Right else Left
    }
  }

  /** The five node kinds. */
  datatype Node =
    | Connector
    | Input(id: nat)
    | Output
    | Merger
    | Splitter(outputPriority: Option<Side>)

  datatype Edge = Edge(capacity: Fraction)

  /**
   * `inEdges[n]` and `outEdges[n]` are the answers of the incoming and
   * outgoing edge queries for node `n`, in the graph's order; `sideOut` answers
   * "the outgoing edge of node n on side s".
   */
  datatype Graph = Graph(
    nodes: seq<Node>,
    edges: seq<Edge>,
    inEdges: seq<seq<EdgeIndex>>,
    outEdges: seq<seq<EdgeIndex>>,
    sideOut: map<(NodeIndex, Side), EdgeIndex>)
  {
    /** Every query answers with an edge of the graph. */
    ghost predicate Valid()
    {
      && |inEdges| == |nodes|
      && |outEdges| == |nodes|
      && (forall n, i :: 0 <= n < |nodes| && 0 <= i < |inEdges[n]| ==> inEdges[n][i] < |edges|)
      && (forall n, i :: 0 <= n < |nodes| && 0 <= i < |outEdges[n]| ==> outEdges[n][i] < |edges|)
      && (forall k :: k in sideOut ==> sideOut[k] < |edges|)
    }

    predicate IsNode(n: NodeIndex)
    {
      n < |nodes| && n < |inEdges| && n < |outEdges|
    }

    function InEdges(n: NodeIndex): seq<EdgeIndex>
      requires IsNode(n)
    {
      inEdges[n]
    }

    function OutEdges(n: NodeIndex): seq<EdgeIndex>
      requires IsNode(n)
    {
      outEdges[n]
    }

    function Capacity(e: EdgeIndex): Fraction
      requires e < |edges|
    {
      edges[e].capacity
    }
  }
}
