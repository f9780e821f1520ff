/**
 * Concrete splitter scenarios on a one-splitter graph: edge 0 comes in,
 * edges 1 and 2 go out (side Left is edge 1, side Right is edge 2).
 */
module SplitterScenarios {
  import opened Wrappers
  import opened Smt
  import opened Fractions
  import opened FlowGraph
  import opened ModelEntities
  import opened Semantics

  function SplitterGraph(priority: Option<Side>, aCap: nat, bCap: nat): (g: Graph)
    ensures g.Valid()
  {
    Graph([Splitter(priority)], [Edge(Frac(100, 1)), Edge(Frac(aCap, 1)), Edge(Frac(bCap, 1))],
          [[0]], [[1, 2]], map[(0, Left) := 1, (0, Right) := 2])
  }

  /** All three edges encoded, each to its own constant. */
  const Encoded: map<EdgeIndex, Var> := map[0 := EdgeVar(0), 1 := EdgeVar(1), 2 := EdgeVar(2)]

  /** Capacities (2, 5): inflow 3 is below 2 * 2, so both branches carry 1.5. */
  lemma SymmetricBelowThreshold(env: Assignment)
    requires EdgeVar(0) in env && Flow(env, 0) == 3.0
    ensures Holds(env, NodeFormulas(SplitterGraph(None, 2, 5), 0, Encoded)) <==>
              EdgeVar(1) in env && EdgeVar(2) in env && Flow(env, 1) == 1.5 && Flow(env, 2) == 1.5
  {
    SymmetricOutcome(SplitterGraph(None, 2, 5), 0, Encoded, env);
  }

  /** Capacities (2, 5): inflow 5 is above 2 * 2, so the smaller branch carries 2 and the larger 3. */
  lemma SymmetricAboveThreshold(env: Assignment)
    requires EdgeVar(0) in env && Flow(env, 0) == 5.0
    ensures Holds(env, NodeFormulas(SplitterGraph(None, 2, 5), 0, Encoded)) <==>
              EdgeVar(1) in env && EdgeVar(2) in env && Flow(env, 1) == 2.0 && Flow(env, 2) == 3.0
  {
    SymmetricOutcome(SplitterGraph(None, 2, 5), 0, Encoded, env);
  }

  /** Capacities (5, 2): the smaller branch is now the second edge. */
  lemma SymmetricSmallerSecond(env: Assignment)
    requires EdgeVar(0) in env && Flow(env, 0) == 5.0
    ensures Holds(env, NodeFormulas(SplitterGraph(None, 5, 2), 0, Encoded)) <==>
              EdgeVar(1) in env && EdgeVar(2) in env && Flow(env, 1) == 3.0 && Flow(env, 2) == 2.0
  {
    SymmetricOutcome(SplitterGraph(None, 5, 2), 0, Encoded, env);
  }

  /** Capacities (3, 3): ties make the first edge the smaller one; inflow 4 gives 2 on each branch. */
  lemma SymmetricTie(env: Assignment)
    requires EdgeVar(0) in env && Flow(env, 0) == 4.0
    ensures SelectMinMax(SplitterGraph(None, 3, 3), 1, 2) == (1, 2)
    ensures Holds(env, NodeFormulas(SplitterGraph(None, 3, 3), 0, Encoded)) <==>
              EdgeVar(1) in env && EdgeVar(2) in env && Flow(env, 1) == 2.0 && Flow(env, 2) == 2.0
  {
    SymmetricOutcome(SplitterGraph(None, 3, 3), 0, Encoded, env);
  }

  /** Priority side capacity 4, inflow 3: the priority side takes everything. */
  lemma PriorityBelowCapacity(env: Assignment)
    requires EdgeVar(0) in env && Flow(env, 0) == 3.0
    ensures Holds(env, NodeFormulas(SplitterGraph(Some(Left), 4, 10), 0, Encoded)) <==>
              EdgeVar(1) in env && EdgeVar(2) in env && Flow(env, 1) == 3.0 && Flow(env, 2) == 0.0
  {
    PriorityOutcome(SplitterGraph(Some(Left), 4, 10), 0, Left, Encoded, env);
  }

  /** Priority side capacity 4, inflow 6: the priority side is full and the other side gets 2. */
  lemma PriorityAboveCapacity(env: Assignment)
    requires EdgeVar(0) in env && Flow(env, 0) == 6.0
    ensures Holds(env, NodeFormulas(SplitterGraph(Some(Left), 4, 10), 0, Encoded)) <==>
              EdgeVar(1) in env && EdgeVar(2) in env && Flow(env, 1) == 4.0 && Flow(env, 2) == 2.0
  {
    PriorityOutcome(SplitterGraph(Some(Left), 4, 10), 0, Left, Encoded, env);
  }

  /** The priority side can be the second edge: side Right with capacity 4. */
  lemma PriorityOnRight(env: Assignment)
    requires EdgeVar(0) in env && Flow(env, 0) == 6.0
    ensures Holds(env, NodeFormulas(SplitterGraph(Some(Right), 10, 4), 0, Encoded)) <==>
              EdgeVar(1) in env && EdgeVar(2) in env && Flow(env, 1) == 2.0 && Flow(env, 2) == 4.0
  {
    PriorityOutcome(SplitterGraph(Some(Right), 10, 4), 0, Right, Encoded, env);
  }

  /**
   * Encodes the (2, 5) scenario graph as the orchestrator does, every edge
   * first and then the splitter; in any model with inflow 5 the branches then
   * carry 2 and 3.
   */
  method EncodeSymmetricScenario() returns (h: QuantHelper)
    ensures fresh(h) && h.Valid()
    ensures h.edgeMap == Encoded && h.inputMap == map[] && h.outputMap == map[]
    ensures |h.others| == 8
    ensures forall env :: Holds(env, h.others) && EdgeVar(0) in env && Flow(env, 0) == 5.0 ==>
              EdgeVar(1) in env && EdgeVar(2) in env && Flow(env, 1) == 2.0 && Flow(env, 2) == 3.0
  {
    var g := SplitterGraph(None, 2, 5);
    h := new QuantHelper();
    h.ModelEdge(0, g.edges[0]);
    h.ModelEdge(1, g.edges[1]);
    h.ModelEdge(2, g.edges[2]);
    ghost var edgeFormulas := h.others;
    assert h.edgeMap == Encoded;
    h.ModelNode(g, 0);
    forall env | Holds(env, h.others) && EdgeVar(0) in env && Flow(env, 0) == 5.0
      ensures EdgeVar(1) in env && EdgeVar(2) in env && Flow(env, 1) == 2.0 && Flow(env, 2) == 3.0
    {
      HoldsAppend(env, edgeFormulas, NodeFormulas(g, 0, Encoded));
      SymmetricAboveThreshold(env);
    }
  }
}
