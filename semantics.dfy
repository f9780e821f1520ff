/**
 * What the emitted formulas mean: under any solver model, each encoder's
 * formulas hold exactly when the flows on the edges behave as the encoder
 * intends (bounded by capacity, conserved at junctions, routed at splitters).
 */
module Semantics {
  import opened Wrappers
  import opened Smt
  import opened Fractions
  import opened FlowGraph
  import opened ModelEntities

  /** Every edge of `es` has a flow value under `env`. */
  predicate Defined(env: Assignment, es: seq<EdgeIndex>)
  {
    forall i :: 0 <= i < |es| ==> EdgeVar(es[i]) in env
  }

  /** The flow the model gives edge `e`. */
  function Flow(env: Assignment, e: EdgeIndex): real
    requires EdgeVar(e) in env
  {
    env[EdgeVar(e)]
  }

  /** The total flow on the edges `es`. */
  function FlowSum(env: Assignment, es: seq<EdgeIndex>): real
    requires Defined(env, es)
  {
    if es == [] then 0.0 else Flow(env, es[0]) + FlowSum(env, es[1..])
  }

  lemma PairSum(env: Assignment, es: seq<EdgeIndex>)
    requires |es| == 2 && Defined(env, es)
    ensures FlowSum(env, es) == Flow(env, es[0]) + Flow(env, es[1])
  {
    var rest := es[1..];
    assert rest[0] == es[1] && rest[1..] == [];
    assert FlowSum(env, rest) == Flow(env, es[1]);
  }

  /** Inflow equals outflow at node `n`. */
  ghost predicate Conserves(g: Graph, n: NodeIndex, env: Assignment)
    requires g.Valid() && n < |g.nodes|
  {
    && Defined(env, g.InEdges(n))
    && Defined(env, g.OutEdges(n))
    && FlowSum(env, g.InEdges(n)) == FlowSum(env, g.OutEdges(n))
  }

  /** The sum of the flow constants of `es` is their total flow. */
  lemma {:induction false} SumMeaning(m: map<EdgeIndex, Var>, es: seq<EdgeIndex>, env: Assignment)
    requires Canonical(m) && AllIn(m, es)
    ensures Eval(Add(Lookup(m, es)), env) == if Defined(env, es) then Some(FlowSum(env, es)) else None
  {
    if es != [] {
      var rest := es[1..];
      assert AllIn(m, rest) by {
        forall i | 0 <= i < |rest| ensures rest[i] in m {
          assert rest[i] == es[i + 1];
        }
      }
      assert Lookup(m, es) == [Sym(EdgeVar(es[0]))] + Lookup(m, rest);
      EvalAddCons(Sym(EdgeVar(es[0])), Lookup(m, rest), env);
      SumMeaning(m, rest, env);
      assert Defined(env, es) <==> EdgeVar(es[0]) in env && Defined(env, rest) by {
        if EdgeVar(es[0]) in env && Defined(env, rest) {
          forall i | 0 <= i < |es| ensures EdgeVar(es[i]) in env {
            if i > 0 { assert es[i] == rest[i - 1]; }
          }
        }
        if Defined(env, es) {
          forall i | 0 <= i < |rest| ensures EdgeVar(rest[i]) in env {
            assert rest[i] == es[i + 1];
          }
        }
      }
    }
  }

  /** Any model has 0 <= flow <= capacity on an encoded edge, and every such flow is a model. */
  lemma EdgeMeaning(idx: EdgeIndex, e: Edge, env: Assignment)
    requires FitsI32(e.capacity)
    ensures Holds(env, EdgeFormulas(idx, e)) <==>
              EdgeVar(idx) in env && 0.0 <= Flow(env, idx) <= Value(e.capacity)
  {
    var fs := EdgeFormulas(idx, e);
    assert Holds(env, fs) <==> Truth(fs[0], env) == Some(true) && Truth(fs[1], env) == Some(true);
  }

  /** Kirchhoff's formula holds exactly when inflow equals outflow. */
  lemma KirchhoffMeaning(g: Graph, n: NodeIndex, m: map<EdgeIndex, Var>, env: Assignment)
    requires Canonical(m) && KirchhoffReady(g, n, m)
    ensures Holds(env, [KirchhoffFormula(g, n, m)]) <==> Conserves(g, n, env)
  {
    HoldsSingle(env, KirchhoffFormula(g, n, m));
    SumMeaning(m, g.InEdges(n), env);
    SumMeaning(m, g.OutEdges(n), env);
  }

  /**
   * The input formula holds exactly when the input constant equals the flow
   * on the node's first outgoing edge; in a model that flow is a whole number,
   * since the input constant is an integer.
   */
  lemma InputMeaning(g: Graph, n: NodeIndex, id: nat, m: map<EdgeIndex, Var>, env: Assignment)
    requires Canonical(m) && InputReady(g, n, m)
    ensures var out := g.OutEdges(n)[0];
            Holds(env, [InputFormula(g, n, id, m)]) <==>
              InputVar(n, id) in env && EdgeVar(out) in env && env[InputVar(n, id)] == Flow(env, out)
    ensures IsModel(env, [InputFormula(g, n, id, m)]) ==> IsInteger(Flow(env, g.OutEdges(n)[0]))
  {
    var v := InputVar(n, id);
    assert m[g.OutEdges(n)[0]] == EdgeVar(g.OutEdges(n)[0]);
    HoldsSingle(env, InputFormula(g, n, id, m));
    if IsModel(env, [InputFormula(g, n, id, m)]) {
      assert v in env && v.SortOf() == IntSort;
    }
  }

  /** The output formula holds exactly when the output constant equals the flow on the first incoming edge. */
  lemma OutputMeaning(g: Graph, n: NodeIndex, m: map<EdgeIndex, Var>, env: Assignment)
    requires Canonical(m) && OutputReady(g, n, m)
    ensures var inp := g.InEdges(n)[0];
            Holds(env, [OutputFormula(g, n, m)]) <==>
              OutputVar(n) in env && EdgeVar(inp) in env && env[OutputVar(n)] == Flow(env, inp)
  {
    assert m[g.InEdges(n)[0]] == EdgeVar(g.InEdges(n)[0]);
    HoldsSingle(env, OutputFormula(g, n, m));
  }

  // ---------------------------------------------------------------------------
  // Splitters

  /** The symmetric rule read on flows: below twice the smaller capacity both branches are equal, above it the smaller one is full. */
  ghost predicate SymmetricRoutes(g: Graph, n: NodeIndex, env: Assignment)
    requires g.Valid() && n < |g.nodes| && |g.InEdges(n)| >= 1 && |g.OutEdges(n)| >= 2
  {
    var inIdx := g.InEdges(n)[0];
    var (minIdx, maxIdx) := SelectMinMax(g, g.OutEdges(n)[0], g.OutEdges(n)[1]);
    var minCap := Value(g.Capacity(minIdx));
    && EdgeVar(inIdx) in env
    && if Flow(env, inIdx) <= 2.0 * minCap
       then EdgeVar(minIdx) in env && EdgeVar(maxIdx) in env && Flow(env, minIdx) == Flow(env, maxIdx)
       else EdgeVar(minIdx) in env && Flow(env, minIdx) == minCap
  }

  /** The priority rule read on flows: below the priority capacity the other side is empty, above it the priority side is full. */
  ghost predicate PriorityRoutes(g: Graph, n: NodeIndex, side: Side, env: Assignment)
    requires g.Valid() && n < |g.nodes| && |g.InEdges(n)| >= 1
    requires (n, side) in g.sideOut && (n, side.Other()) in g.sideOut
  {
    var inIdx := g.InEdges(n)[0];
    var prioIdx, otherIdx := g.sideOut[(n, side)], g.sideOut[(n, side.Other())];
    var prioCap := Value(g.Capacity(prioIdx));
    && EdgeVar(inIdx) in env
    && if Flow(env, inIdx) <= prioCap
       then EdgeVar(otherIdx) in env && Flow(env, otherIdx) == 0.0
       else EdgeVar(prioIdx) in env && Flow(env, prioIdx) == prioCap
  }

  lemma SymmetricRuleMeaning(g: Graph, n: NodeIndex, m: map<EdgeIndex, Var>, env: Assignment)
    requires Canonical(m) && SymmetricReady(g, n, m)
    ensures Truth(SymmetricRule(g, n, m), env) == Some(true) <==> SymmetricRoutes(g, n, env)
  {
  }

  lemma PriorityRuleMeaning(g: Graph, n: NodeIndex, side: Side, m: map<EdgeIndex, Var>, env: Assignment)
    requires Canonical(m) && PriorityReady(g, n, side, m)
    ensures Truth(PriorityRule(g, n, side, m), env) == Some(true) <==> PriorityRoutes(g, n, side, env)
  {
  }

  /** The flows on (min, max) that a symmetric splitter with inflow `inflow` produces. */
  function SymmetricShares(inflow: real, minCap: real): (real, real)
  {
    if inflow <= 2.0 * minCap then (inflow / 2.0, inflow / 2.0) else (minCap, inflow - minCap)
  }

  /** The flows on (priority, other) that a priority splitter with inflow `inflow` produces. */
  function PriorityShares(inflow: real, prioCap: real): (real, real)
  {
    if inflow <= prioCap then (inflow, 0.0) else (prioCap, inflow - prioCap)
  }

  /**
   * On a splitter with one incoming and two outgoing edges, the two formulas
   * hold exactly when the branches carry the symmetric shares of the inflow:
   * half each up to twice the smaller capacity, beyond it the smaller branch
   * full and the larger one the rest.
   */
  lemma SymmetricOutcome(g: Graph, n: NodeIndex, m: map<EdgeIndex, Var>, env: Assignment)
    requires Canonical(m) && SymmetricReady(g, n, m)
    requires |g.InEdges(n)| == 1 && |g.OutEdges(n)| == 2
    ensures var inIdx := g.InEdges(n)[0];
            var (minIdx, maxIdx) := SelectMinMax(g, g.OutEdges(n)[0], g.OutEdges(n)[1]);
            Holds(env, SplitterFormulas(g, n, None, m)) <==>
              && EdgeVar(inIdx) in env && EdgeVar(minIdx) in env && EdgeVar(maxIdx) in env
              && (Flow(env, minIdx), Flow(env, maxIdx)) ==
                   SymmetricShares(Flow(env, inIdx), Value(g.Capacity(minIdx)))
  {
    var fs := SplitterFormulas(g, n, None, m);
    var ins, outs := g.InEdges(n), g.OutEdges(n);
    assert [fs[0]] + [fs[1]] == fs;
    HoldsAppend(env, [fs[0]], [fs[1]]);
    KirchhoffMeaning(g, n, m, env);
    SymmetricRuleMeaning(g, n, m, env);
    assert Defined(env, ins) <==> EdgeVar(ins[0]) in env;
    assert Defined(env, outs) <==> EdgeVar(outs[0]) in env && EdgeVar(outs[1]) in env;
    if Defined(env, ins) && Defined(env, outs) {
      assert FlowSum(env, ins) == Flow(env, ins[0]);
      PairSum(env, outs);
    }
  }

  /**
   * On a splitter with one incoming edge whose two sides are its two outgoing
   * edges, the two formulas hold exactly when the priority side takes all the
   * inflow up to its capacity and the other side the rest.
   */
  lemma PriorityOutcome(g: Graph, n: NodeIndex, side: Side, m: map<EdgeIndex, Var>, env: Assignment)
    requires Canonical(m) && PriorityReady(g, n, side, m)
    requires |g.InEdges(n)| == 1 && |g.OutEdges(n)| == 2
    requires var sides := (g.sideOut[(n, side)], g.sideOut[(n, side.Other())]);
             var outs := g.OutEdges(n);
             sides == (outs[0], outs[1]) || sides == (outs[1], outs[0])
    ensures var inIdx := g.InEdges(n)[0];
            var prioIdx, otherIdx := g.sideOut[(n, side)], g.sideOut[(n, side.Other())];
            Holds(env, SplitterFormulas(g, n, Some(side), m)) <==>
              && EdgeVar(inIdx) in env && EdgeVar(prioIdx) in env && EdgeVar(otherIdx) in env
              && (Flow(env, prioIdx), Flow(env, otherIdx)) ==
                   PriorityShares(Flow(env, inIdx), Value(g.Capacity(prioIdx)))
  {
    var fs := SplitterFormulas(g, n, Some(side), m);
    var ins, outs := g.InEdges(n), g.OutEdges(n);
    assert [fs[0]] + [fs[1]] == fs;
    HoldsAppend(env, [fs[0]], [fs[1]]);
    KirchhoffMeaning(g, n, m, env);
    PriorityRuleMeaning(g, n, side, m, env);
    assert Defined(env, ins) <==> EdgeVar(ins[0]) in env;
    assert Defined(env, outs) <==> EdgeVar(outs[0]) in env && EdgeVar(outs[1]) in env;
    if Defined(env, ins) && Defined(env, outs) {
      assert FlowSum(env, ins) == Flow(env, ins[0]);
      PairSum(env, outs);
    }
  }

  // ---------------------------------------------------------------------------
  // Every node kind

  /** How the flows at node `n` must behave, by node kind. */
  ghost predicate NodeBehaves(g: Graph, n: NodeIndex, env: Assignment)
    requires g.Valid() && n < |g.nodes|
  {
    match g.nodes[n]
    case Connector => Conserves(g, n, env)
    case Input(id) =>
      && |g.OutEdges(n)| >= 1
      && InputVar(n, id) in env && EdgeVar(g.OutEdges(n)[0]) in env
      && env[InputVar(n, id)] == Flow(env, g.OutEdges(n)[0])
    case Output =>
      && |g.InEdges(n)| >= 1
      && OutputVar(n) in env && EdgeVar(g.InEdges(n)[0]) in env
      && env[OutputVar(n)] == Flow(env, g.InEdges(n)[0])
    case Merger => Conserves(g, n, env)
    case Splitter(priority) =>
      && Conserves(g, n, env)
      && |g.InEdges(n)| >= 1
      && match priority
         case None => |g.OutEdges(n)| >= 2 && SymmetricRoutes(g, n, env)
         case Some(side) =>
           && (n, side) in g.sideOut && (n, side.Other()) in g.sideOut
           && PriorityRoutes(g, n, side, env)
  }

  /** The formulas of each node hold exactly when its flows behave as its kind demands. */
  lemma NodeMeaning(g: Graph, n: NodeIndex, m: map<EdgeIndex, Var>, env: Assignment)
    requires Canonical(m) && NodeReady(g, n, m)
    ensures Holds(env, NodeFormulas(g, n, m)) <==> NodeBehaves(g, n, env)
  {
    match g.nodes[n]
    case Connector => KirchhoffMeaning(g, n, m, env);
    case Input(id) => InputMeaning(g, n, id, m, env);
    case Output => OutputMeaning(g, n, m, env);
    case Merger => KirchhoffMeaning(g, n, m, env);
    case Splitter(priority) =>
      var fs := SplitterFormulas(g, n, priority, m);
      assert [fs[0]] + [fs[1]] == fs;
      HoldsAppend(env, [fs[0]], [fs[1]]);
      KirchhoffMeaning(g, n, m, env);
      match priority {
        case None => SymmetricRuleMeaning(g, n, m, env);
        case Some(side) => PriorityRuleMeaning(g, n, side, m, env);
      }
  }
}
