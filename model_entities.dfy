/**
 * The encoder: each edge and each node of a flow graph becomes solver
 * constants and formulas, appended to one accumulating helper. The pure part
 * (the formulas each encoder builds) is given as functions; the helper is a
 * class whose methods append to its formula list and insert into its maps,
 * as the encoders do.
 */
module ModelEntities {
  import opened Wrappers
  import opened Smt
  import opened Fractions
  import opened FlowGraph

  /** The solver's real constant num/den (`Real::from_real`). */
  function FromReal(num: int, den: int): Term
    requires den != 0
  {
    Const(num as real / den as real)
  }

  /**
   * A capacity as a solver constant. The source casts numerator and
   * denominator to 32-bit integers; here they must fit, so the constant
   * denotes the capacity exactly.
   */
  function ToZ3(f: Fraction): (t: Term)
    requires FitsI32(f)
    ensures forall env :: Eval(t, env) == Some(Value(f))
  {
    FromReal(f.numer, f.denom)
  }

  /** Each encoded edge is mapped to the constant named after it. */
  ghost predicate Canonical(m: map<EdgeIndex, Var>)
  {
    forall e :: e in m ==> m[e] == EdgeVar(e)
  }

  predicate AllIn(m: map<EdgeIndex, Var>, es: seq<EdgeIndex>)
  {
    forall i :: 0 <= i < |es| ==> es[i] in m
  }

  /** The flow constants of the edges `es`, in order. */
  function Lookup(m: map<EdgeIndex, Var>, es: seq<EdgeIndex>): seq<Term>
    requires AllIn(m, es)
  {
    seq(|es|, i requires 0 <= i < |es| => Sym(m[es[i]]))
  }

  // ---------------------------------------------------------------------------
  // The formulas each encoder emits

  /** `edge <= capacity` followed by `edge >= 0`. */
  function EdgeFormulas(idx: EdgeIndex, e: Edge): seq<Formula>
    requires FitsI32(e.capacity)
  {
    var edge := Sym(EdgeVar(idx));
    [Le(edge, ToZ3(e.capacity)), Ge(edge, FromReal(0, 1))]
  }

  /** Every edge at node `n` has been encoded. */
  ghost predicate KirchhoffReady(g: Graph, n: NodeIndex, m: map<EdgeIndex, Var>)
  {
    && g.Valid()
    && n < |g.nodes|
    && AllIn(m, g.InEdges(n))
    && AllIn(m, g.OutEdges(n))
  }

  /** sum(incoming flow constants) = sum(outgoing flow constants). */
  function KirchhoffFormula(g: Graph, n: NodeIndex, m: map<EdgeIndex, Var>): Formula
    requires KirchhoffReady(g, n, m)
  {
    Eq(Add(Lookup(m, g.InEdges(n))), Add(Lookup(m, g.OutEdges(n))))
  }

  /** The node has a first outgoing edge and it has been encoded. */
  ghost predicate InputReady(g: Graph, n: NodeIndex, m: map<EdgeIndex, Var>)
  {
    && g.Valid()
    && n < |g.nodes|
    && |g.OutEdges(n)| >= 1
    && g.OutEdges(n)[0] in m
  }

  /** The input constant equals the flow on the first outgoing edge. */
  function InputFormula(g: Graph, n: NodeIndex, id: nat, m: map<EdgeIndex, Var>): Formula
    requires InputReady(g, n, m)
  {
    Eq(ToReal(InputVar(n, id)), Sym(m[g.OutEdges(n)[0]]))
  }

  /** The node has a first incoming edge and it has been encoded. */
  ghost predicate OutputReady(g: Graph, n: NodeIndex, m: map<EdgeIndex, Var>)
  {
    && g.Valid()
    && n < |g.nodes|
    && |g.InEdges(n)| >= 1
    && g.InEdges(n)[0] in m
  }

  /** The output constant equals the flow on the first incoming edge. */
  function OutputFormula(g: Graph, n: NodeIndex, m: map<EdgeIndex, Var>): Formula
    requires OutputReady(g, n, m)
  {
    Eq(Sym(OutputVar(n)), Sym(m[g.InEdges(n)[0]]))
  }

  /**
   * The pair (min, max) of two outgoing edges, ordered by capacity; on equal
   * capacities the first edge is the min.
   */
  function SelectMinMax(g: Graph, a: EdgeIndex, b: EdgeIndex): (r: (EdgeIndex, EdgeIndex))
    requires a < |g.edges| && b < |g.edges|
    ensures r == (a, b) || r == (b, a)
    ensures Value(g.Capacity(r.0)) <= Value(g.Capacity(r.1))
    ensures Value(g.Capacity(a)) == Value(g.Capacity(b)) ==> r == (a, b)
  {
    if LessEq(g.Capacity(a), g.Capacity(b)) then (a, b) else (b, a)
  }

  /** What the symmetric splitter rule reads, with the capacities it converts fitting. */
  ghost predicate SymmetricReady(g: Graph, n: NodeIndex, m: map<EdgeIndex, Var>)
  {
    && KirchhoffReady(g, n, m)
    && |g.InEdges(n)| >= 1
    && |g.OutEdges(n)| >= 2
    && var (minIdx, _) := SelectMinMax(g, g.OutEdges(n)[0], g.OutEdges(n)[1]);
       FitsI32(g.Capacity(minIdx)) && FitsI32(Double(g.Capacity(minIdx)))
  }

  /** `ite(in <= 2 * minCap, min = max, min = minCap)`. */
  function SymmetricRule(g: Graph, n: NodeIndex, m: map<EdgeIndex, Var>): Formula
    requires SymmetricReady(g, n, m)
  {
    var inVar := Sym(m[g.InEdges(n)[0]]);
    var (minIdx, maxIdx) := SelectMinMax(g, g.OutEdges(n)[0], g.OutEdges(n)[1]);
    var minVar, maxVar := Sym(m[minIdx]), Sym(m[maxIdx]);
    var minCap := g.Capacity(minIdx);
    Ite(Le(inVar, ToZ3(Double(minCap))), Eq(minVar, maxVar), Eq(minVar, ToZ3(minCap)))
  }

  /** What the priority splitter rule reads, with the priority capacity fitting. */
  ghost predicate PriorityReady(g: Graph, n: NodeIndex, side: Side, m: map<EdgeIndex, Var>)
  {
    && KirchhoffReady(g, n, m)
    && |g.InEdges(n)| >= 1
    && (n, side) in g.sideOut
    && (n, side.Other()) in g.sideOut
    && g.sideOut[(n, side)] in m
    && g.sideOut[(n, side.Other())] in m
    && FitsI32(g.Capacity(g.sideOut[(n, side)]))
  }

  /** `ite(in <= prioCap, other = 0, prio = prioCap)`. */
  function PriorityRule(g: Graph, n: NodeIndex, side: Side, m: map<EdgeIndex, Var>): Formula
    requires PriorityReady(g, n, side, m)
  {
    var inVar := Sym(m[g.InEdges(n)[0]]);
    var prioIdx, otherIdx := g.sideOut[(n, side)], g.sideOut[(n, side.Other())];
    var prioCap := ToZ3(g.Capacity(prioIdx));
    Ite(Le(inVar, prioCap), Eq(Sym(m[otherIdx]), FromReal(0, 1)), Eq(Sym(m[prioIdx]), prioCap))
  }

  ghost predicate SplitterReady(g: Graph, n: NodeIndex, priority: Option<Side>, m: map<EdgeIndex, Var>)
  {
    match priority
    case None => SymmetricReady(g, n, m)
    case Some(side) => PriorityReady(g, n, side, m)
  }

  /** Kirchhoff's law at the splitter, then its routing rule. */
  function SplitterFormulas(g: Graph, n: NodeIndex, priority: Option<Side>, m: map<EdgeIndex, Var>): seq<Formula>
    requires SplitterReady(g, n, priority, m)
  {
    var rule := match priority
      case None => SymmetricRule(g, n, m)
      case Some(side) => PriorityRule(g, n, side, m);
    [KirchhoffFormula(g, n, m), rule]
  }

  /** What the encoder of node `n` needs from the graph and the edge map. */
  ghost predicate NodeReady(g: Graph, n: NodeIndex, m: map<EdgeIndex, Var>)
  {
    && g.Valid()
    && n < |g.nodes|
    && match g.nodes[n]
       case Connector => KirchhoffReady(g, n, m)
       case Input(_) => InputReady(g, n, m)
       case Output => OutputReady(g, n, m)
       case Merger => KirchhoffReady(g, n, m)
       case Splitter(priority) => SplitterReady(g, n, priority, m)
  }

  /** The formulas the encoder of node `n` emits, by node kind. */
  function NodeFormulas(g: Graph, n: NodeIndex, m: map<EdgeIndex, Var>): seq<Formula>
    requires NodeReady(g, n, m)
  {
    match g.nodes[n]
    case Connector => [KirchhoffFormula(g, n, m)]
    case Input(id) => [InputFormula(g, n, id, m)]
    case Output => [OutputFormula(g, n, m)]
    case Merger => [KirchhoffFormula(g, n, m)]
    case Splitter(priority) => SplitterFormulas(g, n, priority, m)
  }

  // ---------------------------------------------------------------------------
  // The accumulating helper

  /**
   * The state the encoders share: the flow constant of each encoded edge, the
   * constant of each encoded Input and Output node, and the formulas emitted
   * so far, in order.
   */
  class QuantHelper {
    var edgeMap: map<EdgeIndex, Var>
    var inputMap: map<NodeIndex, Var>
    var outputMap: map<NodeIndex, Var>
    var others: seq<Formula>

    /** Every constant in the maps is the one named after its key. */
    ghost predicate Valid()
      reads this
    {
      && Canonical(edgeMap)
      && (forall k :: k in inputMap ==> inputMap[k].InputVar? && inputMap[k].node == k)
      && (forall k :: k in outputMap ==> outputMap[k] == OutputVar(k))
    }

    constructor ()
      ensures Valid()
      ensures edgeMap == map[] && inputMap == map[] && outputMap == map[]
      ensures others == []
    {
      edgeMap, inputMap, outputMap := map[], map[], map[];
      others := [];
    }

    /** Encodes edge `idx`: a fresh flow constant bounded by 0 and the capacity. */
    method ModelEdge(idx: EdgeIndex, e: Edge)
      requires Valid() && FitsI32(e.capacity)
      modifies this
      ensures Valid()
      ensures others == old(others) + EdgeFormulas(idx, e)
      ensures edgeMap == old(edgeMap)[idx := EdgeVar(idx)]
      ensures inputMap == old(inputMap) && outputMap == old(outputMap)
    {
      var capacity := FromReal(e.capacity.numer, e.capacity.denom);
      var edge := Sym(EdgeVar(idx));
      var zero := FromReal(0, 1);
      others := others + [Le(edge, capacity)];
      others := others + [Ge(edge, zero)];
      edgeMap := edgeMap[idx := EdgeVar(idx)];
    }

    /** Emits Kirchhoff's law for node `n`. */
    method KirchhoffLaw(g: Graph, n: NodeIndex)
      requires Valid() && KirchhoffReady(g, n, edgeMap)
      modifies this
      ensures Valid()
      ensures edgeMap == old(edgeMap) && inputMap == old(inputMap) && outputMap == old(outputMap)
      ensures others == old(others) + [KirchhoffFormula(g, n, edgeMap)]
    {
      var inConsts := Lookup(edgeMap, g.InEdges(n));
      var outConsts := Lookup(edgeMap, g.OutEdges(n));
      var inSum, outSum := Add(inConsts), Add(outConsts);
      others := others + [Eq(inSum, outSum)];
    }

    method ModelConnector(g: Graph, n: NodeIndex)
      requires Valid() && KirchhoffReady(g, n, edgeMap)
      modifies this
      ensures Valid()
      ensures edgeMap == old(edgeMap) && inputMap == old(inputMap) && outputMap == old(outputMap)
      ensures others == old(others) + [KirchhoffFormula(g, n, edgeMap)]
    {
      KirchhoffLaw(g, n);
    }

    /** Registers the input constant of node `n` and ties it to the first outgoing edge. */
    method ModelInput(g: Graph, n: NodeIndex, id: nat)
      requires Valid() && InputReady(g, n, edgeMap)
      modifies this
      ensures Valid()
      ensures inputMap == old(inputMap)[n := InputVar(n, id)]
      ensures edgeMap == old(edgeMap) && outputMap == old(outputMap)
      ensures others == old(others) + [InputFormula(g, n, id, edgeMap)]
    {
      var input := InputVar(n, id);
      var inputReal := ToReal(input);
      inputMap := inputMap[n := input];
      var outIdx := g.OutEdges(n)[0];
      var out := Sym(edgeMap[outIdx]);
      others := others + [Eq(inputReal, out)];
    }

    /** Ties the output constant of node `n` to the first incoming edge and registers it. */
    method ModelOutput(g: Graph, n: NodeIndex)
      requires Valid() && OutputReady(g, n, edgeMap)
      modifies this
      ensures Valid()
      ensures outputMap == old(outputMap)[n := OutputVar(n)]
      ensures edgeMap == old(edgeMap) && inputMap == old(inputMap)
      ensures others == old(others) + [OutputFormula(g, n, edgeMap)]
    {
      var output := OutputVar(n);
      var inIdx := g.InEdges(n)[0];
      var inp := Sym(edgeMap[inIdx]);
      others := others + [Eq(Sym(output), inp)];
      outputMap := outputMap[n := output];
    }

    method ModelMerger(g: Graph, n: NodeIndex)
      requires Valid() && KirchhoffReady(g, n, edgeMap)
      modifies this
      ensures Valid()
      ensures edgeMap == old(edgeMap) && inputMap == old(inputMap) && outputMap == old(outputMap)
      ensures others == old(others) + [KirchhoffFormula(g, n, edgeMap)]
    {
      KirchhoffLaw(g, n);
    }

    /** Emits Kirchhoff's law at the splitter, then its routing rule. */
    method ModelSplitter(g: Graph, n: NodeIndex, priority: Option<Side>)
      requires Valid() && SplitterReady(g, n, priority, edgeMap)
      modifies this
      ensures Valid()
      ensures edgeMap == old(edgeMap) && inputMap == old(inputMap) && outputMap == old(outputMap)
      ensures others == old(others) + SplitterFormulas(g, n, priority, edgeMap)
    {
      KirchhoffLaw(g, n);
      var inIdx := g.InEdges(n)[0];
      var inVar := Sym(edgeMap[inIdx]);
      var ast;
      match priority {
        case None =>
          var outIdxs := g.OutEdges(n);
          var aIdx, bIdx := outIdxs[0], outIdxs[1];
          var (minIdx, maxIdx) := SelectMinMax(g, aIdx, bIdx);
          var minVar, maxVar := Sym(edgeMap[minIdx]), Sym(edgeMap[maxIdx]);
          var minCap := g.Capacity(minIdx);
          var minCapVar := ToZ3(minCap);
          var outMin := Double(minCap);
          var outMinVar := ToZ3(outMin);
          ast := Ite(Le(inVar, outMinVar), Eq(minVar, maxVar), Eq(minVar, minCapVar));
        case Some(side) =>
          var prioIdx := g.sideOut[(n, side)];
          var otherIdx := g.sideOut[(n, side.Other())];
          var prioVar, otherVar := Sym(edgeMap[prioIdx]), Sym(edgeMap[otherIdx]);
          var prioCapVar := ToZ3(g.Capacity(prioIdx));
          var zero := FromReal(0, 1);
          ast := Ite(Le(inVar, prioCapVar), Eq(otherVar, zero), Eq(prioVar, prioCapVar));
      }
      others := others + [ast];
    }

    /** Encodes node `n` by its kind. */
    method ModelNode(g: Graph, n: NodeIndex)
      requires Valid() && NodeReady(g, n, edgeMap)
      modifies this
      ensures Valid()
      ensures edgeMap == old(edgeMap)
      ensures others == old(others) + NodeFormulas(g, n, edgeMap)
      ensures inputMap == if g.nodes[n].Input? then old(inputMap)[n := InputVar(n, g.nodes[n].id)]
                          else old(inputMap)
      ensures outputMap == if g.nodes[n].Output? then old(outputMap)[n := OutputVar(n)]
                           else old(outputMap)
    {
      match g.nodes[n] {
        case Connector => ModelConnector(g, n);
        case Input(id) => ModelInput(g, n, id);
        case Output => ModelOutput(g, n);
        case Merger => ModelMerger(g, n);
        case Splitter(priority) => ModelSplitter(g, n, priority);
      }
    }
  }
}
