# Quantitative flow-graph encoder, modelled in Dafny

This project models the quantitative solver backend of verifactory. That
backend turns a flow graph into linear real-arithmetic constraints. A flow
graph is a directed graph of Connector, Input, Output, Merger and Splitter
nodes joined by edges with exact fractional capacities.

The encoding works like this:

- Each edge gets a flow constant bounded by 0 and its capacity.
- Each Connector and Merger asserts Kirchhoff's law: incoming flow equals outgoing flow.
- Each Input gets its own constant, equal to the flow on its first out-edge; each Output likewise, on its first in-edge.
- Each Splitter asserts Kirchhoff's law, then one if-then-else routing rule. The rule is
  symmetric (capacity-aware, ties going to the first edge) or priority-based.

All of this is appended to one accumulating helper. The helper holds an
edge→constant map, an input map, an output map and a formula list that only
grows.

The solver is replaced by a small language of terms and formulas with an
evaluator:

- Terms: `Const`, `Sym`, `ToReal`, `Add`.
- Formulas: `Le`, `Ge`, `Eq`, `Ite`.
- A solver model is an assignment `map<Var, real>`.
- Constants are identified by the graph index they are named after: `EdgeVar`, `InputVar`, `OutputVar`.

Modules:

- `Smt` (smt.dfy): terms, formulas, the evaluator (`Eval`, `Truth`), `Holds` (every asserted formula is true), and `WellSorted`/`IsModel` (Int constants take integer values).
- `Fractions` (fractions.dfy): capacities as `numer/denom`, their value, the comparison and the doubling the splitter uses.
- `FlowGraph` (flow_graph.dfy): node kinds, edges, and the graph's adjacency queries.
- `ModelEntities` (model_entities.dfy): the formulas each encoder emits, as functions. Also the helper class `QuantHelper`, whose methods append to it exactly as the encoders do. `Valid()` says every constant in its maps is the one named after its key.
- `Semantics` (semantics.dfy): every encoder's formulas hold under an assignment exactly when the flows behave as intended, with closed-form outcomes for splitters.
- `SplitterScenarios` (splitter_scenarios.dfy): the concrete splitter scenarios, plus a client that encodes a whole one-splitter graph.
- `I32Cast` (i32_cast.dfy): the capacity conversion as written, with its truncating casts.

Points of the code's behaviour that the model keeps as they are:

- Wrong edge counts at Input, Output and Splitter nodes panic through `[0]`/`[1]` (lines 106, 127, 157, 163-164). A missing edge-map entry panics at `unwrap()`. The model makes these `requires` clauses.
- Extra edges are never checked for, and what happens to them depends on the node kind:
  - An Input uses only its first out-edge (line 106) and emits no Kirchhoff formula. Its other out-edges are constrained only by their own edge bounds.
  - An Output uses only its first in-edge (line 127) and emits no Kirchhoff formula. Its other in-edges are constrained only by their own edge bounds.
  - A Splitter's Kirchhoff formula covers all its in- and out-edges (line 156). Its routing rule reads only the first in-edge and the first two out-edges (or the two side edges).
  - Connector and Merger have no arity limit: Kirchhoff's law covers every incident edge.
- A capacity whose numerator or denominator is too wide for i32 is silently truncated (see Findings).
- The input constant is declared `Int` (line 101) and read through `Real::from_int` (line 102). The model keeps that: `InputVar` has `IntSort`.

## Model

| member | source | states |
|---|---|---|
| `ModelEntities.ToZ3` | src/backends/z3_quant/model_entities.rs:19-24 | when numerator and denominator fit in i32, the solver constant evaluates to exactly numer/denom under every assignment |
| `Fractions.LessEq` | src/backends/z3_quant/model_entities.rs:168 | the capacity comparison `a_cap <= b_cap` holds exactly when the value of a is at most the value of b |
| `Fractions.Double` | src/backends/z3_quant/model_entities.rs:179 | `min_cap * 2` has exactly twice the value of `min_cap` |
| `ModelEntities.SelectMinMax` | src/backends/z3_quant/model_entities.rs:162-172 | the (min, max) pair is the two out-edges in some order, min has capacity at most max's, and on equal capacities the first out-edge is min |
| `ModelEntities.QuantHelper.ModelEdge` | src/backends/z3_quant/model_entities.rs:210-224 | appends exactly `edge <= capacity` then `edge >= 0` after the earlier formulas, maps the edge index to its constant, and leaves the input and output maps unchanged |
| `ModelEntities.QuantHelper.KirchhoffLaw` | src/backends/z3_quant/model_entities.rs:54-77 | appends exactly one formula, sum(in-edge constants) = sum(out-edge constants), and changes no map |
| `ModelEntities.QuantHelper.ModelConnector` | src/backends/z3_quant/model_entities.rs:79-89 | appends only the Kirchhoff formula and changes no map |
| `ModelEntities.QuantHelper.ModelInput` | src/backends/z3_quant/model_entities.rs:91-112 | registers the node's Int input constant in the input map under the node index, appends exactly one equality between it and the first out-edge's flow, and leaves the edge and output maps unchanged |
| `ModelEntities.QuantHelper.ModelOutput` | src/backends/z3_quant/model_entities.rs:114-134 | appends exactly one equality between the output constant and the first in-edge's flow, registers the constant in the output map under the node index, and leaves the other maps unchanged |
| `ModelEntities.QuantHelper.ModelMerger` | src/backends/z3_quant/model_entities.rs:136-146 | appends only the Kirchhoff formula and changes no map, like a Connector |
| `ModelEntities.QuantHelper.ModelSplitter` | src/backends/z3_quant/model_entities.rs:148-204 | appends exactly two formulas, Kirchhoff first and then the routing rule for the splitter's mode, and changes no map |
| `ModelEntities.QuantHelper.ModelNode` | src/backends/z3_quant/model_entities.rs:36-52 | dispatches on the node kind; only an Input changes the input map and only an Output changes the output map |
| `Semantics.SumMeaning` | src/backends/z3_quant/model_entities.rs:60-73 | the sum term over the looked-up edge constants is defined exactly when every edge has a flow, and then equals the total flow |
| `Semantics.EdgeMeaning` | src/backends/z3_quant/model_entities.rs:219-222 | the two edge formulas hold exactly when the edge has a flow with 0 <= flow <= capacity |
| `Semantics.KirchhoffMeaning` | src/backends/z3_quant/model_entities.rs:54-77 | the Kirchhoff formula holds exactly when every incident edge has a flow and inflow total equals outflow total |
| `Semantics.InputMeaning` | src/backends/z3_quant/model_entities.rs:99-111 | the input formula holds exactly when the input constant equals the first out-edge's flow; in a model that flow is a whole number |
| `Semantics.OutputMeaning` | src/backends/z3_quant/model_entities.rs:122-132 | the output formula holds exactly when the output constant equals the first in-edge's flow |
| `Semantics.SymmetricRuleMeaning` | src/backends/z3_quant/model_entities.rs:160-185 | the symmetric rule holds exactly when min flow = max flow for inflow <= 2 * minCap, and min flow = minCap above that |
| `Semantics.PriorityRuleMeaning` | src/backends/z3_quant/model_entities.rs:186-200 | the priority rule holds exactly when the other side carries 0 for inflow <= prioCap, and the priority side carries prioCap above that |
| `Semantics.SymmetricOutcome` | src/backends/z3_quant/model_entities.rs:156-185 | with one in-edge and two out-edges, Kirchhoff plus the rule hold exactly when both branches carry inflow/2 (inflow <= 2 * minCap), or min carries minCap and max carries inflow - minCap |
| `Semantics.PriorityOutcome` | src/backends/z3_quant/model_entities.rs:186-202 | with one in-edge whose two sides are the two out-edges, Kirchhoff plus the rule hold exactly when the priority side carries all inflow (inflow <= prioCap), or prioCap and the other side carries inflow - prioCap |
| `Semantics.NodeMeaning` | src/backends/z3_quant/model_entities.rs:36-52 | for every node kind, its formulas hold exactly when its flows behave as that kind demands (conservation, boundary equality, routing) |
| `SplitterScenarios.SymmetricBelowThreshold` | src/backends/z3_quant/model_entities.rs:160-185 | capacities (2, 5), inflow 3: the formulas hold exactly when both branches carry 1.5 |
| `SplitterScenarios.SymmetricAboveThreshold` | src/backends/z3_quant/model_entities.rs:160-185 | capacities (2, 5), inflow 5: the formulas hold exactly when the branches carry 2 and 3 |
| `SplitterScenarios.SymmetricSmallerSecond` | src/backends/z3_quant/model_entities.rs:168-172 | capacities (5, 2), inflow 5: the smaller branch is the second edge and carries 2 |
| `SplitterScenarios.SymmetricTie` | src/backends/z3_quant/model_entities.rs:168-172 | capacities (3, 3): the first edge is min, and inflow 4 gives 2 on each branch |
| `SplitterScenarios.PriorityBelowCapacity` | src/backends/z3_quant/model_entities.rs:186-199 | priority capacity 4, inflow 3: priority branch 3, other branch 0 |
| `SplitterScenarios.PriorityAboveCapacity` | src/backends/z3_quant/model_entities.rs:186-199 | priority capacity 4, inflow 6: priority branch 4, other branch 2 |
| `SplitterScenarios.PriorityOnRight` | src/backends/z3_quant/model_entities.rs:187-188 | the priority side is looked up by side, not by position: Right with capacity 4 takes 4 of inflow 6 |
| `SplitterScenarios.EncodeSymmetricScenario` | src/backends/z3_quant/model_entities.rs:148-224 | encoding three edges and then a (2, 5) splitter gives 8 formulas; in any model with inflow 5 the branches carry 2 and 3 |
| `I32Cast.AsI32` | src/backends/z3_quant/model_entities.rs:21-22 | the `as i32` cast gives a value in the i32 range, congruent to its input mod 2^32, and unchanged when the input fits |
| `I32Cast.CastAgreesWhenFits` | src/backends/z3_quant/model_entities.rs:21-23 | when numerator and denominator fit, the conversion as written denotes the capacity exactly |
| `I32Cast.TruncationFlipsSign` | src/backends/z3_quant/model_entities.rs:21-23 | a capacity of 2^31 becomes the constant -2^31 as written |
| `I32Cast.TruncationZeroesDenominator` | src/backends/z3_quant/model_entities.rs:212-214 | a denominator of 2^32 becomes 0 as written, and the solver rejects the constant |

## Findings

| source | as written | input that shows it | evidently intended | confidence | as-written member | corrected member |
|---|---|---|---|---|---|---|
| src/backends/z3_quant/model_entities.rs:21-22 | numerator and denominator are cast `u128 as i32`, keeping only the low 32 bits (the same cast is repeated at lines 212-213) | a capacity of 2147483648/1 is emitted as -2147483648; denominator 2^32 is emitted as 0 | a capacity whose numerator or denominator does not fit in i32 is rejected, never silently changed | medium; not executed | `I32Cast.TruncationFlipsSign` | `ModelEntities.ToZ3` |

## Left out

- The solver itself is not modelled: its context, AST lifetimes, the satisfiability check and model extraction. The evaluator stands in for it. The evaluator treats a constant missing from the assignment as undefined, while a solver model gives every constant a value. Every lemma states which constants must be present.
- `model_graph.rs` is not part of this model. It holds the orchestrator that encodes all edges and then all nodes, and the `Z3QuantHelper` definition. Only the four helper fields the encoders touch are modelled. `EncodeSymmetricScenario` follows that order for one graph.
- The graph library and the `FlowGraph`/`GraphHelper` internals are not part of this model (`in_edge_idx`, `out_edge_idx`, `get_edge`, indexing by edge). The graph is given by its per-node incoming and outgoing edge lists and a (node, side) → edge map. Their order is whatever the graph reports.
- Constant names (`edge_<i>`, `input<n>_<id>`, `output<n>`) are not modelled as strings. `Var` keeps the indices they are built from, so different names are different constants.
- Fractions are non-negative `numer/denom` with a non-zero denominator, because capacities are non-negative rationals upstream. Two cases of the fraction type are therefore left out. NaN and infinity make the `unwrap()` on `numer()`/`denom()` panic (lines 21-22, 212-213). A negative capacity is silently emitted as its magnitude, because `numer()`/`denom()` return the magnitude and drop the sign (-3/2 becomes 3/2). The u128 width is left out too, because every converted value must fit in i32 anyway.
- `Fractions.Double`: its result is in lowest terms only when its argument is. The fraction library always keeps values in lowest terms; the model does not prove it.
- `ModelEntities.ToZ3`: requires numerator and denominator to fit in i32, instead of modelling the truncation. The truncation as written is in `I32Cast` and the Findings table.
- `ModelEntities.QuantHelper.ModelEdge`: requires the edge capacity's numerator and denominator to fit in i32 (the cast at lines 212-213), instead of modelling the truncation.
- `ModelEntities.QuantHelper.ModelSplitter`: requires the converted capacities to fit in i32, through `SymmetricReady` and `PriorityReady`. For a symmetric splitter that covers the smaller capacity and its double `min_cap * 2` (lines 177-180). For a priority splitter it covers the priority capacity (lines 193-194). The truncation is not modelled here either.
- Panics are requires clauses, not error results, because the code has no error path. These cover a missing edge in the edge map and a missing first or second edge.
- A sum with no summands evaluates to 0. What the solver does with an empty `Real::add` is not modelled.
- Structurally identical output for repeated encodings follows from every encoder being a function of the helper's old state. It is not stated as a separate lemma.
