# Structures and causal-inference checks, in Dafny

This project models the two components of the causality engine that reason
about rule models of biochemical reactions.

- **Structures** (`structures.dfy`). A structure describes a shape that a
  rule's graph must contain: a named `Agent`, two structures `Bound` to each
  other, a structure `WithSite` another one as its site, or a structure
  `Labeled` with a label. Each structure has a central node, the node that
  stands for it when it is composed further. Lowering a structure against a
  graph yields a conjunction of membership tests: the node set, the link
  edges, the parent (site) edges and the per-node label sets. Here the graph
  is a concrete value. `Holds` evaluates those tests in it. Node names and
  label strings reach the graph through two interners, which are fixed
  functions. `Shape` is the smallest graph a structure asks for. A structure
  holds exactly in the graphs that contain its shape.
- **Causal checks** (`logic.dfy`, `causality.dfy`). A context `C`, a new
  statement `S` and a candidate inference `I` are formulas. The checks
  combine them and pose satisfiability and validity queries:
  `explains_statement`, `isnt_straight_up_false`, `isnt_vacuously_true`,
  `is_candidate_inference` and `is_candidate_unique_inference`. Formulas are
  propositional, with `Sat` and `Valid` defined by evaluation under all
  assignments. The external solver is a parameter `check`. It maps an
  assertion stack to sat, unsat or unknown. `Sound` says it never answers sat
  or unsat wrongly. `Exact` also rules out unknown. The two primitives keep
  the source's unknown policy: `check_sat` treats unknown as not sat, and
  `check_valid` treats unknown as valid.
- **A reference solver** (`truth_table.dfy`). This is a truth-table decision
  procedure, proved exact (`TruthTable.TableCheckerExact`). It shows that a
  solver can meet the `Exact` assumption that several lemmas use.

`check_valid` starts on a fresh solver with an empty assertion stack and
returns valid early if that stack is unsat. The model reads the test at
`new_engine/causality_analyzer.py:20` that way. A sound solver never takes
this branch, because the empty stack is satisfiable
(`CausalityAnalyzer.EmptyContextNeverUnsat`). As written, the Python test
negates the result object instead of comparing it with unsat. That test is
never true either, so the result is the same.

## Model

| member | source | states |
|---|---|---|
| `Structures.Structure.BoundTo` | new_engine/structure.py:14-16 | the bound structure keeps this structure's central node, and its agents are this structure's agents followed by the other's |
| `Structures.Structure.LabeledWith` | new_engine/structure.py:18-20 | the labeled structure keeps the central node and the agents of this structure |
| `Structures.Structure.HavingSite` | new_engine/structure.py:22-24 | the structure with a site keeps this structure's central node, and its agents are this structure's followed by the site's |
| `Structures.Structure.CentralNodeLabel` | new_engine/structure.py:32-100 | the central node of any structure is its leftmost agent: Bound, WithSite and Labeled pass on the central node of their first or inner operand |
| `Structures.Structure.Holds` | new_engine/structure.py:36-110 | whenever a structure holds in a graph, the node of its central name is in the graph's node set |
| `Structures.HoldsIffContainsShape` | new_engine/structure.py:36-110 | a structure holds in a graph if and only if every node, link edge, parent edge and label of its shape is in the graph |
| `Structures.HoldsInShape` | new_engine/structure.py:36-110 | a structure holds in the graph built to contain exactly its shape |
| `Structures.NothingHoldsWithoutNodes` | new_engine/structure.py:36-41 | no structure holds in a graph with an empty node set |
| `Structures.AgentsPresent` | new_engine/structure.py:36-110 | when a structure holds, the node of every one of its agents is in the node set |
| `Structures.HoldsMonotone` | new_engine/structure.py:56-110 | if every set of one graph is contained in the matching set of another, a structure that holds in the first holds in the second |
| `Structures.CompositionHolds` | new_engine/structure.py:56-110 | `a.bound(b)` holds iff the edge between the two central nodes is a link and both operands hold; `a.with_site(b)` is the same with a parent edge; `a.labeled(l)` holds iff the interned label is in the central node's label set and `a` holds |
| `Structures.LinkIsNotSite` | new_engine/structure.py:79-88 | an edge present as a link but not as a parent satisfies Bound but not WithSite |
| `Structures.DistinctLabelsDistinguished` | new_engine/structure.py:102-110 | with an injective label interner, a node whose only label is `l1` satisfies a Labeled asking for `l2` only if `l2` is `l1` |
| `Structures.DistinctAgentsDistinguished` | new_engine/structure.py:36-41 | with an injective node interner, an agent holds in a one-node graph only if it names that node |
| `Structures.PhosphorylatedMek1` | new_engine/structure.py:102-110 | MEK1 labeled phosphate holds when MEK1's label set has the phosphate label, and fails when MEK1 has no labels |
| `Structures.Label` | new_engine/structure.py:113-117 | a label is its name behind the prefix `label_`: it starts with the prefix and the rest is the name |
| `Structures.LabelRoundTrip` | new_engine/structure.py:113-117 | removing the prefix from a label gives back the name |
| `Structures.LabelNameInverse` | new_engine/structure.py:113-117 | every string that starts with the prefix is the label of what follows the prefix |
| `Structures.LabelInjective` | new_engine/structure.py:113-117 | distinct names give distinct labels |
| `Logic.ValidIffTrueEverywhere` | new_engine/causality_analyzer.py:16-26 | validity computed as "the negation is unsatisfiable" means truth under every assignment |
| `CausalityAnalyzer.CheckSat` | new_engine/causality_analyzer.py:8-13 | with a sound solver, a true answer means the formula is satisfiable; with an exact solver, the answer is true exactly when it is satisfiable |
| `CausalityAnalyzer.CheckValid` | new_engine/causality_analyzer.py:16-26 | with a sound solver, the answer is true unless the solver reports the negation sat, and every valid formula gets true; with an exact solver, the answer is true exactly when the formula is valid |
| `CausalityAnalyzer.EmptyContextNeverUnsat` | new_engine/causality_analyzer.py:19-21 | a sound solver never reports the empty context unsat, so the early return never decides the answer |
| `CausalityAnalyzer.ExplainsStatement` | new_engine/causality_analyzer.py:88-89 | with an exact solver, true exactly when every assignment satisfying context and inference satisfies the statement |
| `CausalityAnalyzer.IsntStraightUpFalse` | new_engine/causality_analyzer.py:91-92 | with a sound solver, true only if one assignment satisfies context, inference and statement together; with an exact solver, exactly then |
| `CausalityAnalyzer.IsntVacuouslyTrue` | new_engine/causality_analyzer.py:94-96 | with a sound solver, true only if neither the context nor the statement entails the inference; with an exact solver, exactly then |
| `CausalityAnalyzer.IsCandidateInference` | new_engine/causality_analyzer.py:98-101 | with an exact solver, true exactly when context and inference entail the statement, the three are jointly satisfiable, and neither context nor statement entails the inference; with a sound solver, the last two parts are implied |
| `CausalityAnalyzer.IsCandidateUniqueInference` | new_engine/causality_analyzer.py:112-116 | with an exact solver, true exactly when context and statement entail the inference and the inference is a candidate |
| `CausalityAnalyzer.UniqueRefinesCandidate` | new_engine/causality_analyzer.py:112-116 | every candidate unique inference is a candidate inference, for any solver |
| `CausalityAnalyzer.ForcedInferenceRejected` | new_engine/causality_analyzer.py:94-101 | with a sound solver, an inference entailed by the context or by the statement fails the vacuity check, so it is neither a candidate nor a unique candidate |
| `CausalityAnalyzer.RestatementRejected` | new_engine/causality_analyzer.py:94-101 | with a sound solver, taking the statement itself as the inference is never a candidate |
| `CausalityAnalyzer.TrueInferenceRejected` | new_engine/causality_analyzer.py:94-101 | with a sound solver, the inference `True` is never a candidate |
| `CausalityAnalyzer.ContextRestatementRejected` | new_engine/causality_analyzer.py:94-101 | with a sound solver, taking the context itself as the inference is never a candidate |
| `CausalityAnalyzer.UniqueInferenceEquivalentUnderContext` | new_engine/causality_analyzer.py:88-116 | with an exact solver, a candidate unique inference and the statement agree under every assignment that satisfies the context |
| `CausalityAnalyzer.ValidImpliesSatChecked` | new_engine/causality_analyzer.py:8-26 | with an exact solver, a formula that passes the validity check also passes the satisfiability check |
| `CausalityAnalyzer.UnknownPolicy` | new_engine/causality_analyzer.py:8-26 | a solver that always answers unknown is sound; under it every formula passes the validity check, none passes the satisfiability check, and nothing is a candidate |
| `CausalityAnalyzer.StrongerInferenceIsCandidate` | new_engine/causality_analyzer.py:98-116 | with an exact solver, context `True`, statement `p` and inference `p and q` form a candidate inference that is not unique |

## Left out

- The SMT solver itself: solver objects, `push`, `add`, `check` and the numeric result code compared with `> 0`. A solver is a function from an assertion stack to sat, unsat or unknown. Each primitive builds a fresh solver, so its query is exactly the stack it pushed.
- The `pop` calls after `return` in `check_sat` and `check_valid`: they never run, and each solver is discarded after one call.
- The unused solver built in `is_candidate_unique_inference`.
- `detect_ambiguous`: the source leaves it unfinished, stopping in a debugger breakpoint.
- The demonstration driver under `__main__`.
- The `predicate` and `solver` modules (`ModelHasRule`, `PregraphHas`, `PostgraphHas`, their `And`, `MySolver`) are not part of this model.
- The graph encoding backend (`Graph.has`, `Graph.links`, `Graph.parents`, `Graph.labelmap`, `Edge.edge`) is not part of this model. A graph is a concrete value with sets and a map. A node missing from the label map has no labels. An edge is the ordered pair (first central node, second central node), in the argument order the source uses.
- The node and label interners are fixed functions. Their memo tables, which grow as new names arrive, are not modelled. Injectivity is an explicit assumption only where a lemma needs it.
- `Structures.Structure.Holds`: it evaluates the membership tests in a concrete graph instead of returning a symbolic formula over graph variables. Satisfiability over unknown graphs is not modelled.
- The abstract `Structure._assert`, which raises `NotImplementedError`, cannot be reached: the set of structures is closed.
- Formulas are propositional. Arithmetic and other theories are not modelled. The "x > 1 explains x > 0" example becomes "p and q explains p".
