/**
 * Structures: descriptions of a required shape inside a graph (a named
 * agent, two structures bound or in a site relation, a structure carrying a
 * label) and what it means for a shape to hold in a graph.
 *
 * A graph is given by its node set, its link edges, its parent (site) edges
 * and a label set per node. Names and label strings reach the graph through
 * two interners, modelled as fixed functions. An edge is the ordered pair of
 * the two central nodes, first structure first.
 */
module Structures {

  type Node = int
  type LabelId = int
  type Edge = (Node, Node)

  datatype Graph = Graph(
    has: set<Node>,
    links: set<Edge>,
    parents: set<Edge>,
    labelmap: map<Node, set<LabelId>>)

  /** The node interner and the label-string interner. */
  datatype Interners = Interners(nodeOf: string -> Node, labelOf: string -> LabelId)

  ghost predicate Injective(f: string -> int)
  {
    forall a: string, b: string :: f(a) == f(b) ==> a == b
  }

  /** The labels of node `n`; a node missing from the label map has none. */
  function LabelsOf(g: Graph, n: Node): set<LabelId>
  {
    if n in g.labelmap then g.labelmap[n] else {}
  }

  datatype Structure =
    | Agent(name: string)
    | Bound(structure1: Structure, structure2: Structure)
    | WithSite(structure1: Structure, structure2: Structure)
    | Labeled(structure: Structure, labelName: string)
  {
    /** This structure bound to `other`. */
    function BoundTo(other: Structure): (r: Structure)
      ensures r.CentralNodeLabel() == CentralNodeLabel()
      ensures r.Agents() == Agents() + other.Agents()
    {
      Bound(this, other)
    }

    /** This structure carrying `labelName`. */
    function LabeledWith(labelName: string): (r: Structure)
      ensures r.CentralNodeLabel() == CentralNodeLabel()
      ensures r.Agents() == Agents()
    {
      Labeled(this, labelName)
    }

    /** This structure having `other` as a site. */
    function HavingSite(other: Structure): (r: Structure)
      ensures r.CentralNodeLabel() == CentralNodeLabel()
      ensures r.Agents() == Agents() + other.Agents()
    {
      WithSite(this, other)
    }

    /** The names of all agents in the structure, from left to right. */
    function Agents(): (r: seq<string>)
      ensures |r| > 0
    {
      match this
      case Agent(name) => [name]
      case Bound(s1, s2) => s1.Agents() + s2.Agents()
      case WithSite(s1, s2) => s1.Agents() + s2.Agents()
      case Labeled(s, _) => s.Agents()
    }

    /**
     * The name of the node that stands for this structure when it is
     * composed further: the leftmost agent.
     */
    function CentralNodeLabel(): (r: string)
      ensures r == Agents()[0]
    {
      match this
      case Agent(name) => name
      case Bound(s1, _) => s1.CentralNodeLabel()
      case WithSite(s1, _) => s1.CentralNodeLabel()
      case Labeled(s, _) => s.CentralNodeLabel()
    }

    /** The membership tests this structure lowers to, evaluated in `g`. */
    predicate Holds(g: Graph, it: Interners)
      ensures Holds(g, it) ==> it.nodeOf(CentralNodeLabel()) in g.has
    {
      match this
      case Agent(name) =>
        it.nodeOf(name) in g.has
      case Bound(s1, s2) =>
        && (it.nodeOf(s1.CentralNodeLabel()), it.nodeOf(s2.CentralNodeLabel())) in g.links
        && s1.Holds(g, it)
        && s2.Holds(g, it)
      case WithSite(s1, s2) =>
        && (it.nodeOf(s1.CentralNodeLabel()), it.nodeOf(s2.CentralNodeLabel())) in g.parents
        && s1.Holds(g, it)
        && s2.Holds(g, it)
      case Labeled(s, labelName) =>
        && it.labelOf(labelName) in LabelsOf(g, it.nodeOf(s.CentralNodeLabel()))
        && s.Holds(g, it)
    }
  }

  const LabelPrefix: string := "label_"

  /** A label string: the name with a fixed prefix. */
  function Label(name: string): (r: string)
    ensures |r| == |LabelPrefix| + |name|
    ensures LabelPrefix <= r
    ensures r[|LabelPrefix|..] == name
  {
    LabelPrefix + name
  }

  /** The name a label string was made from, if it carries the prefix. */
  function LabelName(s: string): (r: Option<string>)
    ensures r.Some? <==> LabelPrefix <= s
  {
    if LabelPrefix <= s then Some(s[|LabelPrefix|..]) else None
  }

  datatype Option<T> = None | Some(value: T)

  /** Stripping the prefix recovers the name. */
  lemma LabelRoundTrip(name: string)
    ensures LabelName(Label(name)) == Some(name)
  {
  }

  /** Every prefixed string is the label of the name it carries. */
  lemma LabelNameInverse(s: string)
    requires LabelName(s).Some?
    ensures Label(LabelName(s).value) == s
  {
    assert s == s[..|LabelPrefix|] + s[|LabelPrefix|..];
  }

  /** Distinct names give distinct labels. */
  lemma LabelInjective(x: string, y: string)
    requires Label(x) == Label(y)
    ensures x == y
  {
    LabelRoundTrip(x);
    LabelRoundTrip(y);
  }

  // ---------------------------------------------------------------------
  // The shape of a structure as the smallest graph it needs

  /** Every set of `g` is contained in the corresponding set of `h`. */
  predicate SubGraph(g: Graph, h: Graph)
  {
    && g.has <= h.has
    && g.links <= h.links
    && g.parents <= h.parents
    && forall n | n in g.labelmap :: g.labelmap[n] <= LabelsOf(h, n)
  }

  function Union(g: Graph, h: Graph): (r: Graph)
    ensures forall n :: LabelsOf(r, n) == LabelsOf(g, n) + LabelsOf(h, n)
  {
    Graph(
      g.has + h.has,
      g.links + h.links,
      g.parents + h.parents,
      map n | n in g.labelmap.Keys + h.labelmap.Keys :: LabelsOf(g, n) + LabelsOf(h, n))
  }

  /** The graph holding exactly the nodes, edges and labels `s` asks for. */
  function Shape(s: Structure, it: Interners): Graph
  {
    match s
    case Agent(name) =>
      Graph({it.nodeOf(name)}, {}, {}, map[])
    case Bound(s1, s2) =>
      var e := (it.nodeOf(s1.CentralNodeLabel()), it.nodeOf(s2.CentralNodeLabel()));
      Union(Union(Shape(s1, it), Shape(s2, it)), Graph({}, {e}, {}, map[]))
    case WithSite(s1, s2) =>
      var e := (it.nodeOf(s1.CentralNodeLabel()), it.nodeOf(s2.CentralNodeLabel()));
      Union(Union(Shape(s1, it), Shape(s2, it)), Graph({}, {}, {e}, map[]))
    case Labeled(s1, labelName) =>
      var n := it.nodeOf(s1.CentralNodeLabel());
      Union(Shape(s1, it), Graph({}, {}, {}, map[n := {it.labelOf(labelName)}]))
  }

  lemma SubGraphUnion(g1: Graph, g2: Graph, h: Graph)
    ensures SubGraph(Union(g1, g2), h) <==> SubGraph(g1, h) && SubGraph(g2, h)
  {
    var u := Union(g1, g2);
    if SubGraph(g1, h) && SubGraph(g2, h) {
      forall n | n in u.labelmap ensures u.labelmap[n] <= LabelsOf(h, n) {
        assert u.labelmap[n] == LabelsOf(u, n);
      }
    }
    if SubGraph(u, h) {
      forall n | n in g1.labelmap ensures g1.labelmap[n] <= LabelsOf(h, n) {
        assert LabelsOf(g1, n) <= LabelsOf(u, n);
      }
      forall n | n in g2.labelmap ensures g2.labelmap[n] <= LabelsOf(h, n) {
        assert LabelsOf(g2, n) <= LabelsOf(u, n);
      }
    }
  }

  /**
   * A structure holds in `g` exactly when `g` contains its shape: the
   * lowering asks for the shape's nodes, edges and labels and nothing else.
   */
  lemma {:induction false} HoldsIffContainsShape(s: Structure, g: Graph, it: Interners)
    ensures s.Holds(g, it) ==> SubGraph(Shape(s, it), g)
    ensures SubGraph(Shape(s, it), g) ==> s.Holds(g, it)
  {
    match s
    case Agent(name) =>
    case Bound(s1, s2) =>
      HoldsIffContainsShape(s1, g, it);
      HoldsIffContainsShape(s2, g, it);
      var e := (it.nodeOf(s1.CentralNodeLabel()), it.nodeOf(s2.CentralNodeLabel()));
      SubGraphUnion(Union(Shape(s1, it), Shape(s2, it)), Graph({}, {e}, {}, map[]), g);
      SubGraphUnion(Shape(s1, it), Shape(s2, it), g);
    case WithSite(s1, s2) =>
      HoldsIffContainsShape(s1, g, it);
      HoldsIffContainsShape(s2, g, it);
      var e := (it.nodeOf(s1.CentralNodeLabel()), it.nodeOf(s2.CentralNodeLabel()));
      SubGraphUnion(Union(Shape(s1, it), Shape(s2, it)), Graph({}, {}, {e}, map[]), g);
      SubGraphUnion(Shape(s1, it), Shape(s2, it), g);
    case Labeled(s1, labelName) =>
      HoldsIffContainsShape(s1, g, it);
      var n := it.nodeOf(s1.CentralNodeLabel());
      var lg := Graph({}, {}, {}, map[n := {it.labelOf(labelName)}]);
      SubGraphUnion(Shape(s1, it), lg, g);
      assert SubGraph(lg, g) <==> it.labelOf(labelName) in LabelsOf(g, n);
  }

  /** A structure holds in its own shape. */
  lemma HoldsInShape(s: Structure, it: Interners)
    ensures s.Holds(Shape(s, it), it)
  {
    HoldsIffContainsShape(s, Shape(s, it), it);
  }

  /** No structure holds in a graph with no nodes. */
  lemma NothingHoldsWithoutNodes(s: Structure, g: Graph, it: Interners)
    requires g.has == {}
    ensures !s.Holds(g, it)
  {
  }

  /** Every agent of a structure that holds is a node of the graph. */
  lemma {:induction false} AgentsPresent(s: Structure, g: Graph, it: Interners)
    requires s.Holds(g, it)
    ensures forall k :: 0 <= k < |s.Agents()| ==> it.nodeOf(s.Agents()[k]) in g.has
  {
    match s
    case Agent(_) =>
    case Bound(s1, s2) =>
      AgentsPresent(s1, g, it);
      AgentsPresent(s2, g, it);
    case WithSite(s1, s2) =>
      AgentsPresent(s1, g, it);
      AgentsPresent(s2, g, it);
    case Labeled(s1, _) =>
      AgentsPresent(s1, g, it);
  }

  /** Adding nodes, edges or labels never falsifies a structure. */
  lemma {:induction false} HoldsMonotone(s: Structure, g: Graph, h: Graph, it: Interners)
    requires SubGraph(g, h)
    requires s.Holds(g, it)
    ensures s.Holds(h, it)
  {
    match s
    case Agent(_) =>
    case Bound(s1, s2) =>
      HoldsMonotone(s1, g, h, it);
      HoldsMonotone(s2, g, h, it);
    case WithSite(s1, s2) =>
      HoldsMonotone(s1, g, h, it);
      HoldsMonotone(s2, g, h, it);
    case Labeled(s1, labelName) =>
      HoldsMonotone(s1, g, h, it);
      var n := it.nodeOf(s1.CentralNodeLabel());
      assert n in g.labelmap;
  }

  /** What each composition helper asks of a graph, in terms of its operands. */
  lemma CompositionHolds(s: Structure, other: Structure, labelName: string, g: Graph, it: Interners)
    ensures s.BoundTo(other).Holds(g, it) <==>
      && (it.nodeOf(s.CentralNodeLabel()), it.nodeOf(other.CentralNodeLabel())) in g.links
      && s.Holds(g, it) && other.Holds(g, it)
    ensures s.HavingSite(other).Holds(g, it) <==>
      && (it.nodeOf(s.CentralNodeLabel()), it.nodeOf(other.CentralNodeLabel())) in g.parents
      && s.Holds(g, it) && other.Holds(g, it)
    ensures s.LabeledWith(labelName).Holds(g, it) <==>
      && it.labelOf(labelName) in LabelsOf(g, it.nodeOf(s.CentralNodeLabel()))
      && s.Holds(g, it)
  {
  }

  /** A link edge does not stand in for a parent edge. */
  lemma LinkIsNotSite(s1: Structure, s2: Structure, g: Graph, it: Interners)
    requires s1.Holds(g, it) && s2.Holds(g, it)
    requires (it.nodeOf(s1.CentralNodeLabel()), it.nodeOf(s2.CentralNodeLabel())) in g.links
    requires (it.nodeOf(s1.CentralNodeLabel()), it.nodeOf(s2.CentralNodeLabel())) !in g.parents
    ensures s1.BoundTo(s2).Holds(g, it)
    ensures !s1.HavingSite(s2).Holds(g, it)
  {
  }

  /**
   * With an injective label interner, a node whose only label is `l1` does
   * not satisfy a `Labeled` asking for any other label.
   */
  lemma DistinctLabelsDistinguished(s: Structure, l1: string, l2: string, g: Graph, it: Interners)
    requires Injective(it.labelOf)
    requires LabelsOf(g, it.nodeOf(s.CentralNodeLabel())) == {it.labelOf(l1)}
    requires s.LabeledWith(l2).Holds(g, it)
    ensures l2 == l1
  {
  }

  /**
   * With an injective node interner, an agent holds in a one-node graph only
   * when it names that node.
   */
  lemma DistinctAgentsDistinguished(a: string, b: string, g: Graph, it: Interners)
    requires Injective(it.nodeOf)
    requires g.has == {it.nodeOf(b)}
    requires Agent(a).Holds(g, it)
    ensures a == b
  {
  }

  /**
   * MEK1 carrying the phosphate label holds in a graph whose MEK1 node has
   * that label, and fails in one where MEK1 has no labels.
   */
  lemma PhosphorylatedMek1(it: Interners)
    ensures
      var s := Agent("MEK1").LabeledWith(Label("phosphate"));
      var n := it.nodeOf("MEK1");
      && s.Holds(Graph({n}, {}, {}, map[n := {it.labelOf(Label("phosphate"))}]), it)
      && !s.Holds(Graph({n}, {}, {}, map[]), it)
  {
  }
}
