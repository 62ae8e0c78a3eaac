/** Entity graphs and graph_merge: undirected graphs whose nodes and edges carry source ids. */
module Graphs {
  type Name = string
  type Edge = (Name, Name)

  /* ---------- get_from_to ---------- */

  // Python's string order.
  predicate Less(a: string, b: string)
    decreases |a|
  {
    b != [] && (a == [] || a[0] < b[0] || (a[0] == b[0] && Less(a[1..], b[1..])))
  }

  lemma {:induction false} LessIsTotal(a: string, b: string)
    ensures Less(a, b) || Less(b, a) || a == b
    ensures !(Less(a, b) && Less(b, a))
    ensures a == b ==> !Less(a, b)
    decreases |a|
  {
    if a != [] && b != [] {
      LessIsTotal(a[1..], b[1..]);
      assert a == [a[0]] + a[1..] && b == [b[0]] + b[1..];
    }
  }

  function FromTo(a: Name, b: Name): Edge
  {
    if Less(a, b) then (a, b) else (b, a)
  }

  // (a, b) and (b, a) are one pair, and no other pair is.
  lemma FromToIsUnordered(a: Name, b: Name, c: Name, d: Name)
    ensures FromTo(a, b) == FromTo(c, d) <==> (a == c && b == d) || (a == d && b == c)
  {
    LessIsTotal(a, b);
    LessIsTotal(c, d);
  }

  lemma FromToIsNormal(a: Name, b: Name)
    ensures FromTo(FromTo(a, b).0, FromTo(a, b).1) == FromTo(a, b)
  {
    LessIsTotal(a, b);
  }

  predicate Normal(e: Edge) { FromTo(e.0, e.1) == e }

  /* ---------- graphs ---------- */

  datatype NodeAttr = NodeAttr(entityType: string, description: string, sourceId: seq<string>, rank: int)

  datatype EdgeAttr = EdgeAttr(weight: real, description: string, keywords: seq<string>, sourceId: seq<string>)

  // An undirected edge is stored under its normal pair. `docs` is the graph's own source_id.
  datatype Graph = Graph(nodes: map<Name, NodeAttr>, edges: map<Edge, EdgeAttr>, docs: seq<string>)

  ghost predicate ValidEdges<A>(nodes: set<Name>, edges: map<Edge, A>)
  {
    forall e :: e in edges ==> Normal(e) && e.0 in nodes && e.1 in nodes
  }

  ghost predicate ValidGraph(g: Graph)
  {
    ValidEdges(g.nodes.Keys, g.edges)
  }

  function Incident(edges: set<Edge>, n: Name): set<Edge>
  {
    set e | e in edges && (e.0 == n || e.1 == n)
  }

  // networkx counts a self-loop twice.
  function Degree(edges: set<Edge>, n: Name): nat
  {
    |Incident(edges, n)| + if (n, n) in edges then 1 else 0
  }

  const SEP := "<SEP>"

  function MergedNode(a: NodeAttr, b: NodeAttr): NodeAttr
  {
    a.(description := a.description + SEP + b.description, sourceId := a.sourceId + b.sourceId)
  }

  function MergedEdge(a: EdgeAttr, b: EdgeAttr): EdgeAttr
  {
    EdgeAttr(a.weight + b.weight, a.description + SEP + b.description, a.keywords + b.keywords, a.sourceId + b.sourceId)
  }

  // `left` after the entries of `right` whose keys are in `done` have been merged into it.
  function Overlay<K, A>(left: map<K, A>, right: map<K, A>, done: set<K>, merge: (A, A) -> A): map<K, A>
    requires done <= right.Keys
  {
    map k | k in left.Keys + done ::
      if k !in done then left[k] else if k in left then merge(left[k], right[k]) else right[k]
  }

  function Ranked(nodes: map<Name, NodeAttr>, edges: set<Edge>): map<Name, NodeAttr>
  {
    map n | n in nodes :: nodes[n].(rank := Degree(edges, n))
  }

  function Merged(g1: Graph, g2: Graph): Graph
  {
    var edges := Overlay(g1.edges, g2.edges, g2.edges.Keys, MergedEdge);
    Graph(Ranked(Overlay(g1.nodes, g2.nodes, g2.nodes.Keys, MergedNode), edges.Keys), edges, g1.docs + g2.docs)
  }

  lemma MergedIsValid(g1: Graph, g2: Graph)
    requires ValidGraph(g1) && ValidGraph(g2)
    ensures ValidGraph(Merged(g1, g2))
  {
  }

  /* ---------- the objects the source updates ---------- */

  class GraphChange {
    var removedNodes: set<Name>
    var addedUpdatedNodes: set<Name>
    var removedEdges: set<Edge>
    var addedUpdatedEdges: set<Edge>

    constructor ()
      ensures removedNodes == {} && addedUpdatedNodes == {} && removedEdges == {} && addedUpdatedEdges == {}
    {
      removedNodes, addedUpdatedNodes, removedEdges, addedUpdatedEdges := {}, {}, {}, {};
    }
  }

  class EntityGraph {
    var nodes: map<Name, NodeAttr>
    var edges: map<Edge, EdgeAttr>
    var docs: seq<string>

    constructor (g: Graph)
      ensures View() == g
    {
      nodes, edges, docs := g.nodes, g.edges, g.docs;
    }

    function View(): Graph
      reads this
    {
      Graph(nodes, edges, docs)
    }
  }

  lemma OverlayStarts<K, A>(left: map<K, A>, right: map<K, A>, merge: (A, A) -> A)
    ensures Overlay(left, right, {}, merge) == left
  {
  }

  lemma OverlayStep<K, A>(left: map<K, A>, right: map<K, A>, done: set<K>, k: K, merge: (A, A) -> A)
    requires done <= right.Keys && k in right && k !in done
    ensures var now := Overlay(left, right, done, merge);
            && (k in now <==> k in left) && (k in now ==> now[k] == left[k])
            && Overlay(left, right, done + {k}, merge) == now[k := if k in left then merge(left[k], right[k]) else right[k]]
  {
  }

  method MergeNodesInto(g1: EntityGraph, g2: EntityGraph, change: GraphChange)
    requires g1 != g2
    modifies g1`nodes, change`addedUpdatedNodes
    ensures g1.nodes == Overlay(old(g1.nodes), g2.nodes, g2.nodes.Keys, MergedNode)
    ensures change.addedUpdatedNodes == old(change.addedUpdatedNodes) + g2.nodes.Keys
  {
    hide Overlay, MergedNode;
    ghost var nodes0 := g1.nodes;
    var todo := g2.nodes.Keys;
    OverlayStarts(nodes0, g2.nodes, MergedNode);
    assert g2.nodes.Keys - todo == {};
    while todo != {}
      invariant todo <= g2.nodes.Keys
      invariant g1.nodes == Overlay(nodes0, g2.nodes, g2.nodes.Keys - todo, MergedNode)
      invariant change.addedUpdatedNodes == old(change.addedUpdatedNodes) + (g2.nodes.Keys - todo)
      decreases todo
    {
      var n :| n in todo;
      OverlayStep(nodes0, g2.nodes, g2.nodes.Keys - todo, n, MergedNode);
      assert g2.nodes.Keys - (todo - {n}) == (g2.nodes.Keys - todo) + {n};
      change.addedUpdatedNodes := change.addedUpdatedNodes + {n};
      if n !in g1.nodes {
        g1.nodes := g1.nodes[n := g2.nodes[n]];
      } else {
        g1.nodes := g1.nodes[n := MergedNode(g1.nodes[n], g2.nodes[n])];
      }
      todo := todo - {n};
    }
    assert g2.nodes.Keys - todo == g2.nodes.Keys;
  }

  method MergeEdgesInto(g1: EntityGraph, g2: EntityGraph, change: GraphChange)
    requires g1 != g2 && ValidGraph(g2.View())
    modifies g1`edges, change`addedUpdatedEdges
    ensures g1.edges == Overlay(old(g1.edges), g2.edges, g2.edges.Keys, MergedEdge)
    ensures change.addedUpdatedEdges == old(change.addedUpdatedEdges) + g2.edges.Keys
  {
    hide Overlay, MergedEdge;
    ghost var edges0 := g1.edges;
    var todo := g2.edges.Keys;
    OverlayStarts(edges0, g2.edges, MergedEdge);
    assert g2.edges.Keys - todo == {};
    while todo != {}
      invariant todo <= g2.edges.Keys
      invariant g1.edges == Overlay(edges0, g2.edges, g2.edges.Keys - todo, MergedEdge)
      invariant change.addedUpdatedEdges == old(change.addedUpdatedEdges) + (g2.edges.Keys - todo)
      decreases todo
    {
      var e :| e in todo;
      OverlayStep(edges0, g2.edges, g2.edges.Keys - todo, e, MergedEdge);
      assert g2.edges.Keys - (todo - {e}) == (g2.edges.Keys - todo) + {e};
      assert Normal(e);
      change.addedUpdatedEdges := change.addedUpdatedEdges + {FromTo(e.0, e.1)};
      if e !in g1.edges {
        g1.edges := g1.edges[e := g2.edges[e]];
      } else {
        g1.edges := g1.edges[e := MergedEdge(g1.edges[e], g2.edges[e])];
      }
      todo := todo - {e};
    }
    assert g2.edges.Keys - todo == g2.edges.Keys;
  }

  // Every node's rank becomes its degree.
  method RankNodes(g: EntityGraph)
    modifies g`nodes
    ensures g.nodes == Ranked(old(g.nodes), g.edges.Keys)
  {
    hide Degree;
    ghost var before := g.nodes;
    var todo := g.nodes.Keys;
    while todo != {}
      invariant todo <= g.nodes.Keys == before.Keys
      invariant forall n :: n in before ==> g.nodes[n] == if n in todo then before[n] else before[n].(rank := Degree(g.edges.Keys, n))
      decreases todo
    {
      var n :| n in todo;
      g.nodes := g.nodes[n := g.nodes[n].(rank := Degree(g.edges.Keys, n))];
      todo := todo - {n};
    }
  }

  // Merges g2 into g1 in place and records what it touched; the iteration orders are free.
  method GraphMerge(g1: EntityGraph, g2: EntityGraph, change: GraphChange)
    requires g1 != g2 && ValidGraph(g1.View()) && ValidGraph(g2.View())
    modifies g1, change
    ensures g1.View() == Merged(old(g1.View()), old(g2.View()))
    ensures change.addedUpdatedNodes == old(change.addedUpdatedNodes) + g2.nodes.Keys
    ensures change.addedUpdatedEdges == old(change.addedUpdatedEdges) + g2.edges.Keys
    ensures change.removedNodes == old(change.removedNodes) && change.removedEdges == old(change.removedEdges)
  {
    hide Overlay, Ranked;
    MergeNodesInto(g1, g2, change);
    MergeEdgesInto(g1, g2, change);
    RankNodes(g1);
    g1.docs := g1.docs + g2.docs;
  }
}
