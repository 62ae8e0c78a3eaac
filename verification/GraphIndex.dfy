/** The entity and relation records kept beside a graph: set_graph applies a recorded change to them, and
    they are meant to name exactly the graph's nodes and edges. */
module GraphIndex {
  import opened Graphs
  import opened Subgraphs

  // A relation record keeps the two names in the order it was written with.
  datatype Record =
    | GraphRecord(graph: Graph)
    | SubgraphRecord(doc: string, subgraph: Graph)
    | EntityRecord(name: Name)
    | RelationRecord(source: Name, target: Name)

  datatype Change = Change(removedNodes: set<Name>, addedNodes: set<Name>, removedEdges: set<Edge>, addedEdges: set<Edge>)

  function Filter(records: seq<Record>, keep: Record -> bool): seq<Record>
  {
    if records == [] then []
    else Filter(records[..|records| - 1], keep) + if keep(records[|records| - 1]) then [records[|records| - 1]] else []
  }

  function Count(records: seq<Record>, r: Record): nat { multiset(records)[r] }

  lemma {:induction false} FilterCounts(records: seq<Record>, keep: Record -> bool)
    ensures forall r :: Count(Filter(records, keep), r) == if keep(r) then Count(records, r) else 0
  {
    if records != [] {
      var front, last := records[..|records| - 1], records[|records| - 1];
      assert records == front + [last];
      FilterCounts(front, keep);
    }
  }

  // The deletions of set_graph.
  predicate Survives(c: Change, r: Record)
  {
    match r
    case GraphRecord(_) => false
    case SubgraphRecord(_, _) => false
    case EntityRecord(n) => n !in c.removedNodes
    case RelationRecord(a, b) => (a, b) !in c.removedEdges
  }

  ghost predicate Inserted(g: Graph, c: Change, r: Record)
  {
    match r
    case GraphRecord(h) => h == g
    case SubgraphRecord(doc, h) => doc in g.docs && h == SubgraphOf(g, doc)
    case EntityRecord(n) => n in c.addedNodes
    case RelationRecord(a, b) => (a, b) in c.addedEdges && FromTo(a, b) in g.edges
  }

  // How many records like r set_graph inserts: a document that the graph lists twice gets two subgraphs.
  function Copies(g: Graph, c: Change, r: Record): (n: nat)
    ensures n > 0 <==> Inserted(g, c, r)
  {
    GraphCopies(g, g.docs, r) + EntityCopies(c.addedNodes, r) + RelationCopies(g, c.addedEdges, r)
  }

  function GraphCopies(g: Graph, docs: seq<string>, r: Record): nat
  {
    match r
    case GraphRecord(h) => if h == g then 1 else 0
    case SubgraphRecord(doc, h) => if h == SubgraphOf(g, doc) then multiset(docs)[doc] else 0
    case _ => 0
  }

  function EntityCopies(names: set<Name>, r: Record): nat
  {
    if r.EntityRecord? && r.name in names then 1 else 0
  }

  function RelationCopies(g: Graph, pairs: set<Edge>, r: Record): nat
  {
    if r.RelationRecord? && (r.source, r.target) in pairs && FromTo(r.source, r.target) in g.edges then 1 else 0
  }

  // How many of the records like r survive.
  function Left(records: seq<Record>, c: Change, r: Record): nat
  {
    if Survives(c, r) then Count(records, r) else 0
  }

  function WithoutPairs(records: seq<Record>, pairs: set<Edge>, r: Record): nat
  {
    if r.RelationRecord? && (r.source, r.target) in pairs then 0 else Count(records, r)
  }

  lemma LeftAreMembers(after: seq<Record>, before: seq<Record>, c: Change)
    requires forall r :: Count(after, r) == Left(before, c, r)
    ensures forall r :: r in after <==> r in before && Survives(c, r)
  {
    hide Survives;
    forall r ensures r in after <==> r in before && Survives(c, r) {
      assert Count(after, r) == Left(before, c, r);
    }
  }

  lemma CountOneMore(records: seq<Record>, x: Record)
    ensures forall r :: Count(records + [x], r) == Count(records, r) + if r == x then 1 else 0
  {
  }

  lemma CountOfParts(a: seq<Record>, b: seq<Record>, c: seq<Record>, d: seq<Record>, r: Record)
    ensures Count(a + b + c + d, r) == Count(a, r) + Count(b, r) + Count(c, r) + Count(d, r)
  {
  }

  // No graph and no subgraph is on record.
  ghost predicate NoGraph(records: seq<Record>)
  {
    (forall h :: GraphRecord(h) !in records) && forall doc, h :: SubgraphRecord(doc, h) !in records
  }

  // An added or updated node that the graph does not hold raises before anything is inserted.
  class DocStore {
    var records: seq<Record>

    constructor ()
      ensures records == []
    {
      records := [];
    }

    method Delete(keep: Record -> bool)
      modifies this
      ensures forall r :: Count(records, r) == if keep(r) then Count(old(records), r) else 0
    {
      FilterCounts(records, keep);
      records := Filter(records, keep);
    }

    method DeleteFor(c: Change)
      modifies this
      ensures forall r :: Count(records, r) == Left(old(records), c, r)
      ensures forall r :: r in records <==> r in old(records) && Survives(c, r)
      ensures NoGraph(records)
      ensures forall n :: EntityRecord(n) in records <==> EntityRecord(n) in old(records) && n !in c.removedNodes
      ensures forall a, b :: RelationRecord(a, b) in records <==> RelationRecord(a, b) in old(records) && (a, b) !in c.removedEdges
    {
      hide Count;
      ghost var all := records;
      Delete((r: Record) => r.EntityRecord? || r.RelationRecord?);
      if c.removedNodes != {} {
        Delete((r: Record) => !(r.EntityRecord? && r.name in c.removedNodes));
      }
      ghost var before := records;
      var todo := c.removedEdges;
      while todo != {}
        invariant todo <= c.removedEdges
        invariant forall r :: Count(records, r) == WithoutPairs(before, c.removedEdges - todo, r)
        decreases todo
      {
        var e :| e in todo;
        Delete((r: Record) => !(r.RelationRecord? && r.source == e.0 && r.target == e.1));
        todo := todo - {e};
      }
      LeftAreMembers(records, all, c);
    }

    method SetGraph(g: Graph, c: Change) returns (ok: bool)
      modifies this
      ensures ok <==> c.addedNodes <= g.nodes.Keys
      ensures forall r :: Count(records, r) == Left(old(records), c, r) + if ok then Copies(g, c, r) else 0
      ensures forall r :: r in records <==> (r in old(records) && Survives(c, r)) || (ok && Inserted(g, c, r))
      ensures ok ==> OnlyGraph(records, g)
      ensures !ok ==> NoGraph(records)
    {
      hide Survives, Inserted, GraphCopies, EntityCopies, RelationCopies, OnlyGraph, NoGraph;
      ghost var before := records;
      DeleteFor(c);
      ghost var kept := records;
      var chunks := GraphChunks(g);
      if c.addedNodes <= g.nodes.Keys {
        var entities := EntityChunks(c.addedNodes);
        var relations := RelationChunks(g, c.addedEdges);
        records := records + chunks + entities + relations;
        ok := true;
        forall r ensures Count(records, r) == Left(before, c, r) + Copies(g, c, r) {
          CountOfParts(kept, chunks, entities, relations, r);
        }
      } else {
        ok := false;
      }
      forall r ensures r in records <==> (r in before && Survives(c, r)) || (ok && Inserted(g, c, r)) {
        assert Count(records, r) == Left(before, c, r) + if ok then Copies(g, c, r) else 0;
      }
      if ok {
        NumberedHasGraph(before, g, c, records);
      }
    }
  }

  // The graph is on record once, as it is, and so is the subgraph of every document, as often as the graph lists it;
  // no other graph or subgraph is on record.
  ghost predicate OnlyGraph(records: seq<Record>, g: Graph)
  {
    && (forall h :: multiset(records)[GraphRecord(h)] == if h == g then 1 else 0)
    && forall doc, h :: multiset(records)[SubgraphRecord(doc, h)] == if h == SubgraphOf(g, doc) then multiset(g.docs)[doc] else 0
  }

  // Whatever was on record before.
  lemma NumberedHasGraph(before: seq<Record>, g: Graph, c: Change, after: seq<Record>)
    requires NumberedSetGraph(before, g, c, after)
    ensures OnlyGraph(after, g)
  {
    hide SubgraphOf;
    forall h ensures multiset(after)[GraphRecord(h)] == if h == g then 1 else 0 {
      assert Count(after, GraphRecord(h)) == Left(before, c, GraphRecord(h)) + Copies(g, c, GraphRecord(h));
    }
    forall doc, h ensures multiset(after)[SubgraphRecord(doc, h)] == if h == SubgraphOf(g, doc) then multiset(g.docs)[doc] else 0 {
      assert Count(after, SubgraphRecord(doc, h)) == Left(before, c, SubgraphRecord(doc, h)) + Copies(g, c, SubgraphRecord(doc, h));
    }
  }

  // The record of the graph, and one subgraph for every document it lists.
  method GraphChunks(g: Graph) returns (chunks: seq<Record>)
    ensures forall r :: Count(chunks, r) == GraphCopies(g, g.docs, r)
  {
    hide Count;
    NoneCounted();
    CountOneMore([], GraphRecord(g));
    chunks := [GraphRecord(g)];
    assert [] + chunks == chunks && g.docs[..0] == [];
    var i := 0;
    while i < |g.docs|
      invariant i <= |g.docs|
      invariant forall r :: Count(chunks, r) == GraphCopies(g, g.docs[..i], r)
    {
      var doc := g.docs[i];
      CountOneMore(chunks, SubgraphRecord(doc, SubgraphOf(g, doc)));
      assert g.docs[..i + 1] == g.docs[..i] + [doc];
      chunks := chunks + [SubgraphRecord(doc, SubgraphOf(g, doc))];
      i := i + 1;
    }
    assert g.docs[..|g.docs|] == g.docs;
  }

  lemma NoneCounted()
    ensures forall r :: Count([], r) == 0
  {
  }

  method EntityChunks(names: set<Name>) returns (chunks: seq<Record>)
    ensures forall r :: Count(chunks, r) == EntityCopies(names, r)
  {
    hide Count;
    NoneCounted();
    chunks := [];
    var todo := names;
    while todo != {}
      invariant todo <= names
      invariant forall r :: Count(chunks, r) == EntityCopies(names - todo, r)
      decreases todo
    {
      var n :| n in todo;
      CountOneMore(chunks, EntityRecord(n));
      chunks := chunks + [EntityRecord(n)];
      todo := todo - {n};
    }
  }

  // An added edge that the graph no longer has is passed over.
  method RelationChunks(g: Graph, pairs: set<Edge>) returns (chunks: seq<Record>)
    ensures forall r :: Count(chunks, r) == RelationCopies(g, pairs, r)
  {
    hide FromTo, Count;
    NoneCounted();
    chunks := [];
    var todo := pairs;
    while todo != {}
      invariant todo <= pairs
      invariant forall r :: Count(chunks, r) == RelationCopies(g, pairs - todo, r)
      decreases todo
    {
      var e :| e in todo;
      if FromTo(e.0, e.1) in g.edges {
        CountOneMore(chunks, RelationRecord(e.0, e.1));
        chunks := chunks + [RelationRecord(e.0, e.1)];
      }
      todo := todo - {e};
    }
  }

  // The records as set_graph leaves them, with their numbers.
  ghost predicate NumberedSetGraph(before: seq<Record>, g: Graph, c: Change, after: seq<Record>)
  {
    && c.addedNodes <= g.nodes.Keys
    && forall r :: Count(after, r) == Left(before, c, r) + Copies(g, c, r)
  }

  // The records as set_graph leaves them, as a set.
  ghost predicate IsSetGraph(before: seq<Record>, g: Graph, c: Change, after: seq<Record>)
  {
    c.addedNodes <= g.nodes.Keys && forall r :: r in after <==> (r in before && Survives(c, r)) || Inserted(g, c, r)
  }

  lemma NumberedIsSetGraph(before: seq<Record>, g: Graph, c: Change, after: seq<Record>)
    requires NumberedSetGraph(before, g, c, after)
    ensures IsSetGraph(before, g, c, after)
  {
    hide Survives, Copies;
    forall r ensures r in after <==> (r in before && Survives(c, r)) || Inserted(g, c, r) {
      assert Count(after, r) == Left(before, c, r) + Copies(g, c, r);
    }
  }

  // The records name exactly the nodes, and exactly the edges up to the order of a pair.
  ghost predicate Agrees(records: seq<Record>, g: Graph)
  {
    EntitiesAgree(records, g) && RelationsAreEdges(records, g) && EdgesAreRelations(records, g)
  }

  ghost predicate EntitiesAgree(records: seq<Record>, g: Graph)
  {
    forall n :: EntityRecord(n) in records <==> n in g.nodes
  }

  ghost predicate RelationsAreEdges(records: seq<Record>, g: Graph)
  {
    forall a, b :: RelationRecord(a, b) in records ==> FromTo(a, b) in g.edges
  }

  ghost predicate EdgesAreRelations(records: seq<Record>, g: Graph)
  {
    forall e :: e in g.edges ==> RelationRecord(e.0, e.1) in records || RelationRecord(e.1, e.0) in records
  }

  /* ---------- merging a subgraph ---------- */

  // What graph_merge records.
  function MergeChange(g2: Graph): Change
  {
    Change({}, g2.nodes.Keys, {}, g2.edges.Keys)
  }

  lemma MergedKeys(g1: Graph, g2: Graph)
    ensures Merged(g1, g2).nodes.Keys == g1.nodes.Keys + g2.nodes.Keys
    ensures Merged(g1, g2).edges.Keys == g1.edges.Keys + g2.edges.Keys
  {
  }

  // If the index agreed with the graph, it agrees with the merged graph after set_graph.
  lemma MergingKeepsAgreement(before: seq<Record>, g1: Graph, g2: Graph, after: seq<Record>)
    requires ValidGraph(g1) && ValidGraph(g2) && Agrees(before, g1)
    requires IsSetGraph(before, Merged(g1, g2), MergeChange(g2), after)
    ensures Agrees(after, Merged(g1, g2))
  {
    hide Merged, FromTo;
    MergedKeys(g1, g2);
    var g, c := Merged(g1, g2), MergeChange(g2);
    forall n ensures EntityRecord(n) in after <==> n in g.nodes {
      assert Survives(c, EntityRecord(n));
      assert Inserted(g, c, EntityRecord(n)) <==> n in g2.nodes;
    }
    forall a, b | RelationRecord(a, b) in after ensures FromTo(a, b) in g.edges {
      assert RelationRecord(a, b) in before || Inserted(g, c, RelationRecord(a, b));
    }
    forall e | e in g.edges ensures RelationRecord(e.0, e.1) in after || RelationRecord(e.1, e.0) in after {
      if e in g1.edges {
        assert Survives(c, RelationRecord(e.0, e.1)) && Survives(c, RelationRecord(e.1, e.0));
      } else {
        assert Normal(e);
        assert Inserted(g, c, RelationRecord(e.0, e.1));
      }
    }
  }

  // `pairs` lists every edge of g, in whatever order of its names, and nothing else.
  ghost predicate Lists(pairs: set<Edge>, g: Graph)
  {
    && (forall e :: e in pairs ==> FromTo(e.0, e.1) in g.edges)
    && (forall e :: e in g.edges ==> e in pairs || (e.1, e.0) in pairs)
  }

  // What the first graph of a knowledge base is recorded as.
  function FirstChange(g: Graph, pairs: set<Edge>): Change
  {
    Change({}, g.nodes.Keys, {}, pairs)
  }

  // The first graph of a knowledge base is indexed with its edges in whatever order they are listed.
  lemma FirstGraphAgrees(before: seq<Record>, g: Graph, pairs: set<Edge>, after: seq<Record>)
    requires ValidGraph(g) && Lists(pairs, g) && Agrees(before, EMPTY_GRAPH)
    requires IsSetGraph(before, g, FirstChange(g, pairs), after)
    ensures Agrees(after, g)
  {
    hide FromTo;
    var c := FirstChange(g, pairs);
    forall a, b ensures RelationRecord(a, b) !in before {
      assert RelationRecord(a, b) in before ==> FromTo(a, b) in EMPTY_GRAPH.edges;
    }
    forall n ensures EntityRecord(n) in after <==> n in g.nodes {
      assert EntityRecord(n) in before <==> n in EMPTY_GRAPH.nodes;
      assert Inserted(g, c, EntityRecord(n)) <==> n in g.nodes;
    }
    forall a, b | RelationRecord(a, b) in after ensures FromTo(a, b) in g.edges {
      assert Inserted(g, c, RelationRecord(a, b));
    }
    forall e | e in g.edges ensures RelationRecord(e.0, e.1) in after || RelationRecord(e.1, e.0) in after {
      assert Normal(e);
      FromToIsUnordered(e.0, e.1, e.1, e.0);
      assert e in pairs ==> Inserted(g, c, RelationRecord(e.0, e.1));
      assert (e.1, e.0) in pairs ==> Inserted(g, c, RelationRecord(e.1, e.0));
    }
  }

  // set_graph always has a result when the nodes it is to add exist.
  lemma SetGraphExists(before: seq<Record>, g: Graph, c: Change) returns (after: seq<Record>)
    requires c.addedNodes <= g.nodes.Keys
    ensures NumberedSetGraph(before, g, c, after) && IsSetGraph(before, g, c, after)
  {
    hide Survives, GraphCopies, EntityCopies, RelationCopies;
    var kept := Filter(before, r => Survives(c, r));
    FilterCounts(before, r => Survives(c, r));
    var chunks := GraphList(g, g.docs);
    var entities := EntityList(c.addedNodes);
    var relations := RelationList(g, c.addedEdges);
    after := kept + chunks + entities + relations;
    forall r ensures Count(after, r) == Left(before, c, r) + Copies(g, c, r) {
      CountOfParts(kept, chunks, entities, relations, r);
    }
    NumberedIsSetGraph(before, g, c, after);
  }

  lemma {:induction false} GraphList(g: Graph, docs: seq<string>) returns (chunks: seq<Record>)
    ensures forall r :: Count(chunks, r) == GraphCopies(g, docs, r)
    decreases |docs|
  {
    hide Count, SubgraphOf;
    if docs == [] {
      NoneCounted();
      CountOneMore([], GraphRecord(g));
      chunks := [] + [GraphRecord(g)];
    } else {
      var front, doc := docs[..|docs| - 1], docs[|docs| - 1];
      assert docs == front + [doc];
      var rest := GraphList(g, front);
      CountOneMore(rest, SubgraphRecord(doc, SubgraphOf(g, doc)));
      chunks := rest + [SubgraphRecord(doc, SubgraphOf(g, doc))];
    }
  }

  lemma {:induction false} EntityList(names: set<Name>) returns (chunks: seq<Record>)
    ensures forall r :: Count(chunks, r) == EntityCopies(names, r)
    decreases |names|
  {
    hide Count;
    if names == {} {
      NoneCounted();
      chunks := [];
    } else {
      var n :| n in names;
      var rest := EntityList(names - {n});
      CountOneMore(rest, EntityRecord(n));
      chunks := rest + [EntityRecord(n)];
    }
  }

  lemma {:induction false} RelationList(g: Graph, pairs: set<Edge>) returns (chunks: seq<Record>)
    ensures forall r :: Count(chunks, r) == RelationCopies(g, pairs, r)
    decreases |pairs|
  {
    hide Count, FromTo;
    if pairs == {} {
      NoneCounted();
      chunks := [];
    } else {
      var e :| e in pairs;
      chunks := RelationList(g, pairs - {e});
      if FromTo(e.0, e.1) in g.edges {
        CountOneMore(chunks, RelationRecord(e.0, e.1));
        chunks := chunks + [RelationRecord(e.0, e.1)];
      }
    }
  }

  function ChangeOf(change: GraphChange): Change
    reads change
  {
    Change(change.removedNodes, change.addedUpdatedNodes, change.removedEdges, change.addedUpdatedEdges)
  }

  // Merging a document's subgraph into the graph of its knowledge base, index included. `oldGraph` is
  // null before the first document; `pairs` is the subgraph's own listing of its edges.
  method MergeSubgraph(store: DocStore, oldGraph: EntityGraph?, sub: EntityGraph, pairs: set<Edge>) returns (g: EntityGraph)
    requires oldGraph != sub && ValidGraph(sub.View()) && Lists(pairs, sub.View())
    requires oldGraph != null ==> ValidGraph(oldGraph.View()) && Agrees(store.records, oldGraph.View())
    requires oldGraph == null ==> Agrees(store.records, EMPTY_GRAPH)
    modifies store, oldGraph
    ensures g == if oldGraph == null then sub else oldGraph
    ensures g.View() == if oldGraph == null then old(sub.View()) else Merged(old(oldGraph.View()), old(sub.View()))
    ensures ValidGraph(g.View()) && Agrees(store.records, g.View())
    ensures NumberedSetGraph(old(store.records), g.View(),
                             if oldGraph == null then FirstChange(old(sub.View()), pairs) else MergeChange(old(sub.View())), store.records)
  {
    hide Merged, Lists;
    ghost var before := store.records;
    var change := new GraphChange();
    if oldGraph != null {
      ghost var g1 := oldGraph.View();
      GraphMerge(oldGraph, sub, change);
      g := oldGraph;
      MergedIsValid(g1, sub.View());
      MergedKeys(g1, sub.View());
      assert ChangeOf(change) == MergeChange(sub.View());
      var ok := store.SetGraph(g.View(), ChangeOf(change));
      MergingKeepsAgreement(before, g1, sub.View(), store.records);
    } else {
      g := sub;
      change.addedUpdatedNodes := sub.nodes.Keys;
      change.addedUpdatedEdges := pairs;
      assert ChangeOf(change) == FirstChange(sub.View(), pairs);
      var ok := store.SetGraph(g.View(), ChangeOf(change));
      FirstGraphAgrees(before, g.View(), pairs, store.records);
    }
  }
}
