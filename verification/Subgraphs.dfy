/** Splitting an entity graph into one subgraph per document, and rebuilding it from the subgraphs that
    are left. */
module Subgraphs {
  import opened Common
  import opened Options
  import opened Graphs

  predicate Carries(g: Graph, n: Name, doc: string)
  {
    n in g.nodes && doc in g.nodes[n].sourceId
  }

  // The subgraph set_graph stores for one document: the nodes that carry it, the edges between them.
  function SubgraphOf(g: Graph, doc: string): Graph
  {
    Graph(map n | n in g.nodes && Carries(g, n, doc) :: g.nodes[n].(sourceId := [doc]),
          map e | e in g.edges && Carries(g, e.0, doc) && Carries(g, e.1, doc) :: g.edges[e],
          [doc])
  }

  function Split(g: Graph, docs: seq<string>): (r: seq<Stored>)
    ensures |r| == |docs| && forall i :: 0 <= i < |r| ==> r[i] == Stored([docs[i]], SubgraphOf(g, docs[i]))
  {
    seq(|docs|, i requires 0 <= i < |docs| => Stored([docs[i]], SubgraphOf(g, docs[i])))
  }

  /* ---------- rebuild_graph ---------- */

  datatype Stored = Stored(sources: seq<string>, graph: Graph)

  datatype Exclusion = NoExclusion | ExcludeOne(doc: string) | ExcludeList(docs: seq<string>)

  predicate Excluded(x: Exclusion, doc: string)
  {
    match x
    case NoExclusion => false
    case ExcludeOne(d) => d == doc
    case ExcludeList(docs) => doc in docs
  }

  predicate Skipped(x: Exclusion, sources: seq<string>)
  {
    exists s :: s in sources && Excluded(x, s)
  }

  // nx.compose, then the source ids of shared nodes are joined.
  function Compose(g: Graph, h: Graph): Graph
  {
    Graph(map n | n in g.nodes.Keys + h.nodes.Keys ::
            if n !in h.nodes then g.nodes[n]
            else if n in g.nodes then h.nodes[n].(sourceId := g.nodes[n].sourceId + h.nodes[n].sourceId)
            else h.nodes[n],
          g.edges + h.edges,
          g.docs + h.docs)
  }

  const EMPTY_GRAPH := Graph(map[], map[], [])

  function RebuildFrom(g: Graph, records: seq<Stored>, x: Exclusion): Graph
    decreases |records|
  {
    if records == [] then g
    else RebuildFrom(if Skipped(x, records[0].sources) then g else Compose(g, records[0].graph), records[1..], x)
  }

  const PAGE := 256
  const LIMIT := 1024 * 256

  lemma {:induction false} RebuildContinues(g: Graph, a: seq<Stored>, b: seq<Stored>, x: Exclusion)
    ensures RebuildFrom(g, a + b, x) == RebuildFrom(RebuildFrom(g, a, x), b, x)
    decreases |a|
  {
    hide Compose, Skipped;
    if a == [] {
      assert a + b == b;
    } else {
      assert (a + b)[1..] == a[1..] + b;
      RebuildContinues(if Skipped(x, a[0].sources) then g else Compose(g, a[0].graph), a[1..], b, x);
    }
  }

  method MergePage(g0: Graph, page: seq<Stored>, x: Exclusion) returns (g: Graph)
    ensures g == RebuildFrom(g0, page, x)
  {
    hide Compose, Skipped;
    g := g0;
    var j := 0;
    while j < |page|
      invariant j <= |page| && RebuildFrom(g, page[j..], x) == RebuildFrom(g0, page, x)
    {
      assert page[j..][1..] == page[j + 1..];
      if !Skipped(x, page[j].sources) {
        g := Compose(g, page[j].graph);
      }
      j := j + 1;
    }
  }

  // The store is read in pages of 256 until a page is empty, and at most 1024 pages are read.
  method RebuildGraph(records: seq<Stored>, x: Exclusion) returns (r: Option<Graph>)
    ensures var g := RebuildFrom(EMPTY_GRAPH, records[..Min(|records|, LIMIT)], x);
            r == if g.nodes.Keys == {} then None else Some(g)
    ensures |records| <= 262144 ==>
              var g := RebuildFrom(EMPTY_GRAPH, records, x);
              r == if g.nodes.Keys == {} then None else Some(g)
  {
    hide RebuildFrom;
    var g := EMPTY_GRAPH;
    var k := 0;
    assert g == RebuildFrom(EMPTY_GRAPH, records[..0], x) by { NothingRebuilt(g, x); assert records[..0] == []; }
    while k < 1024
      invariant k <= 1024 && g == RebuildFrom(EMPTY_GRAPH, records[..Min(|records|, k * PAGE)], x)
    {
      var from, to := Min(|records|, k * PAGE), Min(|records|, k * PAGE + PAGE);
      var page := records[from..to];
      if page == [] {
        assert from == |records| == Min(|records|, LIMIT);
        break;
      }
      assert records[..to] == records[..from] + page;
      RebuildContinues(EMPTY_GRAPH, records[..from], page, x);
      g := MergePage(g, page, x);
      k := k + 1;
    }
    r := if g.nodes.Keys == {} then None else Some(g);
    assert |records| <= 262144 ==> records[..Min(|records|, LIMIT)] == records;
  }

  lemma NothingRebuilt(g: Graph, x: Exclusion)
    ensures RebuildFrom(g, [], x) == g
  {
  }

  /* ---------- the round trip ---------- */

  // The documents of `docs` that node n carries, in the order of `docs`.
  function Carried(g: Graph, n: Name, docs: seq<string>): seq<string>
    requires n in g.nodes
  {
    if docs == [] then []
    else Carried(g, n, docs[..|docs| - 1]) + if Carries(g, n, docs[|docs| - 1]) then [docs[|docs| - 1]] else []
  }

  predicate Shared(g: Graph, e: Edge, docs: seq<string>)
  {
    exists d :: d in docs && Carries(g, e.0, d) && Carries(g, e.1, d)
  }

  // g with only the listed documents: nodes that carry one of them, with just those as their sources,
  // and edges whose ends share one of them.
  function Restricted(g: Graph, docs: seq<string>): Graph
  {
    Graph(map n | n in g.nodes && Carried(g, n, docs) != [] :: g.nodes[n].(sourceId := Carried(g, n, docs)),
          map e | e in g.edges && Shared(g, e, docs) :: g.edges[e],
          docs)
  }

  function Kept(docs: seq<string>, x: Exclusion): seq<string>
  {
    if docs == [] then []
    else (if Excluded(x, docs[0]) then [] else [docs[0]]) + Kept(docs[1..], x)
  }

  lemma {:induction false} CarriedMeans(g: Graph, n: Name, docs: seq<string>)
    requires n in g.nodes
    ensures forall d :: d in Carried(g, n, docs) <==> d in docs && Carries(g, n, d)
  {
    if docs != [] {
      CarriedMeans(g, n, docs[..|docs| - 1]);
      assert docs == docs[..|docs| - 1] + [docs[|docs| - 1]];
    }
  }

  lemma CarriedOneMore(g: Graph, n: Name, docs: seq<string>, doc: string)
    requires n in g.nodes
    ensures Carried(g, n, docs + [doc]) == if Carries(g, n, doc) then Carried(g, n, docs) + [doc] else Carried(g, n, docs)
  {
    hide Carries;
    var more := docs + [doc];
    assert more[..|more| - 1] == docs && more[|more| - 1] == doc;
  }

  lemma AddingNode(g: Graph, docs: seq<string>, doc: string, n: Name)
    ensures var c, r := Compose(Restricted(g, docs), SubgraphOf(g, doc)), Restricted(g, docs + [doc]);
            (n in c.nodes <==> n in r.nodes) && (n in c.nodes ==> c.nodes[n] == r.nodes[n])
  {
    hide Carries, Shared, Carried;
    if n in g.nodes {
      CarriedOneMore(g, n, docs, doc);
      assert [] + [doc] == [doc];
    }
  }

  lemma AddingNodes(g: Graph, docs: seq<string>, doc: string)
    ensures Compose(Restricted(g, docs), SubgraphOf(g, doc)).nodes == Restricted(g, docs + [doc]).nodes
  {
    hide Compose, Restricted, SubgraphOf;
    forall n
      ensures var c, r := Compose(Restricted(g, docs), SubgraphOf(g, doc)), Restricted(g, docs + [doc]);
              (n in c.nodes <==> n in r.nodes) && (n in c.nodes ==> c.nodes[n] == r.nodes[n])
    {
      AddingNode(g, docs, doc, n);
    }
  }

  lemma AddingEdges(g: Graph, docs: seq<string>, doc: string)
    ensures Compose(Restricted(g, docs), SubgraphOf(g, doc)).edges == Restricted(g, docs + [doc]).edges
  {
    hide Carries, Carried;
    assert forall d :: d in docs + [doc] <==> d in docs || d == doc;
    forall e ensures Shared(g, e, docs + [doc]) <==> Shared(g, e, docs) || (Carries(g, e.0, doc) && Carries(g, e.1, doc)) {
    }
  }

  lemma AddingOneDocument(g: Graph, docs: seq<string>, doc: string)
    ensures Compose(Restricted(g, docs), SubgraphOf(g, doc)) == Restricted(g, docs + [doc])
  {
    AddingNodes(g, docs, doc);
    AddingEdges(g, docs, doc);
    hide Carries, Carried, Shared;
  }

  lemma {:induction false} RebuildingRestricts(g: Graph, done: seq<string>, docs: seq<string>, x: Exclusion)
    ensures RebuildFrom(Restricted(g, done), Split(g, docs), x) == Restricted(g, done + Kept(docs, x))
    decreases |docs|
  {
    hide Compose, Restricted, SubgraphOf;
    if docs == [] {
      assert done + Kept(docs, x) == done;
    } else {
      var records := Split(g, docs);
      assert records[1..] == Split(g, docs[1..]);
      SkippedOne(x, docs[0]);
      if Excluded(x, docs[0]) {
        RebuildingRestricts(g, done, docs[1..], x);
        assert Kept(docs, x) == Kept(docs[1..], x);
      } else {
        AddingOneDocument(g, done, docs[0]);
        RebuildingRestricts(g, done + [docs[0]], docs[1..], x);
        assert done + Kept(docs, x) == done + [docs[0]] + Kept(docs[1..], x);
      }
    }
  }

  lemma SkippedOne(x: Exclusion, doc: string)
    ensures Skipped(x, [doc]) <==> Excluded(x, doc)
  {
    assert doc in [doc];
  }

  // Rebuilding the stored subgraphs of g, in whatever order the store lists them, gives back g
  // restricted to the documents that are listed and not excluded.
  lemma RebuildOfSplit(g: Graph, docs: seq<string>, x: Exclusion)
    ensures RebuildFrom(EMPTY_GRAPH, Split(g, docs), x) == Restricted(g, Kept(docs, x))
  {
    assert Restricted(g, []) == EMPTY_GRAPH;
    RebuildingRestricts(g, [], docs, x);
    assert [] + Kept(docs, x) == Kept(docs, x);
  }

  // Excluding documents is the same as never having listed them.
  lemma ExcludingIsForgetting(g: Graph, docs: seq<string>, x: Exclusion)
    ensures RebuildFrom(EMPTY_GRAPH, Split(g, docs), x) == RebuildFrom(EMPTY_GRAPH, Split(g, Kept(docs, x)), NoExclusion)
  {
    RebuildOfSplit(g, docs, x);
    RebuildOfSplit(g, Kept(docs, x), NoExclusion);
    KeptAll(Kept(docs, x));
  }

  lemma {:induction false} KeptAll(docs: seq<string>)
    ensures Kept(docs, NoExclusion) == docs
    decreases |docs|
  {
    if docs != [] {
      KeptAll(docs[1..]);
    }
  }

  // A listed document that is not excluded.
  ghost predicate IsKept(docs: seq<string>, x: Exclusion, d: string)
  {
    d in docs && (x.ExcludeOne? ==> d != x.doc) && (x.ExcludeList? ==> d !in x.docs)
  }

  lemma {:induction false} KeptMeans(docs: seq<string>, x: Exclusion)
    ensures forall d :: d in Kept(docs, x) <==> IsKept(docs, x, d)
    decreases |docs|
  {
    if docs != [] {
      KeptMeans(docs[1..], x);
      assert docs == [docs[0]] + docs[1..];
    }
  }

  // What survives: a node that carries a kept document, with exactly those as its sources; an edge whose ends share one;
  // all other attributes as they were.
  lemma WhatSurvives(g: Graph, docs: seq<string>, x: Exclusion)
    ensures var r := RebuildFrom(EMPTY_GRAPH, Split(g, docs), x);
            && (forall n :: n in r.nodes <==> n in g.nodes && exists d :: IsKept(docs, x, d) && d in g.nodes[n].sourceId)
            && (forall n, d :: n in r.nodes ==> (d in r.nodes[n].sourceId <==> IsKept(docs, x, d) && d in g.nodes[n].sourceId))
            && (forall n :: n in r.nodes ==> r.nodes[n] == g.nodes[n].(sourceId := r.nodes[n].sourceId))
            && (forall e :: e in r.edges <==> e in g.edges && SharesKept(g, docs, x, e))
            && (forall e :: e in r.edges ==> r.edges[e] == g.edges[e])
  {
    RebuildOfSplit(g, docs, x);
    var kept := Kept(docs, x);
    KeptMeans(docs, x);
    forall n | n in g.nodes
      ensures forall d :: d in Carried(g, n, kept) <==> d in kept && d in g.nodes[n].sourceId
      ensures Carried(g, n, kept) != [] <==> exists d :: d in kept && d in g.nodes[n].sourceId
    {
      CarriedMeans(g, n, kept);
      if Carried(g, n, kept) != [] {
        assert Carried(g, n, kept)[0] in Carried(g, n, kept);
      }
    }
    forall e ensures Shared(g, e, kept) <==> SharesKept(g, docs, x, e) {
      SharedMeans(g, docs, x, e);
    }
  }

  // The ends of the edge both carry some kept document.
  ghost predicate SharesKept(g: Graph, docs: seq<string>, x: Exclusion, e: Edge)
  {
    && e.0 in g.nodes && e.1 in g.nodes
    && exists d :: IsKept(docs, x, d) && d in g.nodes[e.0].sourceId && d in g.nodes[e.1].sourceId
  }

  lemma SharedMeans(g: Graph, docs: seq<string>, x: Exclusion, e: Edge)
    ensures Shared(g, e, Kept(docs, x)) <==> SharesKept(g, docs, x, e)
  {
    KeptMeans(docs, x);
  }
}
