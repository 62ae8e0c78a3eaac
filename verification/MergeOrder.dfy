/** The order in which graphs are merged does not matter: names, edges, summed weights, the bags of
    source ids and the ranks come out the same. (Descriptions are joined in merge order and do differ.) */
module MergeOrder {
  import opened Graphs

  // The order-free content of a graph: what every node and edge has collected.
  datatype Totals = Totals(
    nodeSources: map<Name, multiset<string>>,
    edges: map<Edge, Tally>,
    docs: multiset<string>)

  datatype Tally = Tally(weight: real, keywords: multiset<string>, sources: multiset<string>)

  function Count(a: EdgeAttr): Tally
  {
    Tally(a.weight, multiset(a.keywords), multiset(a.sourceId))
  }

  function Summary(g: Graph): Totals
  {
    Totals(NodeSources(g.nodes), Tallies(g.edges), multiset(g.docs))
  }

  function Mapped<K, A, B>(entries: map<K, A>, f: A -> B): map<K, B>
  {
    map k | k in entries :: f(entries[k])
  }

  function Sources(a: NodeAttr): multiset<string>
  {
    multiset(a.sourceId)
  }

  function NodeSources(nodes: map<Name, NodeAttr>): map<Name, multiset<string>>
  {
    Mapped(nodes, Sources)
  }

  function Tallies(edges: map<Edge, EdgeAttr>): map<Edge, Tally>
  {
    Mapped(edges, Count)
  }

  function AddTally(a: Tally, b: Tally): Tally
  {
    Tally(a.weight + b.weight, a.keywords + b.keywords, a.sources + b.sources)
  }

  function Pool<K, A>(a: map<K, A>, b: map<K, A>, add: (A, A) -> A): map<K, A>
  {
    map k | k in a.Keys + b.Keys :: if k !in b then a[k] else if k in a then add(a[k], b[k]) else b[k]
  }

  function AddBags(a: multiset<string>, b: multiset<string>): multiset<string> { a + b }

  function Add(a: Totals, b: Totals): Totals
  {
    Totals(Pool(a.nodeSources, b.nodeSources, AddBags),
           Pool(a.edges, b.edges, AddTally),
           a.docs + b.docs)
  }

  const NOTHING := Totals(map[], map[], multiset{})

  // Merging entries and then reading them is reading them and then adding.
  lemma OverlayPools<K, A, B>(left: map<K, A>, right: map<K, A>, merge: (A, A) -> A, f: A -> B, add: (B, B) -> B)
    requires forall k :: k in left && k in right ==> f(merge(left[k], right[k])) == add(f(left[k]), f(right[k]))
    ensures Mapped(Overlay(left, right, right.Keys, merge), f) == Pool(Mapped(left, f), Mapped(right, f), add)
  {
  }

  lemma RankingKeepsSources(nodes: map<Name, NodeAttr>, edges: set<Edge>)
    ensures NodeSources(Ranked(nodes, edges)) == NodeSources(nodes)
  {
    hide Degree;
  }

  lemma NodeSourcesAdd(a: map<Name, NodeAttr>, b: map<Name, NodeAttr>, edges: set<Edge>)
    ensures NodeSources(Ranked(Overlay(a, b, b.Keys, MergedNode), edges)) == Pool(NodeSources(a), NodeSources(b), AddBags)
  {
    hide Degree, Ranked, Overlay, Pool, Mapped;
    RankingKeepsSources(Overlay(a, b, b.Keys, MergedNode), edges);
    OverlayPools(a, b, MergedNode, Sources, AddBags);
  }

  lemma TalliesAdd(a: map<Edge, EdgeAttr>, b: map<Edge, EdgeAttr>)
    ensures Tallies(Overlay(a, b, b.Keys, MergedEdge)) == Pool(Tallies(a), Tallies(b), AddTally)
  {
    hide Overlay, Pool, Mapped;
    OverlayPools(a, b, MergedEdge, Count, AddTally);
  }

  // Merging adds the totals, so the summary of a merge depends only on the summaries.
  lemma MergeAdds(g1: Graph, g2: Graph)
    ensures Summary(Merged(g1, g2)) == Add(Summary(g1), Summary(g2))
  {
    hide Overlay, Ranked, NodeSources, Tallies, Pool;
    TalliesAdd(g1.edges, g2.edges);
    NodeSourcesAdd(g1.nodes, g2.nodes, Overlay(g1.edges, g2.edges, g2.edges.Keys, MergedEdge).Keys);
  }

  lemma PoolIsCommutative<K, A>(a: map<K, A>, b: map<K, A>, add: (A, A) -> A)
    requires forall k :: k in a && k in b ==> add(a[k], b[k]) == add(b[k], a[k])
    ensures Pool(a, b, add) == Pool(b, a, add)
  {
  }

  lemma PoolIsAssociative<K, A>(a: map<K, A>, b: map<K, A>, c: map<K, A>, add: (A, A) -> A)
    requires forall k :: k in a && k in b && k in c ==> add(add(a[k], b[k]), c[k]) == add(a[k], add(b[k], c[k]))
    ensures Pool(Pool(a, b, add), c, add) == Pool(a, Pool(b, c, add), add)
  {
  }

  lemma BagLaws(a: multiset<string>, b: multiset<string>, c: multiset<string>)
    ensures AddBags(a, b) == AddBags(b, a) && AddBags(AddBags(a, b), c) == AddBags(a, AddBags(b, c))
  {
  }

  lemma TallyLaws(a: Tally, b: Tally, c: Tally)
    ensures AddTally(a, b) == AddTally(b, a) && AddTally(AddTally(a, b), c) == AddTally(a, AddTally(b, c))
  {
  }

  lemma AddIsCommutative(a: Totals, b: Totals)
    ensures Add(a, b) == Add(b, a)
  {
    hide Pool, AddBags, AddTally;
    forall n | n in a.nodeSources && n in b.nodeSources
      ensures AddBags(a.nodeSources[n], b.nodeSources[n]) == AddBags(b.nodeSources[n], a.nodeSources[n])
    {
      BagLaws(a.nodeSources[n], b.nodeSources[n], multiset{});
    }
    forall e | e in a.edges && e in b.edges ensures AddTally(a.edges[e], b.edges[e]) == AddTally(b.edges[e], a.edges[e]) {
      TallyLaws(a.edges[e], b.edges[e], a.edges[e]);
    }
    PoolIsCommutative(a.nodeSources, b.nodeSources, AddBags);
    PoolIsCommutative(a.edges, b.edges, AddTally);
    assert a.docs + b.docs == b.docs + a.docs;
  }

  lemma AddIsAssociative(a: Totals, b: Totals, c: Totals)
    ensures Add(Add(a, b), c) == Add(a, Add(b, c))
  {
    hide Pool, AddBags, AddTally;
    forall n | n in a.nodeSources && n in b.nodeSources && n in c.nodeSources
      ensures AddBags(AddBags(a.nodeSources[n], b.nodeSources[n]), c.nodeSources[n])
           == AddBags(a.nodeSources[n], AddBags(b.nodeSources[n], c.nodeSources[n]))
    {
      BagLaws(a.nodeSources[n], b.nodeSources[n], c.nodeSources[n]);
    }
    forall e | e in a.edges && e in b.edges && e in c.edges
      ensures AddTally(AddTally(a.edges[e], b.edges[e]), c.edges[e]) == AddTally(a.edges[e], AddTally(b.edges[e], c.edges[e]))
    {
      TallyLaws(a.edges[e], b.edges[e], c.edges[e]);
    }
    PoolIsAssociative(a.nodeSources, b.nodeSources, c.nodeSources, AddBags);
    PoolIsAssociative(a.edges, b.edges, c.edges, AddTally);
    assert a.docs + b.docs + c.docs == a.docs + (b.docs + c.docs);
  }

  lemma NothingIsNeutral(a: Totals)
    ensures Add(NOTHING, a) == a
  {
  }

  function AddAll(start: Totals, ts: seq<Totals>): Totals
    decreases |ts|
  {
    if ts == [] then start else AddAll(Add(start, ts[0]), ts[1..])
  }

  lemma {:induction false} TakeFirst(start: Totals, ts: seq<Totals>, i: nat)
    requires i < |ts|
    ensures AddAll(start, ts) == AddAll(Add(start, ts[i]), ts[..i] + ts[i + 1..])
    decreases i
  {
    hide Add;
    if i == 0 {
      assert ts[..0] + ts[1..] == ts[1..];
    } else {
      var rest := ts[..i] + ts[i + 1..];
      TakeFirst(Add(start, ts[0]), ts[1..], i - 1);
      assert ts[1..][..i - 1] + ts[1..][i..] == rest[1..];
      AddIsAssociative(start, ts[0], ts[i]);
      AddIsAssociative(start, ts[i], ts[0]);
      AddIsCommutative(ts[0], ts[i]);
    }
  }

  lemma WithoutOne<T>(s: seq<T>, i: nat)
    requires i < |s|
    ensures multiset(s[..i] + s[i + 1..]) == multiset(s) - multiset{s[i]}
  {
    assert s == s[..i] + [s[i]] + s[i + 1..];
  }

  // The first element of a sequence in a reordering of it, and what is left of both.
  lemma FindFirst<T>(s: seq<T>, t: seq<T>) returns (i: nat)
    requires s != [] && multiset(s) == multiset(t)
    ensures i < |t| && t[i] == s[0] && multiset(s[1..]) == multiset(t[..i] + t[i + 1..])
  {
    assert multiset(s)[s[0]] > 0;
    i :| 0 <= i < |t| && t[i] == s[0];
    assert s == [s[0]] + s[1..];
    assert multiset(s[1..]) == multiset(s) - multiset{s[0]};
    WithoutOne(t, i);
  }

  lemma {:induction false} AnyOrderAdds(start: Totals, ts: seq<Totals>, us: seq<Totals>)
    requires multiset(ts) == multiset(us)
    ensures AddAll(start, ts) == AddAll(start, us)
    decreases |ts|
  {
    hide Add;
    if ts == [] {
      assert |multiset(us)| == 0;
    } else {
      var i := FindFirst(ts, us);
      TakeFirst(start, us, i);
      AnyOrderAdds(Add(start, ts[0]), ts[1..], us[..i] + us[i + 1..]);
    }
  }

  /* ---------- merging a list of graphs ---------- */

  function MergeInto(g: Graph, gs: seq<Graph>): Graph
    decreases |gs|
  {
    if gs == [] then g else MergeInto(Merged(g, gs[0]), gs[1..])
  }

  lemma {:induction false} MergeIntoLast(g: Graph, gs: seq<Graph>, more: Graph)
    ensures MergeInto(g, gs + [more]) == Merged(MergeInto(g, gs), more)
    decreases |gs|
  {
    hide Merged;
    if gs == [] {
      assert gs + [more] == [more];
      assert MergeInto(Merged(g, more), [more][1..]) == Merged(g, more);
    } else {
      MergeIntoLast(Merged(g, gs[0]), gs[1..], more);
      assert (gs + [more])[0] == gs[0] && (gs + [more])[1..] == gs[1..] + [more];
    }
  }

  // The first graph is taken as it is and the others are merged into it in turn.
  function MergeList(gs: seq<Graph>): Graph
    requires gs != []
  {
    MergeInto(gs[0], gs[1..])
  }

  function Summaries(gs: seq<Graph>): seq<Totals>
  {
    if gs == [] then [] else [Summary(gs[0])] + Summaries(gs[1..])
  }

  lemma {:induction false} MergeIntoAdds(g: Graph, gs: seq<Graph>)
    ensures Summary(MergeInto(g, gs)) == AddAll(Summary(g), Summaries(gs))
    decreases |gs|
  {
    hide Summary, Merged, Add;
    if gs != [] {
      MergeAdds(g, gs[0]);
      MergeIntoAdds(Merged(g, gs[0]), gs[1..]);
    }
  }

  lemma {:induction false} SummariesCount(gs: seq<Graph>, i: nat)
    requires i < |gs|
    ensures multiset(Summaries(gs)) == multiset{Summary(gs[i])} + multiset(Summaries(gs[..i] + gs[i + 1..]))
    decreases i
  {
    hide Summary;
    if i == 0 {
      assert gs[..0] + gs[1..] == gs[1..];
    } else {
      var rest := gs[..i] + gs[i + 1..];
      SummariesCount(gs[1..], i - 1);
      assert gs[1..][..i - 1] + gs[1..][i..] == rest[1..];
      assert gs[1..][i - 1] == gs[i];
    }
  }

  lemma {:induction false} SummariesOfReordering(gs: seq<Graph>, hs: seq<Graph>)
    requires multiset(gs) == multiset(hs)
    ensures multiset(Summaries(gs)) == multiset(Summaries(hs))
    decreases |gs|
  {
    hide Summary;
    if gs == [] {
      assert |multiset(hs)| == 0;
    } else {
      var i := FindFirst(gs, hs);
      SummariesOfReordering(gs[1..], hs[..i] + hs[i + 1..]);
      SummariesCount(hs, i);
    }
  }

  lemma {:induction false} MergedRanks(g: Graph, gs: seq<Graph>)
    requires gs != []
    ensures var m := MergeInto(g, gs); forall n :: n in m.nodes ==> m.nodes[n].rank == Degree(m.edges.Keys, n)
    decreases |gs|
  {
    hide Degree;
    var m := Merged(g, gs[0]);
    if |gs| == 1 {
      assert MergeInto(m, gs[1..]) == m;
    } else {
      hide Merged;
      assert MergeInto(g, gs) == MergeInto(m, gs[1..]);
      MergedRanks(m, gs[1..]);
    }
  }

  // Whatever the order: the same nodes and edges, with the same bags of source ids and keywords, the
  // same summed weights and the same ranks, each rank being the degree.
  lemma MergeOrderIsIrrelevant(gs: seq<Graph>, hs: seq<Graph>)
    requires |gs| >= 2 && multiset(gs) == multiset(hs)
    ensures hs != []
    ensures var g, h := MergeList(gs), MergeList(hs);
            && Summary(g) == Summary(h)
            && g.nodes.Keys == h.nodes.Keys && g.edges.Keys == h.edges.Keys
            && (forall n :: n in g.nodes ==> g.nodes[n].rank == h.nodes[n].rank == Degree(g.edges.Keys, n))
  {
    hide Degree, Merged, Add;
    assert |multiset(gs)| == |gs| && |multiset(hs)| == |hs|;
    SummariesOfReordering(gs, hs);
    AnyOrderAdds(NOTHING, Summaries(gs), Summaries(hs));
    NothingIsNeutral(Summary(gs[0]));
    NothingIsNeutral(Summary(hs[0]));
    MergeIntoAdds(gs[0], gs[1..]);
    MergeIntoAdds(hs[0], hs[1..]);
    MergedRanks(gs[0], gs[1..]);
    MergedRanks(hs[0], hs[1..]);
    SummaryHasKeys(MergeList(gs));
    SummaryHasKeys(MergeList(hs));
  }

  lemma SummaryHasKeys(g: Graph)
    ensures Summary(g).nodeSources.Keys == g.nodes.Keys && Summary(g).edges.Keys == g.edges.Keys
  {
  }
}
