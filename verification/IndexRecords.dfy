/** How many records the index holds of each name, over the life of a knowledge base: the first graph is
    indexed with its edges as it lists them, and every later subgraph is merged into it. */
module IndexRecords {
  import opened Graphs
  import opened GraphIndex
  import opened Subgraphs
  import C = ClusterMerge
  import M = MergeOrder

  /* ---------- the order of a pair ---------- */

  ghost predicate NormalRecords(records: seq<Record>)
  {
    forall a, b :: RelationRecord(a, b) in records ==> Normal((a, b))
  }

  // One edge on record under both orders of its names.
  predicate BothOrders(records: seq<Record>, a: Name, b: Name)
  {
    a != b && RelationRecord(a, b) in records && RelationRecord(b, a) in records
  }

  ghost predicate OneOrderEach(records: seq<Record>)
  {
    forall a, b :: !BothOrders(records, a, b)
  }

  lemma RelationsAfterMerge(before: seq<Record>, g1: Graph, g2: Graph, after: seq<Record>, a: Name, b: Name)
    requires ValidGraph(g2) && IsSetGraph(before, Merged(g1, g2), MergeChange(g2), after)
    ensures RelationRecord(a, b) in after <==> RelationRecord(a, b) in before || (a, b) in g2.edges
  {
    hide Merged, FromTo;
    MergedKeys(g1, g2);
    assert Survives(MergeChange(g2), RelationRecord(a, b));
    assert (a, b) in g2.edges ==> Normal((a, b));
  }

  // Merging writes relations in their normal order only, so an index that has them so keeps them so.
  lemma MergeKeepsNormal(before: seq<Record>, g1: Graph, g2: Graph, after: seq<Record>)
    requires ValidGraph(g2) && IsSetGraph(before, Merged(g1, g2), MergeChange(g2), after)
    ensures NormalRecords(after) <==> NormalRecords(before)
    ensures NormalRecords(before) ==> OneOrderEach(after)
  {
    hide FromTo, IsSetGraph, Merged;
    forall a, b ensures RelationRecord(a, b) in after <==> RelationRecord(a, b) in before || (a, b) in g2.edges {
      RelationsAfterMerge(before, g1, g2, after, a, b);
    }
    forall a, b ensures Normal((a, b)) && Normal((b, a)) ==> a == b {
      FromToIsUnordered(a, b, b, a);
    }
  }

  // Both orders are on record after a merge exactly when the reversed one was there before, and the normal
  // one was there too or comes with the merged subgraph.
  lemma BothOrdersAfterMerge(before: seq<Record>, g1: Graph, g2: Graph, after: seq<Record>, a: Name, b: Name)
    requires ValidGraph(g2) && IsSetGraph(before, Merged(g1, g2), MergeChange(g2), after) && a != b && Normal((a, b))
    ensures BothOrders(after, a, b) <==> RelationRecord(b, a) in before && (RelationRecord(a, b) in before || (a, b) in g2.edges)
  {
    RelationsAfterMerge(before, g1, g2, after, a, b);
    RelationsAfterMerge(before, g1, g2, after, b, a);
    FromToIsUnordered(a, b, b, a);
    assert (b, a) in g2.edges ==> Normal((b, a));
  }

  /* ---------- counting over a whole history ---------- */

  // How many of the sets have x.
  function Times<T(==)>(sets: seq<set<T>>, x: T): nat
  {
    if sets == [] then 0 else Times(sets[..|sets| - 1], x) + if x in sets[|sets| - 1] then 1 else 0
  }

  lemma TimesOneMore<T>(sets: seq<set<T>>, more: set<T>, x: T)
    ensures Times(sets + [more], x) == Times(sets, x) + if x in more then 1 else 0
  {
    assert (sets + [more])[..|sets|] == sets;
  }

  lemma {:induction false} TimesMeans<T>(sets: seq<set<T>>, x: T)
    ensures Times(sets, x) >= 1 <==> exists i :: 0 <= i < |sets| && x in sets[i]
    ensures Times(sets, x) >= 2 <==> exists i, j :: 0 <= i < j < |sets| && x in sets[i] && x in sets[j]
  {
    if sets != [] {
      var front, last := sets[..|sets| - 1], |sets| - 1;
      TimesMeans(front, x);
      if i :| 0 <= i < last && x in front[i] {
        assert x in sets[i];
      }
      if i, j :| 0 <= i < j < last && x in front[i] && x in front[j] {
        assert x in sets[i] && x in sets[j];
      }
      if i, j :| 0 <= i < j < |sets| && x in sets[i] && x in sets[j] {
        assert x in front[i] && (j < last ==> x in front[j]);
      }
      if i :| 0 <= i < last && x in sets[i] {
        assert x in front[i];
      }
    }
  }

  ghost predicate PairwiseDisjoint<T>(sets: seq<set<T>>)
  {
    forall i, j :: 0 <= i < j < |sets| ==> sets[i] !! sets[j]
  }

  lemma DisjointAt<T>(sets: seq<set<T>>, x: T)
    requires PairwiseDisjoint(sets)
    ensures Times(sets, x) <= 1
  {
    hide Times;
    TimesMeans(sets, x);
  }

  lemma SharedBy<T>(sets: seq<set<T>>) returns (x: T)
    requires !PairwiseDisjoint(sets)
    ensures Times(sets, x) > 1
  {
    hide Times;
    var i, j :| 0 <= i < j < |sets| && !(sets[i] !! sets[j]);
    x :| x in sets[i] && x in sets[j];
    TimesMeans(sets, x);
  }

  function NodeSets(gs: seq<Graph>): seq<set<Name>> { seq(|gs|, i requires 0 <= i < |gs| => gs[i].nodes.Keys) }

  function EdgeSets(gs: seq<Graph>): seq<set<Edge>> { seq(|gs|, i requires 0 <= i < |gs| => gs[i].edges.Keys) }

  // The index before anything, after the first graph, and after each merge.
  ghost predicate IsHistory(first: Graph, pairs: set<Edge>, later: seq<Graph>, stores: seq<seq<Record>>)
  {
    && |stores| == |later| + 2 && Agrees(stores[0], EMPTY_GRAPH)
    && NumberedSetGraph(stores[0], first, FirstChange(first, pairs), stores[1])
    && forall k :: 0 <= k < |later| ==> MergedAt(first, later, stores, k)
  }

  ghost predicate MergedAt(first: Graph, later: seq<Graph>, stores: seq<seq<Record>>, k: nat)
    requires k < |later| && k + 2 < |stores|
  {
    NumberedSetGraph(stores[k + 1], Merged(M.MergeInto(first, later[..k]), later[k]), MergeChange(later[k]), stores[k + 2])
  }

  // A listing of a graph's edges, each once, its names in either order.
  ghost predicate Listing(pairs: set<Edge>, g: Graph)
  {
    Lists(pairs, g) && forall e :: e in pairs && e.0 != e.1 ==> (e.1, e.0) !in pairs
  }

  ghost predicate Merging(first: Graph, pairs: set<Edge>, later: seq<Graph>)
  {
    ValidGraph(first) && Listing(pairs, first) && forall k :: 0 <= k < |later| ==> ValidGraph(later[k])
  }

  function Once(b: bool): nat { if b then 1 else 0 }

  lemma NumbersAtFirst(first: Graph, pairs: set<Edge>, later: seq<Graph>, stores: seq<seq<Record>>)
    requires Merging(first, pairs, later) && IsHistory(first, pairs, later, stores)
    ensures forall n :: Count(stores[1], EntityRecord(n)) == Once(n in first.nodes)
    ensures forall a, b :: Count(stores[1], RelationRecord(a, b)) == Once((a, b) in pairs)
  {
    hide FromTo;
    var c := FirstChange(first, pairs);
    forall n ensures Count(stores[1], EntityRecord(n)) == Once(n in first.nodes) {
      assert EntityRecord(n) in stores[0] <==> n in EMPTY_GRAPH.nodes;
      assert Count(stores[1], EntityRecord(n)) == Left(stores[0], c, EntityRecord(n)) + Copies(first, c, EntityRecord(n));
    }
    forall a, b ensures Count(stores[1], RelationRecord(a, b)) == Once((a, b) in pairs) {
      assert RelationRecord(a, b) in stores[0] ==> FromTo(a, b) in EMPTY_GRAPH.edges;
      assert Count(stores[1], RelationRecord(a, b)) == Left(stores[0], c, RelationRecord(a, b)) + Copies(first, c, RelationRecord(a, b));
    }
  }

  lemma NumbersAfterMerge(before: seq<Record>, g1: Graph, g2: Graph, after: seq<Record>)
    requires ValidGraph(g2) && NumberedSetGraph(before, Merged(g1, g2), MergeChange(g2), after)
    ensures forall n :: Count(after, EntityRecord(n)) == Count(before, EntityRecord(n)) + Once(n in g2.nodes)
    ensures forall a, b :: Count(after, RelationRecord(a, b)) == Count(before, RelationRecord(a, b)) + Once((a, b) in g2.edges)
  {
    hide Merged, FromTo;
    MergedKeys(g1, g2);
    var g, c := Merged(g1, g2), MergeChange(g2);
    forall n ensures Count(after, EntityRecord(n)) == Count(before, EntityRecord(n)) + Once(n in g2.nodes) {
      assert Count(after, EntityRecord(n)) == Left(before, c, EntityRecord(n)) + Copies(g, c, EntityRecord(n));
    }
    forall a, b ensures Count(after, RelationRecord(a, b)) == Count(before, RelationRecord(a, b)) + Once((a, b) in g2.edges) {
      assert (a, b) in g2.edges ==> Normal((a, b));
      assert Count(after, RelationRecord(a, b)) == Left(before, c, RelationRecord(a, b)) + Copies(g, c, RelationRecord(a, b));
    }
  }

  // The index holds a node once for every graph that brought it, and a pair once for the listing of the first
  // graph and once for every later graph that has it as an edge.
  lemma {:induction false} NumbersOfHistory(first: Graph, pairs: set<Edge>, later: seq<Graph>, stores: seq<seq<Record>>, k: nat)
    requires Merging(first, pairs, later) && IsHistory(first, pairs, later, stores) && k <= |later|
    ensures forall n :: Count(stores[k + 1], EntityRecord(n)) == Times(NodeSets([first] + later[..k]), n)
    ensures forall a, b :: Count(stores[k + 1], RelationRecord(a, b)) == Once((a, b) in pairs) + Times(EdgeSets(later[..k]), (a, b))
    decreases k
  {
    hide Count, NumberedSetGraph, Merged, ValidGraph, Listing;
    if k == 0 {
      NumbersAtFirst(first, pairs, later, stores);
      assert NodeSets([first] + later[..0]) == [] + [first.nodes.Keys];
      forall n ensures Times(NodeSets([first] + later[..0]), n) == Once(n in first.nodes) {
        TimesOneMore([], first.nodes.Keys, n);
      }
    } else {
      NumbersOfHistory(first, pairs, later, stores, k - 1);
      assert MergedAt(first, later, stores, k - 1);
      var g := later[k - 1];
      NumbersAfterMerge(stores[k], M.MergeInto(first, later[..k - 1]), g, stores[k + 1]);
      assert NodeSets([first] + later[..k]) == NodeSets([first] + later[..k - 1]) + [g.nodes.Keys];
      assert EdgeSets(later[..k]) == EdgeSets(later[..k - 1]) + [g.edges.Keys];
      forall n ensures Count(stores[k + 1], EntityRecord(n)) == Times(NodeSets([first] + later[..k]), n) {
        TimesOneMore(NodeSets([first] + later[..k - 1]), g.nodes.Keys, n);
      }
      forall a, b
        ensures Count(stores[k + 1], RelationRecord(a, b)) == Once((a, b) in pairs) + Times(EdgeSets(later[..k]), (a, b))
      {
        TimesOneMore(EdgeSets(later[..k - 1]), g.edges.Keys, (a, b));
      }
    }
  }

  ghost predicate OneRecordPerName(records: seq<Record>)
  {
    forall n :: Count(records, EntityRecord(n)) <= 1
  }

  // After any number of merges no node has two records if and only if no two of the graphs share a node.
  lemma OneRecordPerNode(first: Graph, pairs: set<Edge>, later: seq<Graph>, stores: seq<seq<Record>>)
    requires Merging(first, pairs, later) && IsHistory(first, pairs, later, stores)
    ensures OneRecordPerName(stores[|later| + 1]) <==> PairwiseDisjoint(NodeSets([first] + later))
  {
    assert |stores| == |later| + 2;
    hide Count, NumberedSetGraph, Merging, IsHistory;
    var after := stores[|later| + 1];
    NumbersOfHistory(first, pairs, later, stores, |later|);
    assert later[..|later|] == later;
    var sets := NodeSets([first] + later);
    if PairwiseDisjoint(sets) {
      forall n ensures Count(after, EntityRecord(n)) <= 1 {
        DisjointAt(sets, n);
      }
    } else {
      var n := SharedBy(sets);
      assert Count(after, EntityRecord(n)) > 1;
    }
  }

  // The records of an edge, in whatever order of its names.
  function RecordsOf(records: seq<Record>, e: Edge): nat
  {
    Count(records, RelationRecord(e.0, e.1)) + if e.0 == e.1 then 0 else Count(records, RelationRecord(e.1, e.0))
  }

  lemma {:induction false} OnlyNormal(gs: seq<Graph>, e: Edge)
    requires (forall k :: 0 <= k < |gs| ==> ValidGraph(gs[k])) && !Normal(e)
    ensures Times(EdgeSets(gs), e) == 0
  {
    if gs != [] {
      var front, g := gs[..|gs| - 1], gs[|gs| - 1];
      OnlyNormal(front, e);
      assert EdgeSets(gs) == EdgeSets(front) + [g.edges.Keys];
      TimesOneMore(EdgeSets(front), g.edges.Keys, e);
    }
  }

  lemma ListedOnce(pairs: set<Edge>, g: Graph, e: Edge)
    requires ValidGraph(g) && Listing(pairs, g) && Normal(e)
    ensures Once(e in pairs) + (if e.0 == e.1 then 0 else Once((e.1, e.0) in pairs)) == Once(e in g.edges)
  {
    FromToIsUnordered(e.0, e.1, e.1, e.0);
    hide FromTo;
    assert e == (e.0, e.1);
  }

  lemma {:induction false} TimesFirst<T>(first: set<T>, sets: seq<set<T>>, x: T)
    ensures Times([first] + sets, x) == Once(x in first) + Times(sets, x)
    decreases |sets|
  {
    if sets == [] {
      assert [first] + sets == [] + [first];
      TimesOneMore([], first, x);
    } else {
      var front, last := sets[..|sets| - 1], sets[|sets| - 1];
      TimesFirst(first, front, x);
      assert [first] + sets == [first] + front + [last];
      TimesOneMore([first] + front, last, x);
    }
  }

  // The index holds an edge once for every graph that has it.
  lemma RecordsOfEdge(first: Graph, pairs: set<Edge>, later: seq<Graph>, stores: seq<seq<Record>>, e: Edge)
    requires Merging(first, pairs, later) && IsHistory(first, pairs, later, stores) && Normal(e)
    ensures RecordsOf(stores[|later| + 1], e) == Times(EdgeSets([first] + later), e)
  {
    hide Count, NumberedSetGraph, IsHistory, Times, ValidGraph, Listing, FromTo;
    NumbersOfHistory(first, pairs, later, stores, |later|);
    assert later[..|later|] == later;
    ListedOnce(pairs, first, e);
    if e.0 != e.1 {
      FromToIsUnordered(e.0, e.1, e.1, e.0);
      OnlyNormal(later, (e.1, e.0));
    }
    assert EdgeSets([first] + later) == [first.edges.Keys] + EdgeSets(later);
    TimesFirst(first.edges.Keys, EdgeSets(later), e);
    assert e == (e.0, e.1);
  }

  ghost predicate OneRecordPerPair(records: seq<Record>)
  {
    forall e :: Normal(e) ==> RecordsOf(records, e) <= 1
  }

  // After any number of merges no edge has two records if and only if no two of the graphs share an edge.
  lemma OneRecordPerEdge(first: Graph, pairs: set<Edge>, later: seq<Graph>, stores: seq<seq<Record>>)
    requires Merging(first, pairs, later) && IsHistory(first, pairs, later, stores)
    ensures OneRecordPerPair(stores[|later| + 1]) <==> PairwiseDisjoint(EdgeSets([first] + later))
  {
    assert |stores| == |later| + 2;
    hide RecordsOf, IsHistory, FromTo;
    var gs := [first] + later;
    if PairwiseDisjoint(EdgeSets(gs)) {
      forall e | Normal(e) ensures RecordsOf(stores[|later| + 1], e) <= 1 {
        RecordsOfEdge(first, pairs, later, stores, e);
        DisjointAt(EdgeSets(gs), e);
      }
    } else {
      var e := SharedBy(EdgeSets(gs));
      if Normal(e) {
        RecordsOfEdge(first, pairs, later, stores, e);
      } else {
        OnlyNormal(gs, e);
      }
    }
  }

  // No edge of a later graph is one that the first graph listed the other way round.
  ghost predicate NoneReversed(pairs: set<Edge>, later: seq<Graph>)
  {
    forall k, e :: 0 <= k < |later| && e in later[k].edges && e.0 != e.1 ==> (e.1, e.0) !in pairs
  }

  // After any number of merges no edge is on record under both orders if and only if no edge of a later graph was
  // listed the other way round by the first.
  lemma OneOrderPerEdge(first: Graph, pairs: set<Edge>, later: seq<Graph>, stores: seq<seq<Record>>)
    requires Merging(first, pairs, later) && IsHistory(first, pairs, later, stores)
    ensures OneOrderEach(stores[|later| + 1]) <==> NoneReversed(pairs, later)
  {
    assert |stores| == |later| + 2;
    hide NumberedSetGraph, IsHistory, Times, FromTo, Count, Listing;
    var after := stores[|later| + 1];
    NumbersOfHistory(first, pairs, later, stores, |later|);
    assert later[..|later|] == later;
    forall a, b ensures RelationRecord(a, b) in after <==> Written(pairs, later, a, b) {
      WrittenTimes(pairs, later, a, b);
      InCount(after, RelationRecord(a, b));
    }
    if a, b :| BothOrders(after, a, b) {
      ReversedOf(pairs, first, later, a, b);
    }
    if k, e :| 0 <= k < |later| && e in later[k].edges && e.0 != e.1 && (e.1, e.0) in pairs {
      assert e == (e.0, e.1);
      assert BothOrders(after, e.0, e.1);
    }
  }

  ghost predicate Written(pairs: set<Edge>, later: seq<Graph>, a: Name, b: Name)
  {
    (a, b) in pairs || exists k :: 0 <= k < |later| && (a, b) in later[k].edges
  }

  lemma WrittenTimes(pairs: set<Edge>, later: seq<Graph>, a: Name, b: Name)
    ensures Written(pairs, later, a, b) <==> Once((a, b) in pairs) + Times(EdgeSets(later), (a, b)) > 0
  {
    hide Times;
    TimesMeans(EdgeSets(later), (a, b));
    if k :| 0 <= k < |later| && (a, b) in later[k].edges {
      assert (a, b) in EdgeSets(later)[k];
    }
    if k :| 0 <= k < |later| && (a, b) in EdgeSets(later)[k] {
      assert (a, b) in later[k].edges;
    }
  }

  lemma InCount(records: seq<Record>, r: Record)
    ensures r in records <==> Count(records, r) > 0
  {
  }

  lemma ReversedOf(pairs: set<Edge>, first: Graph, later: seq<Graph>, a: Name, b: Name)
    requires Merging(first, pairs, later) && a != b
    requires Written(pairs, later, a, b) && Written(pairs, later, b, a)
    ensures !NoneReversed(pairs, later)
  {
    FromToIsUnordered(a, b, b, a);
    hide FromTo;
    if (a, b) in pairs {
      var k :| 0 <= k < |later| && (b, a) in later[k].edges;
    } else {
      var k :| 0 <= k < |later| && (a, b) in later[k].edges;
      assert Normal((a, b));
      assert (b, a) in pairs;
    }
  }

  /* ---------- agreement through the history ---------- */

  // By names, index and graph agree after every merge.
  lemma {:induction false} HistoryAgrees(first: Graph, pairs: set<Edge>, later: seq<Graph>, stores: seq<seq<Record>>, k: nat)
    requires Merging(first, pairs, later) && IsHistory(first, pairs, later, stores) && k <= |later|
    ensures ValidGraph(M.MergeInto(first, later[..k])) && Agrees(stores[k + 1], M.MergeInto(first, later[..k]))
    decreases k
  {
    hide NumberedSetGraph, Merged, ValidGraph, Lists, Agrees, FromTo, IsSetGraph;
    if k == 0 {
      NumberedIsSetGraph(stores[0], first, FirstChange(first, pairs), stores[1]);
      FirstGraphAgrees(stores[0], first, pairs, stores[1]);
      assert M.MergeInto(first, later[..0]) == first;
    } else {
      HistoryAgrees(first, pairs, later, stores, k - 1);
      var g1, g2 := M.MergeInto(first, later[..k - 1]), later[k - 1];
      assert MergedAt(first, later, stores, k - 1);
      NumberedIsSetGraph(stores[k], Merged(g1, g2), MergeChange(g2), stores[k + 1]);
      MergingKeepsAgreement(stores[k], g1, g2, stores[k + 1]);
      MergedIsValid(g1, g2);
      M.MergeIntoLast(first, later[..k - 1], g2);
      assert later[..k] == later[..k - 1] + [g2];
    }
  }

  // After the first graph and after every merge the only graph on record is the merged one, with the subgraphs of the
  // documents it lists.
  lemma HistoryHasOneGraph(first: Graph, pairs: set<Edge>, later: seq<Graph>, stores: seq<seq<Record>>, k: nat)
    requires IsHistory(first, pairs, later, stores) && k <= |later|
    ensures OnlyGraph(stores[k + 1], M.MergeInto(first, later[..k]))
  {
    hide NumberedSetGraph, Merged, OnlyGraph, Agrees;
    if k == 0 {
      NumberedHasGraph(stores[0], first, FirstChange(first, pairs), stores[1]);
      assert M.MergeInto(first, later[..0]) == first;
    } else {
      var g1, g2 := M.MergeInto(first, later[..k - 1]), later[k - 1];
      assert MergedAt(first, later, stores, k - 1);
      NumberedHasGraph(stores[k], Merged(g1, g2), MergeChange(g2), stores[k + 1]);
      M.MergeIntoLast(first, later[..k - 1], g2);
      assert later[..k] == later[..k - 1] + [g2];
    }
  }

  // Two documents with the same edge, which the first graph lists in the reverse order of its names: index and
  // graph agree by names, the edge is on record under both orders and each node has two records.
  lemma SameEdgeTwice(a: Name, b: Name) returns (g: Graph, stores: seq<seq<Record>>)
    requires a != b && Normal((a, b))
    ensures Merging(g, {(b, a)}, [g]) && IsHistory(g, {(b, a)}, [g], stores) && g.edges.Keys == {(a, b)}
    ensures Agrees(stores[2], Merged(g, g)) && BothOrders(stores[2], a, b)
    ensures Count(stores[2], EntityRecord(a)) == 2 && Count(stores[2], EntityRecord(b)) == 2
  {
    hide Merged, Agrees, NumberedSetGraph, Merging;
    g := C.Small({a, b}, {(a, b)});
    OneEdge(g, a, b);
    NothingAgrees();
    MergedKeys(g, g);
    var s1 := SetGraphExists([], g, FirstChange(g, {(b, a)}));
    var s2 := SetGraphExists(s1, Merged(g, g), MergeChange(g));
    stores := [[], s1, s2];
    assert M.MergeInto(g, [g][..0]) == g;
    assert MergedAt(g, [g], stores, 0);
    HistoryAgrees(g, {(b, a)}, [g], stores, 1);
    M.MergeIntoLast(g, [], g);
    assert [g][..1] == [] + [g];
    NumbersOfTwo(g, {(b, a)}, g, stores);
    InCount(s2, RelationRecord(a, b));
    InCount(s2, RelationRecord(b, a));
  }

  lemma NumbersOfTwo(first: Graph, pairs: set<Edge>, second: Graph, stores: seq<seq<Record>>)
    requires Merging(first, pairs, [second]) && IsHistory(first, pairs, [second], stores)
    ensures forall n :: Count(stores[2], EntityRecord(n)) == Once(n in first.nodes) + Once(n in second.nodes)
    ensures forall a, b :: Count(stores[2], RelationRecord(a, b)) == Once((a, b) in pairs) + Once((a, b) in second.edges)
  {
    hide Count, NumberedSetGraph, Merged;
    NumbersAtFirst(first, pairs, [second], stores);
    assert MergedAt(first, [second], stores, 0);
    NumbersAfterMerge(stores[1], M.MergeInto(first, [second][..0]), second, stores[2]);
  }

  lemma OneEdge(g: Graph, a: Name, b: Name)
    requires a != b && Normal((a, b)) && g == C.Small({a, b}, {(a, b)})
    ensures Merging(g, {(b, a)}, [g])
  {
    FromToIsUnordered(a, b, b, a);
    hide FromTo;
  }

  lemma NothingAgrees()
    ensures Agrees([], EMPTY_GRAPH)
  {
  }

  lemma BothOrdersHappen() returns (g: Graph, pairs: set<Edge>, stores: seq<seq<Record>>)
    ensures Merging(g, pairs, [g]) && IsHistory(g, pairs, [g], stores)
    ensures Agrees(stores[2], Merged(g, g)) && !OneOrderEach(stores[2]) && !OneRecordPerName(stores[2])
  {
    hide Merging, IsHistory, Agrees, Merged;
    C.KnownPairs();
    pairs := {("C", "B")};
    g, stores := SameEdgeTwice("B", "C");
  }
}
