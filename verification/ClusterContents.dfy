/** What the merge of a cluster of entities keeps: the texts and lists of the first node and of its edges, and everything
    else as it was. */
module ClusterContents {
  import opened ClusterMerge
  import opened Common
  import opened Graphs
  import opened MergedContents

  /* ---------- sorted sets ---------- */

  ghost predicate Ascending(s: seq<string>)
  {
    forall i, j :: 0 <= i < j < |s| ==> Less(s[i], s[j])
  }

  lemma {:induction false} LessIsTransitive(a: string, b: string, c: string)
    requires Less(a, b) && Less(b, c)
    ensures Less(a, c)
    decreases |a|
  {
    if a != [] && a[0] == b[0] && b[0] == c[0] {
      LessIsTransitive(a[1..], b[1..], c[1..]);
    }
  }

  lemma {:induction false} InsertSorts(x: string, s: seq<string>)
    requires Ascending(s)
    ensures Ascending(Insert(x, s)) && forall y :: y in Insert(x, s) <==> y == x || y in s
    decreases |s|
  {
    hide Less;
    if s != [] {
      LessIsTotal(x, s[0]);
      if Less(x, s[0]) {
        forall j | 0 <= j < |s| ensures Less(x, s[j]) {
          if j > 0 {
            LessIsTransitive(x, s[0], s[j]);
          }
        }
      } else if x != s[0] {
        InsertSorts(x, s[1..]);
        var rest := Insert(x, s[1..]);
        forall j | 0 <= j < |rest| ensures Less(s[0], rest[j]) {
          assert rest[j] in rest;
          if rest[j] != x {
            var k :| 0 <= k < |s[1..]| && s[1..][k] == rest[j];
          }
        }
        assert s == [s[0]] + s[1..];
      }
    }
  }

  // `sorted(set(s))`
  lemma {:induction false} SortedSetMeans(s: seq<string>)
    ensures Ascending(SortedSet(s)) && forall y :: y in SortedSet(s) <==> y in s
  {
    hide Insert;
    if s != [] {
      var front, last := s[..|s| - 1], s[|s| - 1];
      SortedSetMeans(front);
      InsertSorts(last, SortedSet(front));
      assert s == front + [last];
    }
  }

  /* ---------- the nodes ---------- */

  function NodeTextsOf(nodes: map<Name, NodeAttr>, names: seq<Name>): seq<string>
    requires forall n :: n in names ==> n in nodes
  {
    if names == [] then [] else [nodes[names[0]].description] + NodeTextsOf(nodes, names[1..])
  }

  // "<SEP>y<SEP>z"
  function Trail(parts: seq<string>): string
  {
    if parts == [] then "" else "<SEP>" + parts[0] + Trail(parts[1..])
  }

  lemma {:induction false} TrailLast(parts: seq<string>, part: string)
    ensures Trail(parts + [part]) == Trail(parts) + "<SEP>" + part
    decreases |parts|
  {
    if parts == [] {
      assert parts + [part] == [part];
      assert Trail([part]) == "<SEP>" + part + Trail([part][1..]);
    } else {
      var head := "<SEP>" + parts[0];
      TrailLast(parts[1..], part);
      assert (parts + [part])[1..] == parts[1..] + [part];
      assert head + (Trail(parts[1..]) + "<SEP>" + part) == (head + Trail(parts[1..])) + "<SEP>" + part;
    }
  }

  lemma {:induction false} TextsTrail(first: string, parts: seq<string>)
    ensures Texts([first] + parts) == first + Trail(parts)
    decreases |parts|
  {
    if parts == [] {
      assert [first] + parts == [first];
    } else {
      var front, last := parts[..|parts| - 1], parts[|parts| - 1];
      TextsTrail(first, front);
      TextsOneMore([first] + front, last);
      TrailLast(front, last);
      assert [first] + parts == [first] + front + [last] && parts == front + [last];
    }
  }

  lemma AbsorbedNodes(c: Cluster, g: Graph, n: Name, summarize: string -> string)
    requires Ready(c, g, [n])
    ensures n in g.nodes && n != c.first
    ensures var r := Absorbed(c, g, n, summarize);
            && r.docs == g.docs && c.first in r.nodes && r.nodes[c.first].entityType == g.nodes[c.first].entityType
            && r.nodes[c.first].rank == g.nodes[c.first].rank
            && r.nodes[c.first].description == g.nodes[c.first].description + ("<SEP>" + g.nodes[n].description)
            && Ascending(r.nodes[c.first].sourceId)
            && (forall d :: d in r.nodes[c.first].sourceId <==> d in g.nodes[c.first].sourceId || d in g.nodes[n].sourceId)
            && forall m :: m in g.nodes && m != n && m != c.first ==> m in r.nodes && r.nodes[m] == g.nodes[m]
  {
    assert [n][0] == n;
    ReadyIsFoldable(c, g, [n]);
    SortedSetMeans(g.nodes[c.first].sourceId + g.nodes[n].sourceId);
    hide SortedSet, Ascending, AbsorbedEdges;
  }

  lemma {:induction false} SameTexts(a: map<Name, NodeAttr>, b: map<Name, NodeAttr>, names: seq<Name>)
    requires forall n :: n in names ==> n in a && n in b && a[n] == b[n]
    ensures NodeTextsOf(a, names) == NodeTextsOf(b, names)
  {
    if names != [] {
      SameTexts(a, b, names[1..]);
    }
  }

  // The first node after it has absorbed `rest`: its own type and rank, and all texts in order.
  lemma {:induction false} FoldedText(c: Cluster, g: Graph, rest: seq<Name>, summarize: string -> string)
    requires Ready(c, g, rest)
    ensures c.first in g.nodes && forall n :: n in rest ==> n in g.nodes
    ensures var r := FoldAll(c, g, rest, summarize);
            && r.docs == g.docs && c.first in r.nodes && r.nodes[c.first].entityType == g.nodes[c.first].entityType
            && r.nodes[c.first].rank == g.nodes[c.first].rank
            && r.nodes[c.first].description == g.nodes[c.first].description + Trail(NodeTextsOf(g.nodes, rest))
    decreases |rest|
  {
    RestIsThere(c, g, rest);
    if rest == [] {
      assert g.nodes[c.first].description + "" == g.nodes[c.first].description;
    } else {
      hide Absorbed, Ready, Ascending, Trail, NodeTextsOf;
      var n := rest[0];
      AbsorbedIsReady(c, g, rest, summarize);
      AbsorbedNodes(c, g, n, summarize);
      var m := Absorbed(c, g, n, summarize);
      FoldedText(c, m, rest[1..], summarize);
      RestDiffers(c, g, rest);
      SameTexts(m.nodes, g.nodes, rest[1..]);
      TrailOfTexts(g.nodes, rest);
      Associates(g.nodes[c.first].description, "<SEP>" + g.nodes[n].description, Trail(NodeTextsOf(g.nodes, rest[1..])));
    }
  }

  // All its sources, sorted, each once.
  lemma {:induction false} FoldedSources(c: Cluster, g: Graph, rest: seq<Name>, summarize: string -> string, d: string)
    requires Ready(c, g, rest)
    ensures c.first in g.nodes && forall n :: n in rest ==> n in g.nodes
    ensures var r := FoldAll(c, g, rest, summarize);
            && c.first in r.nodes
            && (rest != [] || Ascending(g.nodes[c.first].sourceId) ==> Ascending(r.nodes[c.first].sourceId))
            && (d in r.nodes[c.first].sourceId <==>
                  d in g.nodes[c.first].sourceId || exists n :: n in rest && d in g.nodes[n].sourceId)
    decreases |rest|
  {
    RestIsThere(c, g, rest);
    if rest != [] {
      hide Absorbed, Ready, Ascending;
      AbsorbedIsReady(c, g, rest, summarize);
      AbsorbedNodes(c, g, rest[0], summarize);
      FoldedSources(c, Absorbed(c, g, rest[0], summarize), rest[1..], summarize, d);
      RestDiffers(c, g, rest);
      assert forall x :: x in rest <==> x == rest[0] || x in rest[1..];
    }
  }

  // Every other node stays as it was.
  lemma {:induction false} FoldedOthers(c: Cluster, g: Graph, rest: seq<Name>, summarize: string -> string, m: Name)
    requires Ready(c, g, rest) && m in g.nodes && m !in rest && m != c.first
    ensures var r := FoldAll(c, g, rest, summarize); m in r.nodes && r.nodes[m] == g.nodes[m]
    decreases |rest|
  {
    if rest != [] {
      hide Absorbed, Ready, Ascending;
      AbsorbedIsReady(c, g, rest, summarize);
      AbsorbedNodes(c, g, rest[0], summarize);
      FoldedOthers(c, Absorbed(c, g, rest[0], summarize), rest[1..], summarize, m);
    }
  }

  lemma RestIsThere(c: Cluster, g: Graph, rest: seq<Name>)
    requires Ready(c, g, rest)
    ensures c.first in g.nodes && forall n :: n in rest ==> n in g.nodes && n != c.first
  {
  }

  lemma RestDiffers(c: Cluster, g: Graph, rest: seq<Name>)
    requires Ready(c, g, rest) && rest != []
    ensures rest[0] !in rest[1..] && rest == [rest[0]] + rest[1..]
  {
  }

  lemma TrailOfTexts(nodes: map<Name, NodeAttr>, names: seq<Name>)
    requires names != [] && forall n :: n in names ==> n in nodes
    ensures Trail(NodeTextsOf(nodes, names)) == "<SEP>" + nodes[names[0]].description + Trail(NodeTextsOf(nodes, names[1..]))
  {
    var parts := NodeTextsOf(nodes, names);
    assert parts[0] == nodes[names[0]].description && parts[1..] == NodeTextsOf(nodes, names[1..]);
  }

  // Merging a cluster: the first node keeps its type and rank, its text is the summary of all texts in the cluster's order,
  // its sources are all sources, sorted, each once; all other nodes that are left are as they were.
  lemma ClusterNodes(g: Graph, names: seq<Name>, summarize: string -> string)
    requires Mergeable(g, names)
    ensures var m := MergedCluster(g, names, summarize);
            var a := g.nodes[names[0]];
            && m.docs == g.docs && names[0] in m.nodes
            && m.nodes[names[0]].entityType == a.entityType && m.nodes[names[0]].rank == a.rank
            && m.nodes[names[0]].description == summarize(Texts(NodeTextsOf(g.nodes, names)))
            && Ascending(m.nodes[names[0]].sourceId)
            && (forall d :: d in m.nodes[names[0]].sourceId <==> exists n :: n in names && d in g.nodes[n].sourceId)
            && (forall n :: n in m.nodes <==> n in g.nodes && n !in names[1..])
            && forall n :: n in m.nodes && n != names[0] ==> m.nodes[n] == g.nodes[n]
  {
    var c := ClusterOf(g.edges.Keys, names);
    ClusterIsReady(g, names);
    FoldedText(c, g, names[1..], summarize);
    FoldedKeys(c, g, names[1..], summarize);
    FirstStays(g, names);
    hide Ready, Ascending, Trail, FoldAll, IncidentAny, OuterAny, BridgeKeys;
    FoldedSources(c, g, names[1..], summarize, "");
    forall d ensures d in FoldAll(c, g, names[1..], summarize).nodes[c.first].sourceId <==>
      d in g.nodes[c.first].sourceId || exists n :: n in names[1..] && d in g.nodes[n].sourceId
    {
      FoldedSources(c, g, names[1..], summarize, d);
    }
    forall m | m in g.nodes && m !in names
      ensures m in FoldAll(c, g, names[1..], summarize).nodes && FoldAll(c, g, names[1..], summarize).nodes[m] == g.nodes[m]
    {
      FoldedOthers(c, g, names[1..], summarize, m);
    }
    var parts := NodeTextsOf(g.nodes, names[1..]);
    assert NodeTextsOf(g.nodes, names) == [g.nodes[names[0]].description] + parts;
    TextsTrail(g.nodes[names[0]].description, parts);
    assert forall n :: n in names <==> n == names[0] || n in names[1..];
  }

  /* ---------- the edges ---------- */

  // What the nodes of `rest` say of their edges to nb.
  function EdgeTextsTo(edges: map<Edge, EdgeAttr>, rest: seq<Name>, nb: Name): seq<string>
  {
    if rest == [] then []
    else (if FromTo(rest[0], nb) in edges then [edges[FromTo(rest[0], nb)].description] else []) + EdgeTextsTo(edges, rest[1..], nb)
  }

  // Each text is joined to the ones before it, and the whole summarized anew.
  function Summed(text: string, parts: seq<string>, summarize: string -> string): string
  {
    if parts == [] then text else summarize(Summed(text, parts[..|parts| - 1], summarize) + "<SEP>" + parts[|parts| - 1])
  }

  lemma {:induction false} SummedFirst(text: string, part: string, parts: seq<string>, summarize: string -> string)
    ensures Summed(text, [part] + parts, summarize) == Summed(summarize(text + "<SEP>" + part), parts, summarize)
    decreases |parts|
  {
    if parts == [] {
      assert [part] + parts == [part] && [part][..0] == [];
      assert Summed(text, [part], summarize) == summarize(Summed(text, [part][..0], summarize) + "<SEP>" + part);
    } else {
      var front := parts[..|parts| - 1];
      SummedFirst(text, part, front, summarize);
      assert ([part] + parts)[..|parts|] == [part] + front;
    }
  }

  lemma {:induction false} SameEdgeTexts(a: map<Edge, EdgeAttr>, b: map<Edge, EdgeAttr>, rest: seq<Name>, nb: Name)
    requires forall m :: m in rest ==>
      (FromTo(m, nb) in a <==> FromTo(m, nb) in b) && (FromTo(m, nb) in a ==> a[FromTo(m, nb)] == b[FromTo(m, nb)])
    ensures EdgeTextsTo(a, rest, nb) == EdgeTextsTo(b, rest, nb)
  {
    hide FromTo;
    if rest != [] {
      assert forall m :: m in rest[1..] ==> m in rest;
      SameEdgeTexts(a, b, rest[1..], nb);
    }
  }

  // One absorbed node's edge to an old neighbour.
  lemma AbsorbedEdge(c: Cluster, g: Graph, n: Name, nb: Name, summarize: string -> string)
    requires Ready(c, g, [n]) && nb !in c.members && nb in c.near && FromTo(c.first, nb) in g.edges
    ensures var r, e, f := Absorbed(c, g, n, summarize), FromTo(c.first, nb), FromTo(n, nb);
            && e in r.edges && (f !in g.edges ==> r.edges[e] == g.edges[e])
            && (f in g.edges ==>
                  && r.edges[e].description == summarize(g.edges[e].description + "<SEP>" + g.edges[f].description)
                  && Ascending(r.edges[e].keywords) && Ascending(r.edges[e].sourceId)
                  && (forall x :: x in r.edges[e].keywords <==> x in g.edges[e].keywords || x in g.edges[f].keywords)
                  && (forall x :: x in r.edges[e].sourceId <==> x in g.edges[e].sourceId || x in g.edges[f].sourceId))
    ensures forall m :: m in c.members && m != n && m != c.first ==>
              (FromTo(m, nb) in Absorbed(c, g, n, summarize).edges <==> FromTo(m, nb) in g.edges)
              && (FromTo(m, nb) in g.edges ==> Absorbed(c, g, n, summarize).edges[FromTo(m, nb)] == g.edges[FromTo(m, nb)])
  {
    AbsorbedAt(c, g, n, nb, summarize);
    hide Absorbed, FromTo, SortedSet, Ascending, Ready;
    if FromTo(n, nb) in g.edges {
      var e, f := g.edges[FromTo(c.first, nb)], g.edges[FromTo(n, nb)];
      SortedSetMeans(e.keywords + f.keywords);
      SortedSetMeans(e.sourceId + f.sourceId);
    }
  }

  lemma ReadyForNear(c: Cluster, g: Graph, rest: seq<Name>, nb: Name)
    requires Ready(c, g, rest) && nb !in c.members && nb in c.near
    ensures FromTo(c.first, nb) in g.edges
    ensures forall n :: n in rest ==> n in c.members && n != c.first
    ensures rest != [] ==> rest[0] !in rest[1..] && rest == [rest[0]] + rest[1..]
  {
  }

  // The edge to an old neighbour: its text takes in the absorbed ones in order, each time summarized.
  lemma {:induction false} OldNeighborTexts(c: Cluster, g: Graph, rest: seq<Name>, nb: Name, summarize: string -> string)
    requires Ready(c, g, rest) && nb !in c.members && nb in c.near
    ensures var r, e := FoldAll(c, g, rest, summarize), FromTo(c.first, nb);
            && e in g.edges && e in r.edges
            && r.edges[e].description == Summed(g.edges[e].description, EdgeTextsTo(g.edges, rest, nb), summarize)
    decreases |rest|
  {
    ReadyForNear(c, g, rest, nb);
    if rest != [] {
      hide Absorbed, FromTo, Ready, Summed, Ascending;
      var n := rest[0];
      AbsorbedIsReady(c, g, rest, summarize);
      AbsorbedEdge(c, g, n, nb, summarize);
      var m := Absorbed(c, g, n, summarize);
      OldNeighborTexts(c, m, rest[1..], nb, summarize);
      SameEdgeTexts(m.edges, g.edges, rest[1..], nb);
      var parts := EdgeTextsTo(g.edges, rest[1..], nb);
      if FromTo(n, nb) in g.edges {
        SummedFirst(g.edges[FromTo(c.first, nb)].description, g.edges[FromTo(n, nb)].description, parts, summarize);
      } else {
        assert [] + parts == parts;
      }
    }
  }

  ghost predicate KeywordAmong(edges: map<Edge, EdgeAttr>, rest: seq<Name>, nb: Name, x: string)
  {
    exists n :: n in rest && FromTo(n, nb) in edges && x in edges[FromTo(n, nb)].keywords
  }

  ghost predicate SourceAmong(edges: map<Edge, EdgeAttr>, rest: seq<Name>, nb: Name, x: string)
  {
    exists n :: n in rest && FromTo(n, nb) in edges && x in edges[FromTo(n, nb)].sourceId
  }

  // Its keywords and sources are those of all edges between it and the cluster.
  lemma {:induction false} OldNeighborLists(c: Cluster, g: Graph, rest: seq<Name>, nb: Name, summarize: string -> string, x: string)
    requires Ready(c, g, rest) && nb !in c.members && nb in c.near
    ensures var r, e := FoldAll(c, g, rest, summarize), FromTo(c.first, nb);
            && e in g.edges && e in r.edges
            && (x in r.edges[e].keywords <==> x in g.edges[e].keywords || KeywordAmong(g.edges, rest, nb, x))
            && (x in r.edges[e].sourceId <==> x in g.edges[e].sourceId || SourceAmong(g.edges, rest, nb, x))
    decreases |rest|
  {
    ReadyForNear(c, g, rest, nb);
    if rest != [] {
      hide Absorbed, FromTo, Ready, Ascending;
      AbsorbedIsReady(c, g, rest, summarize);
      AbsorbedEdge(c, g, rest[0], nb, summarize);
      OldNeighborLists(c, Absorbed(c, g, rest[0], summarize), rest[1..], nb, summarize, x);
      assert forall y :: y in rest <==> y == rest[0] || y in rest[1..];
    }
  }

  lemma AbsorbedElsewhere(c: Cluster, g: Graph, n: Name, e: Edge, summarize: string -> string)
    requires Ready(c, g, [n]) && e in g.edges && e.0 !in c.members && e.1 !in c.members
    ensures e in Absorbed(c, g, n, summarize).edges && Absorbed(c, g, n, summarize).edges[e] == g.edges[e]
  {
    assert [n][0] == n;
    ReadyIsFoldable(c, g, [n]);
    forall nb ensures FromTo(c.first, nb) != e {
      EndsOf(c.first, nb);
    }
    hide Bridge, JoinNodes, FromTo, Outer;
  }

  // Edges away from the cluster stay as they were.
  lemma {:induction false} OtherEdgesStay(c: Cluster, g: Graph, rest: seq<Name>, e: Edge, summarize: string -> string)
    requires Ready(c, g, rest) && e in g.edges && e.0 !in c.members && e.1 !in c.members
    ensures e in FoldAll(c, g, rest, summarize).edges && FoldAll(c, g, rest, summarize).edges[e] == g.edges[e]
    decreases |rest|
  {
    if rest != [] {
      hide Absorbed, Ready;
      AbsorbedIsReady(c, g, rest, summarize);
      AbsorbedElsewhere(c, g, rest[0], e, summarize);
      OtherEdgesStay(c, Absorbed(c, g, rest[0], summarize), rest[1..], e, summarize);
    }
  }

  // Merging a cluster: the edge of the first node to a neighbour it had takes in the texts, keywords and sources of the
  // absorbed nodes' edges to it; edges away from the cluster stay as they were.
  lemma ClusterEdges(g: Graph, names: seq<Name>, nb: Name, summarize: string -> string)
    requires Mergeable(g, names) && nb !in names && FromTo(names[0], nb) in g.edges
    ensures var m, e := MergedCluster(g, names, summarize), FromTo(names[0], nb);
            && e in m.edges
            && m.edges[e].description == Summed(g.edges[e].description, EdgeTextsTo(g.edges, names[1..], nb), summarize)
            && (forall x :: x in m.edges[e].keywords <==> x in g.edges[e].keywords || KeywordAmong(g.edges, names[1..], nb, x))
            && (forall x :: x in m.edges[e].sourceId <==> x in g.edges[e].sourceId || SourceAmong(g.edges, names[1..], nb, x))
  {
    var c := ClusterOf(g.edges.Keys, names);
    ClusterIsReady(g, names);
    NeighborsMeans(g.edges.Keys, names[0], nb);
    OldNeighborTexts(c, g, names[1..], nb, summarize);
    hide Ready, Summed, FoldAll, IncidentAny, OuterAny, BridgeKeys, FromTo, KeywordAmong, SourceAmong;
    var e, r := FromTo(names[0], nb), FoldAll(c, g, names[1..], summarize);
    forall x ensures x in r.edges[e].keywords <==> x in g.edges[e].keywords || KeywordAmong(g.edges, names[1..], nb, x)
      ensures x in r.edges[e].sourceId <==> x in g.edges[e].sourceId || SourceAmong(g.edges, names[1..], nb, x)
    {
      OldNeighborLists(c, g, names[1..], nb, summarize, x);
    }
  }

  lemma ClusterLeavesEdges(g: Graph, names: seq<Name>, e: Edge, summarize: string -> string)
    requires Mergeable(g, names) && e in g.edges && e.0 !in names && e.1 !in names
    ensures e in MergedCluster(g, names, summarize).edges && MergedCluster(g, names, summarize).edges[e] == g.edges[e]
  {
    ClusterIsReady(g, names);
    OtherEdgesStay(ClusterOf(g.edges.Keys, names), g, names[1..], e, summarize);
  }
}
