/** _merge_graph_nodes: folding a cluster of entity nodes into its first member, and what the change it
    records does to the index. */
module ClusterMerge {
  import opened Common
  import opened Graphs
  import opened GraphIndex

  function Other(e: Edge, n: Name): Name
  {
    if e.0 == n then e.1 else e.0
  }

  function Neighbors(edges: set<Edge>, n: Name): set<Name>
  {
    set e | e in Incident(edges, n) :: Other(e, n)
  }

  lemma NeighborsMeans(edges: set<Edge>, n: Name, m: Name)
    requires forall e :: e in edges ==> Normal(e)
    ensures m in Neighbors(edges, n) <==> FromTo(n, m) in edges
  {
    FromToIsUnordered(n, m, m, n);
    if FromTo(n, m) in edges {
      var e := FromTo(n, m);
      assert e in Incident(edges, n) && Other(e, n) == m;
    }
    forall e | e in Incident(edges, n) && Other(e, n) == m ensures FromTo(n, m) in edges {
      assert Normal(e);
    }
  }

  // `sorted(set(a + b))`
  function Insert(x: string, s: seq<string>): seq<string>
  {
    if s == [] then [x] else if x == s[0] then s else if Less(x, s[0]) then [x] + s else [s[0]] + Insert(x, s[1..])
  }

  function SortedSet(s: seq<string>): seq<string>
  {
    if s == [] then [] else Insert(s[|s| - 1], SortedSet(s[..|s| - 1]))
  }

  function JoinNodes(a: NodeAttr, b: NodeAttr): NodeAttr
  {
    a.(description := a.description + SEP + b.description, sourceId := SortedSet(a.sourceId + b.sourceId))
  }

  function JoinEdges(a: EdgeAttr, b: EdgeAttr, summarize: string -> string): EdgeAttr
  {
    EdgeAttr(a.weight + b.weight, summarize(a.description + SEP + b.description),
             SortedSet(a.keywords + b.keywords), SortedSet(a.sourceId + b.sourceId))
  }

  // The first node, the whole cluster, and the first node's neighbours before anything was merged.
  datatype Cluster = Cluster(first: Name, members: set<Name>, near: set<Name>)

  // The first node's new edge to nb, an outside neighbour of the absorbed node n.
  function Bridge(c: Cluster, edges: map<Edge, EdgeAttr>, n: Name, nb: Name, summarize: string -> string): EdgeAttr
    requires FromTo(n, nb) in edges && (nb in c.near ==> FromTo(c.first, nb) in edges)
  {
    if nb in c.near then JoinEdges(edges[FromTo(c.first, nb)], edges[FromTo(n, nb)], summarize) else edges[FromTo(n, nb)]
  }

  function Outer(c: Cluster, edges: set<Edge>, n: Name): set<Name>
  {
    Neighbors(edges, n) - c.members
  }

  function BridgeKeys(c: Cluster, names: set<Name>): set<Edge>
  {
    set nb | nb in names :: FromTo(c.first, nb)
  }

  // When node n of the cluster may be absorbed.
  ghost predicate Foldable(c: Cluster, edges: map<Edge, EdgeAttr>, n: Name)
  {
    && (forall e :: e in edges ==> Normal(e))
    && c.first in c.members && n in c.members && n != c.first
    && forall nb :: nb in c.near && nb !in c.members ==> FromTo(c.first, nb) in edges
  }

  lemma BridgesAreDistinct(c: Cluster, edges: map<Edge, EdgeAttr>, n: Name, done: set<Name>)
    requires Foldable(c, edges, n) && done <= Outer(c, edges.Keys, n)
    ensures forall nb :: nb in done ==> FromTo(n, nb) in edges && Other(FromTo(c.first, nb), c.first) == nb
    ensures forall nb, m {:trigger FromTo(c.first, nb), FromTo(n, m)} :: nb in done ==> FromTo(c.first, nb) != FromTo(n, m)
    ensures forall nb, m {:trigger FromTo(c.first, nb), FromTo(c.first, m)} :: nb in done && m != nb ==> FromTo(c.first, nb) != FromTo(c.first, m)
  {
    forall nb | nb in done ensures FromTo(n, nb) in edges && Other(FromTo(c.first, nb), c.first) == nb {
      NeighborsMeans(edges.Keys, n, nb);
    }
    forall nb, m | nb in done ensures FromTo(c.first, nb) != FromTo(n, m) {
      FromToIsUnordered(c.first, nb, n, m);
    }
    forall nb, m | nb in done && m != nb ensures FromTo(c.first, nb) != FromTo(c.first, m) {
      FromToIsUnordered(c.first, nb, c.first, m);
    }
  }

  // `r` are the edges after the neighbours in `done` have been bridged.
  ghost predicate IsBridged(c: Cluster, edges: map<Edge, EdgeAttr>, n: Name, done: set<Name>, summarize: string -> string,
                            r: map<Edge, EdgeAttr>)
    requires Foldable(c, edges, n) && done <= Outer(c, edges.Keys, n)
  {
    && (forall e :: e in r <==> e in edges || e in BridgeKeys(c, done))
    && (forall nb :: nb in done ==>
          FromTo(n, nb) in edges && FromTo(c.first, nb) in r && r[FromTo(c.first, nb)] == Bridge(c, edges, n, nb, summarize))
    && (forall e :: e in edges && e !in BridgeKeys(c, done) ==> r[e] == edges[e])
  }

  lemma BridgeKeysMean(c: Cluster, names: set<Name>, nb: Name)
    requires c.first !in names && nb != c.first
    ensures FromTo(c.first, nb) in BridgeKeys(c, names) <==> nb in names
  {
    forall m | m in names && FromTo(c.first, m) == FromTo(c.first, nb) ensures m == nb {
      FromToIsUnordered(c.first, m, c.first, nb);
    }
  }

  lemma NoBridge(c: Cluster, names: set<Name>, e: Edge)
    requires forall m :: m in names ==> FromTo(c.first, m) != e
    ensures e !in BridgeKeys(c, names)
  {
    hide FromTo;
  }

  lemma BridgeOneMore(c: Cluster, edges: map<Edge, EdgeAttr>, n: Name, done: set<Name>, nb: Name, summarize: string -> string,
                      now: map<Edge, EdgeAttr>)
    requires Foldable(c, edges, n) && done <= Outer(c, edges.Keys, n) && IsBridged(c, edges, n, done, summarize, now)
    requires nb in Outer(c, edges.Keys, n) && nb !in done
    ensures FromTo(n, nb) in now && (nb in c.near ==> FromTo(c.first, nb) in now)
    ensures IsBridged(c, edges, n, done + {nb}, summarize, now[FromTo(c.first, nb) := Bridge(c, now, n, nb, summarize)])
  {
    hide Bridge, FromTo, Neighbors, BridgeKeys;
    BridgesAreDistinct(c, edges, n, done + {nb});
    BridgeKeysMean(c, done, nb);
    NoBridge(c, done, FromTo(n, nb));
    assert FromTo(c.first, nb) !in BridgeKeys(c, done);
    BridgeKeysGrow(c, done, nb);
    BridgeReads(c, edges, now, n, nb, summarize);
    var r := now[FromTo(c.first, nb) := Bridge(c, now, n, nb, summarize)];
    assert forall e :: e in r <==> e in edges || e in BridgeKeys(c, done + {nb});
    forall m | m in done ensures FromTo(c.first, m) in r && r[FromTo(c.first, m)] == Bridge(c, edges, n, m, summarize) {
      assert FromTo(c.first, m) != FromTo(c.first, nb);
    }
  }

  lemma BridgeReads(c: Cluster, e1: map<Edge, EdgeAttr>, e2: map<Edge, EdgeAttr>, n: Name, nb: Name, summarize: string -> string)
    requires FromTo(n, nb) in e1 && FromTo(n, nb) in e2 && e1[FromTo(n, nb)] == e2[FromTo(n, nb)]
    requires nb in c.near ==>
      FromTo(c.first, nb) in e1 && FromTo(c.first, nb) in e2 && e1[FromTo(c.first, nb)] == e2[FromTo(c.first, nb)]
    ensures Bridge(c, e1, n, nb, summarize) == Bridge(c, e2, n, nb, summarize)
  {
  }

  /* ---------- absorbing one node, then all ---------- */

  ghost function AbsorbedEdges(c: Cluster, edges: map<Edge, EdgeAttr>, n: Name, summarize: string -> string): map<Edge, EdgeAttr>
    requires Foldable(c, edges, n)
  {
    BridgesAreDistinct(c, edges, n, Outer(c, edges.Keys, n));
    var bridges := BridgeKeys(c, Outer(c, edges.Keys, n));
    map e | e in (edges.Keys + bridges) - Incident(edges.Keys, n) ::
      if e in bridges then Bridge(c, edges, n, Other(e, c.first), summarize) else edges[e]
  }

  lemma BridgedThenRemoved(c: Cluster, edges: map<Edge, EdgeAttr>, n: Name, summarize: string -> string, b: map<Edge, EdgeAttr>)
    requires Foldable(c, edges, n) && IsBridged(c, edges, n, Outer(c, edges.Keys, n), summarize, b)
    ensures b - Incident(b.Keys, n) == AbsorbedEdges(c, edges, n, summarize)
  {
    hide Bridge, FromTo;
    var outer := Outer(c, edges.Keys, n);
    BridgesAreDistinct(c, edges, n, outer);
    forall nb | nb in outer ensures FromTo(c.first, nb).0 != n && FromTo(c.first, nb).1 != n {
      NotIncident(c.first, nb, n);
    }
    assert Incident(b.Keys, n) == Incident(edges.Keys, n);
  }

  lemma NotIncident(a: Name, b: Name, n: Name)
    requires a != n && b != n
    ensures FromTo(a, b).0 != n && FromTo(a, b).1 != n
  {
  }

  ghost predicate Ready(c: Cluster, g: Graph, rest: seq<Name>)
  {
    && ValidGraph(g) && c.first in c.members && c.first in g.nodes
    && (forall nb :: nb in c.near && nb !in c.members ==> FromTo(c.first, nb) in g.edges)
    && (forall i :: 0 <= i < |rest| ==> rest[i] in c.members && rest[i] != c.first && rest[i] in g.nodes)
    && (forall i, j :: 0 <= i < j < |rest| ==> rest[i] != rest[j])
  }

  ghost function Absorbed(c: Cluster, g: Graph, n: Name, summarize: string -> string): Graph
    requires Ready(c, g, [n])
  {
    ReadyIsFoldable(c, g, [n]);
    assert [n][0] == n;
    Graph(g.nodes[c.first := JoinNodes(g.nodes[c.first], g.nodes[n])] - {n}, AbsorbedEdges(c, g.edges, n, summarize), g.docs)
  }

  lemma ReadyIsFoldable(c: Cluster, g: Graph, rest: seq<Name>)
    requires Ready(c, g, rest)
    ensures forall i :: 0 <= i < |rest| ==> Foldable(c, g.edges, rest[i])
  {
  }

  lemma AbsorbedKeys(c: Cluster, g: Graph, n: Name, summarize: string -> string)
    requires Ready(c, g, [n])
    ensures var r := Absorbed(c, g, n, summarize);
            && r.nodes.Keys == g.nodes.Keys - {n}
            && r.edges.Keys == (g.edges.Keys - Incident(g.edges.Keys, n)) + BridgeKeys(c, Outer(c, g.edges.Keys, n))
  {
    assert [n][0] == n;
    ReadyIsFoldable(c, g, [n]);
    forall nb | nb in Outer(c, g.edges.Keys, n)
      ensures FromTo(c.first, nb) !in Incident(g.edges.Keys, n)
    {
      NeighborsMeans(g.edges.Keys, n, nb);
      NotIncident(c.first, nb, n);
    }
    hide Bridge, Outer, FromTo;
  }

  lemma AbsorbedIsReady(c: Cluster, g: Graph, rest: seq<Name>, summarize: string -> string)
    requires rest != [] && Ready(c, g, rest)
    ensures Ready(c, g, [rest[0]]) && Ready(c, Absorbed(c, g, rest[0], summarize), rest[1..])
  {
    var n := rest[0];
    assert [n][0] == n;
    AbsorbedKeys(c, g, n, summarize);
    var r := Absorbed(c, g, n, summarize);
    forall e | e in r.edges ensures Normal(e) && e.0 in r.nodes && e.1 in r.nodes {
      if e in BridgeKeys(c, Outer(c, g.edges.Keys, n)) {
        var nb :| nb in Outer(c, g.edges.Keys, n) && e == FromTo(c.first, nb);
        FromToIsNormal(c.first, nb);
        NeighborsMeans(g.edges.Keys, n, nb);
        EndsOf(n, nb);
        EndsOf(c.first, nb);
      }
    }
    forall nb | nb in c.near && nb !in c.members ensures FromTo(c.first, nb) in r.edges {
      NotIncident(c.first, nb, n);
    }
  }

  lemma EndsOf(a: Name, b: Name)
    ensures var e := FromTo(a, b); (e.0 == a && e.1 == b) || (e.0 == b && e.1 == a)
  {
  }

  ghost function FoldAll(c: Cluster, g: Graph, rest: seq<Name>, summarize: string -> string): Graph
    requires Ready(c, g, rest)
    decreases |rest|
  {
    if rest == [] then g
    else
      AbsorbedIsReady(c, g, rest, summarize);
      FoldAll(c, Absorbed(c, g, rest[0], summarize), rest[1..], summarize)
  }

  function IncidentAny(edges: set<Edge>, names: seq<Name>): set<Edge>
  {
    set e | e in edges && (e.0 in names || e.1 in names)
  }

  // The outside neighbours of the nodes in `rest`.
  function OuterAny(c: Cluster, edges: set<Edge>, rest: seq<Name>): set<Name>
  {
    set e, n | e in edges && n in rest && e in Incident(edges, n) && Other(e, n) !in c.members :: Other(e, n)
  }

  // Which nodes and edges the folded graph has: edges at absorbed nodes are gone, and every outside
  // neighbour of one is now joined to the first node.
  lemma {:induction false} FoldedKeys(c: Cluster, g: Graph, rest: seq<Name>, summarize: string -> string)
    requires Ready(c, g, rest)
    ensures var r := FoldAll(c, g, rest, summarize);
            && r.nodes.Keys == g.nodes.Keys - (set n | n in rest)
            && r.edges.Keys == (g.edges.Keys - IncidentAny(g.edges.Keys, rest)) + BridgeKeys(c, OuterAny(c, g.edges.Keys, rest))
    decreases |rest|
  {
    hide Absorbed, FromTo, Incident;
    if rest == [] {
      assert BridgeKeys(c, OuterAny(c, g.edges.Keys, rest)) == {};
    } else {
      var n := rest[0];
      AbsorbedIsReady(c, g, rest, summarize);
      AbsorbedKeys(c, g, n, summarize);
      var m := Absorbed(c, g, n, summarize);
      FoldedKeys(c, m, rest[1..], summarize);
      assert forall x :: x in rest <==> x == n || x in rest[1..];
      FoldKeysStep(c, g.edges.Keys, m.edges.Keys, n, rest[1..]);
      assert [n] + rest[1..] == rest;
    }
  }

  lemma FoldKeysStep(c: Cluster, e0: set<Edge>, e1: set<Edge>, n: Name, rest: seq<Name>)
    requires (forall e :: e in e0 ==> Normal(e)) && c.first in c.members && n in c.members && n != c.first
    requires forall x :: x in rest ==> x in c.members && x != c.first && x != n
    requires e1 == (e0 - Incident(e0, n)) + BridgeKeys(c, Outer(c, e0, n))
    ensures (e1 - IncidentAny(e1, rest)) + BridgeKeys(c, OuterAny(c, e1, rest))
         == (e0 - IncidentAny(e0, [n] + rest)) + BridgeKeys(c, OuterAny(c, e0, [n] + rest))
  {
    var all := [n] + rest;
    assert forall x :: x in all <==> x == n || x in rest;
    BridgesMiss(c, Outer(c, e0, n), rest);
    assert e1 - IncidentAny(e1, rest) == (e0 - IncidentAny(e0, all)) + BridgeKeys(c, Outer(c, e0, n));
    assert OuterAny(c, e0, all) == Outer(c, e0, n) + OuterAny(c, e1, rest) by { OuterSplits(c, e0, e1, n, rest); }
    assert BridgeKeys(c, OuterAny(c, e0, all)) == BridgeKeys(c, Outer(c, e0, n)) + BridgeKeys(c, OuterAny(c, e1, rest));
  }

  // Bridges touch no absorbed node.
  lemma BridgesMiss(c: Cluster, names: set<Name>, rest: seq<Name>)
    requires forall x :: x in rest ==> x in c.members && x != c.first
    requires names !! c.members
    ensures forall e :: e in BridgeKeys(c, names) ==> e.0 !in rest && e.1 !in rest
  {
    forall nb | nb in names ensures FromTo(c.first, nb).0 !in rest && FromTo(c.first, nb).1 !in rest {
      EndsOf(c.first, nb);
    }
  }

  lemma OuterSplits(c: Cluster, e0: set<Edge>, e1: set<Edge>, n: Name, rest: seq<Name>)
    requires c.first in c.members && n in c.members && n != c.first
    requires forall x :: x in rest ==> x in c.members && x != c.first && x != n
    requires e1 == (e0 - Incident(e0, n)) + BridgeKeys(c, Outer(c, e0, n))
    ensures OuterAny(c, e0, [n] + rest) == Outer(c, e0, n) + OuterAny(c, e1, rest)
  {
    BridgesMiss(c, Outer(c, e0, n), rest);
    var all := [n] + rest;
    forall nb | nb in OuterAny(c, e0, all) ensures nb in Outer(c, e0, n) + OuterAny(c, e1, rest) {
      var e, x :| e in e0 && x in all && e in Incident(e0, x) && Other(e, x) !in c.members && nb == Other(e, x);
      if x != n {
        assert e in e1 && x in rest && e in Incident(e1, x);
      } else {
        assert nb in Neighbors(e0, n);
      }
    }
    forall nb | nb in OuterAny(c, e1, rest) ensures nb in OuterAny(c, e0, all) {
      var e, x :| e in e1 && x in rest && e in Incident(e1, x) && Other(e, x) !in c.members && nb == Other(e, x);
      assert e in e0 && x in all && e in Incident(e0, x);
    }
    forall nb | nb in Outer(c, e0, n) ensures nb in OuterAny(c, e0, all) {
      var e :| e in Incident(e0, n) && nb == Other(e, n);
      assert n in all;
    }
  }

  /* ---------- in place ---------- */

  // One neighbour of the absorbed node: its edge is recorded as removed, and if it lies outside the
  // cluster the first node gets an edge to it.
  method FoldNeighbor(g: EntityGraph, c: Cluster, n: Name, nb: Name, change: GraphChange, summarize: string -> string,
                      ghost edges: map<Edge, EdgeAttr>, ghost done: set<Name>)
    requires Foldable(c, edges, n) && done <= Outer(c, edges.Keys, n) && IsBridged(c, edges, n, done, summarize, g.edges)
    requires nb in Neighbors(edges.Keys, n) && nb !in done
    modifies g`edges, change`removedEdges, change`addedUpdatedEdges
    ensures var now := if nb in c.members then done else done + {nb};
            now <= Outer(c, edges.Keys, n) && IsBridged(c, edges, n, now, summarize, g.edges)
    ensures change.removedEdges == old(change.removedEdges) + {FromTo(n, nb)}
    ensures change.addedUpdatedEdges == old(change.addedUpdatedEdges) + if nb in c.near && nb !in c.members then {FromTo(c.first, nb)} else {}
  {
    hide Bridge, IsBridged, FromTo, Neighbors;
    change.removedEdges := change.removedEdges + {FromTo(n, nb)};
    if nb !in c.members {
      BridgeOneMore(c, edges, n, done, nb, summarize, g.edges);
      if nb in c.near {
        change.addedUpdatedEdges := change.addedUpdatedEdges + {FromTo(c.first, nb)};
      }
      BridgeStep(g, c, n, nb, summarize);
    }
  }

  // The loop over the neighbours of one absorbed node, in any order.
  method FoldNeighbors(g: EntityGraph, c: Cluster, n: Name, change: GraphChange, summarize: string -> string)
    requires Foldable(c, g.edges, n)
    modifies g`edges, change`removedEdges, change`addedUpdatedEdges
    ensures IsBridged(c, old(g.edges), n, Outer(c, old(g.edges.Keys), n), summarize, g.edges)
    ensures change.removedEdges == old(change.removedEdges) + Incident(old(g.edges.Keys), n)
    ensures change.addedUpdatedEdges == old(change.addedUpdatedEdges) + BridgeKeys(c, Outer(c, old(g.edges.Keys), n) * c.near)
  {
    hide IsBridged, FromTo, Neighbors, Foldable, BridgeKeys;
    ghost var edges := g.edges;
    var todo := Neighbors(g.edges.Keys, n);
    ghost var all := todo;
    NothingBridged(c, edges, n, summarize);
    ghost var done: set<Name> := {};
    ghost var seen: set<Name> := {};
    while todo != {}
      invariant seen == all - todo && todo <= all == Neighbors(edges.Keys, n)
      invariant done == seen - c.members && done <= Outer(c, edges.Keys, n)
      invariant IsBridged(c, edges, n, done, summarize, g.edges)
      invariant change.removedEdges == old(change.removedEdges) + (set m | m in seen :: FromTo(n, m))
      invariant change.addedUpdatedEdges == old(change.addedUpdatedEdges) + BridgeKeys(c, done * c.near)
      decreases todo
    {
      var nb :| nb in todo;
      FoldNeighbor(g, c, n, nb, change, summarize, edges, done);
      BridgeKeysGrow(c, done * c.near, nb);
      assert (done + {nb}) * c.near == if nb in c.near then done * c.near + {nb} else done * c.near;
      done := if nb in c.members then done else done + {nb};
      seen := seen + {nb};
      todo := todo - {nb};
    }
    assert done == Outer(c, edges.Keys, n);
    FoldableIsNormal(c, edges, n);
    NeighborEdges(edges.Keys, n);
  }

  lemma FoldableIsNormal(c: Cluster, edges: map<Edge, EdgeAttr>, n: Name)
    requires Foldable(c, edges, n)
    ensures forall e :: e in edges ==> Normal(e)
  {
  }

  lemma NothingBridged(c: Cluster, edges: map<Edge, EdgeAttr>, n: Name, summarize: string -> string)
    requires Foldable(c, edges, n)
    ensures IsBridged(c, edges, n, {}, summarize, edges) && BridgeKeys(c, {} * c.near) == {}
  {
  }

  method AbsorbNode(g: EntityGraph, c: Cluster, n: Name, change: GraphChange, summarize: string -> string)
    requires Ready(c, g.View(), [n])
    modifies g, change`removedEdges, change`addedUpdatedEdges
    ensures g.View() == Absorbed(c, old(g.View()), n, summarize)
    ensures change.removedEdges == old(change.removedEdges) + Incident(old(g.edges.Keys), n)
    ensures change.addedUpdatedEdges == old(change.addedUpdatedEdges) + BridgeKeys(c, Outer(c, old(g.edges.Keys), n) * c.near)
  {
    hide Bridge, Incident, JoinNodes, IsBridged, FromTo, Foldable, Outer, BridgeKeys;
    ghost var edges := g.edges;
    assert [n][0] == n;
    ReadyIsFoldable(c, g.View(), [n]);
    g.nodes := g.nodes[c.first := JoinNodes(g.nodes[c.first], g.nodes[n])];
    FoldNeighbors(g, c, n, change, summarize);
    BridgedThenRemoved(c, edges, n, summarize, g.edges);
    RemoveNode(g, n);
  }

  lemma BridgeKeysGrow(c: Cluster, names: set<Name>, nb: Name)
    ensures BridgeKeys(c, names + {nb}) == BridgeKeys(c, names) + {FromTo(c.first, nb)}
  {
  }

  lemma NeighborEdges(edges: set<Edge>, n: Name)
    requires forall e :: e in edges ==> Normal(e)
    ensures (set m | m in Neighbors(edges, n) :: FromTo(n, m)) == Incident(edges, n)
  {
    forall m | m in Neighbors(edges, n) ensures FromTo(n, m) in Incident(edges, n) {
      NeighborsMeans(edges, n, m);
      EndsOf(n, m);
    }
    forall e | e in Incident(edges, n) ensures Other(e, n) in Neighbors(edges, n) && e == FromTo(n, Other(e, n)) {
      FromToIsUnordered(e.0, e.1, n, Other(e, n));
      assert Normal(e);
    }
  }

  // One neighbour outside the cluster: join its edge to the first node's, or add it as a new one.
  method BridgeStep(g: EntityGraph, c: Cluster, n: Name, nb: Name, summarize: string -> string)
    requires FromTo(n, nb) in g.edges && (nb in c.near ==> FromTo(c.first, nb) in g.edges)
    modifies g`edges
    ensures g.edges == old(g.edges)[FromTo(c.first, nb) := Bridge(c, old(g.edges), n, nb, summarize)]
  {
    var edge1 := g.edges[FromTo(n, nb)];
    if nb in c.near {
      g.edges := g.edges[FromTo(c.first, nb) := JoinEdges(g.edges[FromTo(c.first, nb)], edge1, summarize)];
    } else {
      g.edges := g.edges[FromTo(c.first, nb) := edge1];
    }
  }

  method RemoveNode(g: EntityGraph, n: Name)
    modifies g`nodes, g`edges
    ensures g.nodes == old(g.nodes) - {n} && g.edges == old(g.edges) - Incident(old(g.edges.Keys), n)
  {
    g.edges := g.edges - Incident(g.edges.Keys, n);
    g.nodes := g.nodes - {n};
  }

  function ClusterOf(edges: set<Edge>, names: seq<Name>): Cluster
    requires names != []
  {
    Cluster(names[0], (set n | n in names), Neighbors(edges, names[0]))
  }

  lemma ClusterIsReady(g: Graph, names: seq<Name>)
    requires ValidGraph(g) && names != [] && NoDuplicates(names) && forall n :: n in names ==> n in g.nodes
    ensures Ready(ClusterOf(g.edges.Keys, names), g, names[1..])
  {
    var c := ClusterOf(g.edges.Keys, names);
    forall nb | nb in c.near ensures FromTo(c.first, nb) in g.edges {
      NeighborsMeans(g.edges.Keys, c.first, nb);
    }
    forall i | 0 <= i < |names[1..]| ensures names[1..][i] in c.members && names[1..][i] != c.first && names[1..][i] in g.nodes {
      assert names[1..][i] == names[i + 1];
    }
  }

  // The last step rewrites the first node's description.
  function Described(g: Graph, n: Name, summarize: string -> string): Graph
    requires n in g.nodes
  {
    g.(nodes := g.nodes[n := g.nodes[n].(description := summarize(g.nodes[n].description))])
  }

  // What merging a cluster makes of the graph, and the edges it records as removed and as updated.
  ghost function MergedCluster(g: Graph, names: seq<Name>, summarize: string -> string): (r: Graph)
    requires ValidGraph(g) && names != [] && NoDuplicates(names) && forall n :: n in names ==> n in g.nodes
    ensures r.nodes.Keys == g.nodes.Keys - (set n | n in names[1..])
    ensures var c := ClusterOf(g.edges.Keys, names);
            r.edges.Keys == (g.edges.Keys - IncidentAny(g.edges.Keys, names[1..])) + BridgeKeys(c, OuterAny(c, g.edges.Keys, names[1..]))
  {
    var c := ClusterOf(g.edges.Keys, names);
    ClusterIsReady(g, names);
    FoldedKeys(c, g, names[1..], summarize);
    FirstStays(g, names);
    Described(FoldAll(c, g, names[1..], summarize), names[0], summarize)
  }

  lemma FirstStays(g: Graph, names: seq<Name>)
    requires names != [] && NoDuplicates(names) && names[0] in g.nodes
    ensures names[0] in g.nodes.Keys - (set n | n in names[1..])
  {
  }

  // What the remaining nodes will still record, after one more of them has been absorbed.
  lemma RecordsSplit(c: Cluster, e0: set<Edge>, e1: set<Edge>, n: Name, rest: seq<Name>)
    requires c.first in c.members && n in c.members && n != c.first
    requires forall x :: x in rest ==> x in c.members && x != c.first && x != n
    requires e1 == (e0 - Incident(e0, n)) + BridgeKeys(c, Outer(c, e0, n))
    ensures IncidentAny(e0, [n] + rest) == Incident(e0, n) + IncidentAny(e1, rest)
    ensures BridgeKeys(c, OuterAny(c, e0, [n] + rest) * c.near)
         == BridgeKeys(c, Outer(c, e0, n) * c.near) + BridgeKeys(c, OuterAny(c, e1, rest) * c.near)
  {
    BridgesMiss(c, Outer(c, e0, n), rest);
    OuterSplits(c, e0, e1, n, rest);
    var all := [n] + rest;
    assert forall x :: x in all <==> x == n || x in rest;
    assert OuterAny(c, e0, all) * c.near == Outer(c, e0, n) * c.near + OuterAny(c, e1, rest) * c.near;
  }

  method MergeGraphNodes(g: EntityGraph, names: seq<Name>, change: GraphChange, summarize: string -> string)
    requires ValidGraph(g.View()) && NoDuplicates(names) && forall n :: n in names ==> n in g.nodes
    modifies g, change
    ensures ValidGraph(g.View())
    ensures |names| <= 1 ==> g.View() == old(g.View()) && unchanged(change)
    ensures |names| > 1 ==>
              var c := ClusterOf(old(g.edges.Keys), names);
              var rest := names[1..];
              && g.View() == MergedCluster(old(g.View()), names, summarize)
              && change.addedUpdatedNodes == old(change.addedUpdatedNodes) + {names[0]}
              && change.removedNodes == old(change.removedNodes) + (set n | n in rest)
              && change.removedEdges == old(change.removedEdges) + IncidentAny(old(g.edges.Keys), rest)
              && change.addedUpdatedEdges == old(change.addedUpdatedEdges) + BridgeKeys(c, OuterAny(c, old(g.edges.Keys), rest) * c.near)
  {
    if |names| <= 1 {
      return;
    }
    change.addedUpdatedNodes := change.addedUpdatedNodes + {names[0]};
    change.removedNodes := change.removedNodes + (set n | n in names[1..]);
    var c := ClusterOf(g.edges.Keys, names);
    ClusterIsReady(g.View(), names);
    MergedClusterIsValid(g.View(), names, summarize);
    FoldMembers(g, c, names[1..], change, summarize);
    g.nodes := g.nodes[names[0] := g.nodes[names[0]].(description := summarize(g.nodes[names[0]].description))];
  }

  method FoldMembers(g: EntityGraph, c: Cluster, rest: seq<Name>, change: GraphChange, summarize: string -> string)
    requires Ready(c, g.View(), rest)
    modifies g, change`removedEdges, change`addedUpdatedEdges
    ensures g.View() == FoldAll(c, old(g.View()), rest, summarize) && c.first in g.nodes
    ensures change.removedEdges == old(change.removedEdges) + IncidentAny(old(g.edges.Keys), rest)
    ensures change.addedUpdatedEdges == old(change.addedUpdatedEdges) + BridgeKeys(c, OuterAny(c, old(g.edges.Keys), rest) * c.near)
  {
    hide Absorbed, IncidentAny, OuterAny, BridgeKeys, Incident, Outer, FromTo;
    var k := 0;
    while k < |rest|
      invariant k <= |rest| && Ready(c, g.View(), rest[k..])
      invariant FoldAll(c, g.View(), rest[k..], summarize) == FoldAll(c, old(g.View()), rest, summarize)
      invariant change.removedEdges + IncidentAny(g.edges.Keys, rest[k..]) == old(change.removedEdges) + IncidentAny(old(g.edges.Keys), rest)
      invariant change.addedUpdatedEdges + BridgeKeys(c, OuterAny(c, g.edges.Keys, rest[k..]) * c.near)
             == old(change.addedUpdatedEdges) + BridgeKeys(c, OuterAny(c, old(g.edges.Keys), rest) * c.near)
    {
      var n := rest[k];
      ghost var view := g.View();
      assert rest[k..][0] == n && rest[k..][1..] == rest[k + 1..] && rest[k..] == [n] + rest[k + 1..];
      AbsorbedIsReady(c, view, rest[k..], summarize);
      AbsorbedKeys(c, view, n, summarize);
      AbsorbNode(g, c, n, change, summarize);
      RecordsSplit(c, view.edges.Keys, g.edges.Keys, n, rest[k + 1..]);
      k := k + 1;
    }
    NothingLeft(c, g.edges.Keys);
    assert rest[k..] == [];
  }

  lemma NothingLeft(c: Cluster, edges: set<Edge>)
    ensures IncidentAny(edges, []) == {} && BridgeKeys(c, OuterAny(c, edges, []) * c.near) == {}
  {
  }

  /* ---------- the index after a cluster has been merged ---------- */

  // The change a merge of this cluster records.
  ghost function ClusterChange(g: Graph, names: seq<Name>): Change
    requires names != []
  {
    var c := ClusterOf(g.edges.Keys, names);
    Change(set n | n in names[1..], {names[0]}, IncidentAny(g.edges.Keys, names[1..]),
           BridgeKeys(c, OuterAny(c, g.edges.Keys, names[1..]) * c.near))
  }

  // Every outside neighbour of an absorbed node was a neighbour of the first node already.
  ghost predicate NoNewNeighbors(g: Graph, names: seq<Name>)
    requires names != []
  {
    forall n, nb :: n in names[1..] && nb !in names && FromTo(n, nb) in g.edges ==> FromTo(names[0], nb) in g.edges
  }

  // No relation at an absorbed node is on record with its names reversed.
  ghost predicate NoReversedRecord(records: seq<Record>, names: seq<Name>)
    requires names != []
  {
    forall a, b :: RelationRecord(a, b) in records && (a in names[1..] || b in names[1..]) ==> Normal((a, b))
  }

  lemma OuterAnyMeans(g: Graph, names: seq<Name>, nb: Name)
    requires ValidGraph(g) && names != [] && NoDuplicates(names)
    ensures var c := ClusterOf(g.edges.Keys, names);
            nb in OuterAny(c, g.edges.Keys, names[1..]) <==>
            nb !in names && exists n :: n in names[1..] && FromTo(n, nb) in g.edges
  {
    var c := ClusterOf(g.edges.Keys, names);
    var edges, rest := g.edges.Keys, names[1..];
    if nb in OuterAny(c, edges, rest) {
      var e, n :| e in edges && n in rest && e in Incident(edges, n) && Other(e, n) !in c.members && nb == Other(e, n);
      assert nb in Neighbors(edges, n);
      NeighborsMeans(edges, n, nb);
    }
    if nb !in names && exists n :: n in rest && FromTo(n, nb) in edges {
      var n :| n in rest && FromTo(n, nb) in edges;
      var e := FromTo(n, nb);
      assert names[0] in c.members && n in names;
      assert e in Incident(edges, n) && Other(e, n) == nb;
    }
  }

  lemma AgreementNeeds(before: seq<Record>, g: Graph, names: seq<Name>, summarize: string -> string, after: seq<Record>)
    requires ValidGraph(g) && |names| >= 2 && NoDuplicates(names) && forall n :: n in names ==> n in g.nodes
    requires Agrees(before, g) && IsSetGraph(before, MergedCluster(g, names, summarize), ClusterChange(g, names), after)
    requires Agrees(after, MergedCluster(g, names, summarize))
    ensures NoNewNeighbors(g, names)
  {
    hide MergedCluster, OuterAny, FromTo, Neighbors;
    var m := MergedCluster(g, names, summarize);
    var c := ClusterOf(g.edges.Keys, names);
    var rest := names[1..];
    forall n, nb | n in rest && nb !in names && FromTo(n, nb) in g.edges ensures FromTo(names[0], nb) in g.edges {
      OuterAnyMeans(g, names, nb);
      var e := FromTo(names[0], nb);
      assert e in BridgeKeys(c, OuterAny(c, g.edges.Keys, rest)) && e in m.edges;
      var r := if RelationRecord(e.0, e.1) in after then RelationRecord(e.0, e.1) else RelationRecord(e.1, e.0);
      assert r in after;
      EndsOf(names[0], nb);
      FromToIsUnordered(r.source, r.target, names[0], nb);
      if r in before {
        assert FromTo(r.source, r.target) in g.edges;
      } else {
        assert (r.source, r.target) in BridgeKeys(c, OuterAny(c, g.edges.Keys, rest) * c.near);
        var x :| x in OuterAny(c, g.edges.Keys, rest) * c.near && (r.source, r.target) == FromTo(c.first, x);
        NeighborsMeans(g.edges.Keys, c.first, x);
        FromToIsNormal(c.first, x);
      }
    }
  }

  lemma AgreementNeedsOrder(before: seq<Record>, g: Graph, names: seq<Name>, summarize: string -> string, after: seq<Record>)
    requires ValidGraph(g) && |names| >= 2 && NoDuplicates(names) && forall n :: n in names ==> n in g.nodes
    requires Agrees(before, g) && IsSetGraph(before, MergedCluster(g, names, summarize), ClusterChange(g, names), after)
    requires Agrees(after, MergedCluster(g, names, summarize))
    ensures NoReversedRecord(before, names)
  {
    hide MergedCluster, OuterAny, FromTo, Neighbors;
    var m := MergedCluster(g, names, summarize);
    var ch := ClusterChange(g, names);
    var rest := names[1..];
    forall a, b | RelationRecord(a, b) in before && (a in rest || b in rest) ensures Normal((a, b)) {
      if !Normal((a, b)) {
        assert FromTo(a, b) in g.edges;
        EndsOf(a, b);
        assert (a, b) !in g.edges;
        assert Survives(ch, RelationRecord(a, b));
        assert FromTo(a, b) in m.edges;
        RestIsGone(g, names, summarize, FromTo(a, b));
      }
    }
  }

  // No edge of the merged graph touches an absorbed node.
  lemma RestIsGone(g: Graph, names: seq<Name>, summarize: string -> string, e: Edge)
    requires ValidGraph(g) && |names| >= 2 && NoDuplicates(names) && forall n :: n in names ==> n in g.nodes
    requires e in MergedCluster(g, names, summarize).edges
    ensures e.0 !in names[1..] && e.1 !in names[1..]
  {
    hide MergedCluster, OuterAny, Neighbors;
    var c := ClusterOf(g.edges.Keys, names);
    var rest := names[1..];
    if e in BridgeKeys(c, OuterAny(c, g.edges.Keys, rest)) {
      var nb :| nb in OuterAny(c, g.edges.Keys, rest) && e == FromTo(c.first, nb);
      OuterAnyMeans(g, names, nb);
      EndsOf(c.first, nb);
      assert forall x :: x in rest ==> x in names && x != names[0];
    }
  }

  // Without new neighbours the merged graph has the old edges that touch no absorbed node.
  lemma NoNewEdges(g: Graph, names: seq<Name>, summarize: string -> string, e: Edge)
    requires ValidGraph(g) && |names| >= 2 && NoDuplicates(names) && forall n :: n in names ==> n in g.nodes
    requires NoNewNeighbors(g, names)
    ensures e in MergedCluster(g, names, summarize).edges <==> e in g.edges && e !in IncidentAny(g.edges.Keys, names[1..])
  {
    hide MergedCluster, OuterAny, FromTo, Neighbors;
    var c := ClusterOf(g.edges.Keys, names);
    var outer := OuterAny(c, g.edges.Keys, names[1..]);
    if e in MergedCluster(g, names, summarize).edges {
      RestIsGone(g, names, summarize, e);
      if e in BridgeKeys(c, outer) {
        var nb :| nb in outer && e == FromTo(c.first, nb);
        OuterAnyMeans(g, names, nb);
      }
    }
  }

  // Whether set_graph leaves the record in the index.
  ghost predicate Kept(before: seq<Record>, g: Graph, names: seq<Name>, summarize: string -> string, r: Record)
    requires ValidGraph(g) && names != [] && NoDuplicates(names) && forall n :: n in names ==> n in g.nodes
  {
    var c := ClusterChange(g, names);
    (r in before && Survives(c, r)) || Inserted(MergedCluster(g, names, summarize), c, r)
  }

  lemma EntityKept(before: seq<Record>, g: Graph, names: seq<Name>, summarize: string -> string, n: Name)
    requires ValidGraph(g) && |names| >= 2 && NoDuplicates(names) && forall n :: n in names ==> n in g.nodes
    requires Agrees(before, g)
    ensures Kept(before, g, names, summarize, EntityRecord(n)) <==> n in MergedCluster(g, names, summarize).nodes
  {
    hide MergedCluster, OuterAny, FromTo, Neighbors, ClusterOf, BridgeKeys, IncidentAny;
    FirstStays(g, names);
  }

  // A relation that set_graph leaves on record is still one of the graph.
  lemma RelationKept(before: seq<Record>, g: Graph, names: seq<Name>, summarize: string -> string, a: Name, b: Name)
    requires ValidGraph(g) && |names| >= 2 && NoDuplicates(names) && forall n :: n in names ==> n in g.nodes
    requires NoNewNeighbors(g, names) && NoReversedRecord(before, names) && Agrees(before, g)
    requires Kept(before, g, names, summarize, RelationRecord(a, b))
    ensures FromTo(a, b) in MergedCluster(g, names, summarize).edges
  {
    hide MergedCluster, OuterAny, FromTo, Neighbors, NoNewNeighbors, ClusterOf, BridgeKeys;
    if RelationRecord(a, b) in before && Survives(ClusterChange(g, names), RelationRecord(a, b)) {
      EndsOf(a, b);
      assert a in names[1..] || b in names[1..] ==> Normal((a, b));
      assert (a, b) !in IncidentAny(g.edges.Keys, names[1..]);
      NoNewEdges(g, names, summarize, FromTo(a, b));
    }
  }

  lemma EdgeKept(before: seq<Record>, g: Graph, names: seq<Name>, summarize: string -> string, e: Edge)
    requires ValidGraph(g) && |names| >= 2 && NoDuplicates(names) && forall n :: n in names ==> n in g.nodes
    requires NoNewNeighbors(g, names) && Agrees(before, g) && e in MergedCluster(g, names, summarize).edges
    ensures Kept(before, g, names, summarize, RelationRecord(e.0, e.1))
         || Kept(before, g, names, summarize, RelationRecord(e.1, e.0))
  {
    hide MergedCluster, OuterAny, FromTo, Neighbors, NoNewNeighbors, ClusterOf, BridgeKeys, Inserted;
    NoNewEdges(g, names, summarize, e);
    assert Normal(e);
    assert (e.0, e.1) == e;
    var c := ClusterChange(g, names);
    assert Survives(c, RelationRecord(e.0, e.1)) && Survives(c, RelationRecord(e.1, e.0));
  }

  lemma EntitiesHold(before: seq<Record>, g: Graph, names: seq<Name>, summarize: string -> string, after: seq<Record>)
    requires ValidGraph(g) && |names| >= 2 && NoDuplicates(names) && forall n :: n in names ==> n in g.nodes
    requires Agrees(before, g) && IsSetGraph(before, MergedCluster(g, names, summarize), ClusterChange(g, names), after)
    requires NoNewNeighbors(g, names) && NoReversedRecord(before, names)
    ensures EntitiesAgree(after, MergedCluster(g, names, summarize))
  {
    hide MergedCluster, FromTo, NoNewNeighbors, NoReversedRecord, ClusterChange, Survives, Inserted, Agrees;
    var m := MergedCluster(g, names, summarize);
    assert forall r :: r in after <==> Kept(before, g, names, summarize, r);
    hide Kept, IsSetGraph;
    forall n ensures EntityRecord(n) in after <==> n in m.nodes {
      EntityKept(before, g, names, summarize, n);
    }
  }

  lemma RelationsHold(before: seq<Record>, g: Graph, names: seq<Name>, summarize: string -> string, after: seq<Record>)
    requires ValidGraph(g) && |names| >= 2 && NoDuplicates(names) && forall n :: n in names ==> n in g.nodes
    requires Agrees(before, g) && IsSetGraph(before, MergedCluster(g, names, summarize), ClusterChange(g, names), after)
    requires NoNewNeighbors(g, names) && NoReversedRecord(before, names)
    ensures RelationsAreEdges(after, MergedCluster(g, names, summarize))
  {
    hide MergedCluster, FromTo, NoNewNeighbors, NoReversedRecord, ClusterChange, Survives, Inserted, Agrees;
    var m := MergedCluster(g, names, summarize);
    assert forall r :: r in after <==> Kept(before, g, names, summarize, r);
    hide Kept, IsSetGraph;
    forall a, b | RelationRecord(a, b) in after ensures FromTo(a, b) in m.edges {
      RelationKept(before, g, names, summarize, a, b);
    }
  }

  lemma EdgesHold(before: seq<Record>, g: Graph, names: seq<Name>, summarize: string -> string, after: seq<Record>)
    requires ValidGraph(g) && |names| >= 2 && NoDuplicates(names) && forall n :: n in names ==> n in g.nodes
    requires Agrees(before, g) && IsSetGraph(before, MergedCluster(g, names, summarize), ClusterChange(g, names), after)
    requires NoNewNeighbors(g, names) && NoReversedRecord(before, names)
    ensures EdgesAreRelations(after, MergedCluster(g, names, summarize))
  {
    hide MergedCluster, FromTo, NoNewNeighbors, NoReversedRecord, ClusterChange, Survives, Inserted, Agrees;
    var m := MergedCluster(g, names, summarize);
    assert forall r :: r in after <==> Kept(before, g, names, summarize, r);
    hide Kept, IsSetGraph;
    forall e | e in m.edges ensures RelationRecord(e.0, e.1) in after || RelationRecord(e.1, e.0) in after {
      EdgeKept(before, g, names, summarize, e);
    }
  }

  lemma AgreementHolds(before: seq<Record>, g: Graph, names: seq<Name>, summarize: string -> string, after: seq<Record>)
    requires ValidGraph(g) && |names| >= 2 && NoDuplicates(names) && forall n :: n in names ==> n in g.nodes
    requires Agrees(before, g) && IsSetGraph(before, MergedCluster(g, names, summarize), ClusterChange(g, names), after)
    requires NoNewNeighbors(g, names) && NoReversedRecord(before, names)
    ensures Agrees(after, MergedCluster(g, names, summarize))
  {
    hide EntitiesAgree, RelationsAreEdges, EdgesAreRelations;
    EntitiesHold(before, g, names, summarize, after);
    RelationsHold(before, g, names, summarize, after);
    EdgesHold(before, g, names, summarize, after);
  }

  // Indexing a cluster merge keeps the index in step with the graph exactly when the merge gives the
  // first node no new neighbour and no relation it deletes is on record reversed.
  lemma ClusterAgreement(before: seq<Record>, g: Graph, names: seq<Name>, summarize: string -> string, after: seq<Record>)
    requires ValidGraph(g) && |names| >= 2 && NoDuplicates(names) && forall n :: n in names ==> n in g.nodes
    requires Agrees(before, g) && IsSetGraph(before, MergedCluster(g, names, summarize), ClusterChange(g, names), after)
    ensures Agrees(after, MergedCluster(g, names, summarize)) <==> NoNewNeighbors(g, names) && NoReversedRecord(before, names)
  {
    if Agrees(after, MergedCluster(g, names, summarize)) {
      AgreementNeeds(before, g, names, summarize, after);
      AgreementNeedsOrder(before, g, names, summarize, after);
    }
    if NoNewNeighbors(g, names) && NoReversedRecord(before, names) {
      AgreementHolds(before, g, names, summarize, after);
    }
  }

  // Where the condition does not hold, set_graph leaves an index that does not agree.
  lemma Disagreement(before: seq<Record>, g: Graph, names: seq<Name>) returns (after: seq<Record>)
    requires Mergeable(g, names) && Agrees(before, g) && !(NoNewNeighbors(g, names) && NoReversedRecord(before, names))
    ensures IsSetGraph(before, MergedCluster(g, names, Unchanged), ClusterChange(g, names), after)
    ensures !Agrees(after, MergedCluster(g, names, Unchanged))
  {
    hide MergedCluster, ClusterChange, FromTo;
    after := SetGraphExists(before, MergedCluster(g, names, Unchanged), ChangeOfCluster(g, names, Unchanged));
    ClusterAgreement(before, g, names, Unchanged, after);
  }

  lemma KnownPairs()
    ensures "A" != "B" && "B" != "C" && "A" != "C"
    ensures FromTo("A", "C") == ("A", "C") && FromTo("B", "C") == ("B", "C") && FromTo("C", "B") == ("B", "C")
  {
    assert "A"[0] == 'A' && "B"[0] == 'B' && "C"[0] == 'C';
  }

  // The given nodes with the given edges among them.
  function Small(nodes: set<Name>, edges: set<Edge>): Graph
  {
    Graph(map n | n in nodes :: NodeAttr("", "", [], 0), map e | e in edges :: EdgeAttr(1.0, "", [], []), [])
  }

  // The agreement can fail: with one edge b-c, merging a and b gives a the neighbour c, and the change
  // records no relation for it.
  lemma NewNeighborIsHidden(a: Name, b: Name, c: Name) returns (after: seq<Record>)
    requires a != b && b != c && a != c && FromTo(b, c) == (b, c)
    ensures var g, before := Small({a, b, c}, {(b, c)}), [EntityRecord(a), EntityRecord(b), EntityRecord(c), RelationRecord(b, c)];
            && Mergeable(g, [a, b]) && Agrees(before, g) && NoReversedRecord(before, [a, b]) && !NoNewNeighbors(g, [a, b])
            && IsSetGraph(before, MergedCluster(g, [a, b], Unchanged), ClusterChange(g, [a, b]), after)
            && !Agrees(after, MergedCluster(g, [a, b], Unchanged))
  {
    hide FromTo, MergedCluster, ClusterChange, Small, NoReversedRecord, NoNewNeighbors, Mergeable, Agrees, IsSetGraph;
    var g, before := Small({a, b, c}, {(b, c)}), [EntityRecord(a), EntityRecord(b), EntityRecord(c), RelationRecord(b, c)];
    OneEdgeAgrees(a, b, c);
    OneEdgeIsNew(a, b, c);
    after := Disagreement(before, g, [a, b]);
  }

  lemma OneEdgeAgrees(a: Name, b: Name, c: Name)
    requires FromTo(b, c) == (b, c)
    ensures Agrees([EntityRecord(a), EntityRecord(b), EntityRecord(c), RelationRecord(b, c)], Small({a, b, c}, {(b, c)}))
  {
    hide FromTo;
  }

  lemma OneEdgeIsNew(a: Name, b: Name, c: Name)
    requires a != b && b != c && a != c && FromTo(b, c) == (b, c)
    ensures Mergeable(Small({a, b, c}, {(b, c)}), [a, b]) && !NoNewNeighbors(Small({a, b, c}, {(b, c)}), [a, b])
    ensures NoReversedRecord([EntityRecord(a), EntityRecord(b), EntityRecord(c), RelationRecord(b, c)], [a, b])
  {
    var g := Small({a, b, c}, {(b, c)});
    FromToIsUnordered(a, c, b, c);
    hide FromTo;
    assert [a, b][1..] == [b];
    assert b in [a, b][1..] && c !in [a, b] && FromTo(b, c) in g.edges && FromTo(a, c) !in g.edges;
  }

  lemma HiddenEdge() returns (g: Graph, names: seq<Name>, before: seq<Record>, after: seq<Record>)
    ensures Mergeable(g, names) && Agrees(before, g) && NoReversedRecord(before, names) && !NoNewNeighbors(g, names)
    ensures IsSetGraph(before, MergedCluster(g, names, Unchanged), ClusterChange(g, names), after)
    ensures !Agrees(after, MergedCluster(g, names, Unchanged))
  {
    hide FromTo, MergedCluster, ClusterChange, Mergeable, Agrees, NoReversedRecord, NoNewNeighbors, IsSetGraph, Small, Unchanged;
    KnownPairs();
    after := NewNeighborIsHidden("A", "B", "C");
    g, names := Small({"A", "B", "C"}, {("B", "C")}), ["A", "B"];
    before := [EntityRecord("A"), EntityRecord("B"), EntityRecord("C"), RelationRecord("B", "C")];
  }

  // It can also fail without a new neighbour: a and b both know c, and the relation of b and c is on
  // record as (c, b). The merge deletes (b, c), and the record stays.
  lemma ReversedRecordIsStale(a: Name, b: Name, c: Name) returns (after: seq<Record>)
    requires a != b && b != c && a != c && FromTo(b, c) == FromTo(c, b) == (b, c) && FromTo(a, c) == (a, c)
    ensures var g := Small({a, b, c}, {(a, c), (b, c)});
            var before := [EntityRecord(a), EntityRecord(b), EntityRecord(c), RelationRecord(a, c), RelationRecord(c, b)];
            && Mergeable(g, [a, b]) && Agrees(before, g) && NoNewNeighbors(g, [a, b]) && !NoReversedRecord(before, [a, b])
            && IsSetGraph(before, MergedCluster(g, [a, b], Unchanged), ClusterChange(g, [a, b]), after)
            && !Agrees(after, MergedCluster(g, [a, b], Unchanged))
  {
    var g := Small({a, b, c}, {(a, c), (b, c)});
    var before := [EntityRecord(a), EntityRecord(b), EntityRecord(c), RelationRecord(a, c), RelationRecord(c, b)];
    hide FromTo, MergedCluster, ClusterChange;
    assert [a, b][1..] == [b];
    assert RelationRecord(c, b) in before && b in [a, b][1..] && !Normal((c, b));
    OnlyKnownNeighbors(g, a, b, c);
    after := Disagreement(before, g, [a, b]);
  }

  lemma StaleRecord() returns (g: Graph, names: seq<Name>, before: seq<Record>, after: seq<Record>)
    ensures Mergeable(g, names) && Agrees(before, g) && NoNewNeighbors(g, names) && !NoReversedRecord(before, names)
    ensures IsSetGraph(before, MergedCluster(g, names, Unchanged), ClusterChange(g, names), after)
    ensures !Agrees(after, MergedCluster(g, names, Unchanged))
  {
    hide FromTo, MergedCluster, ClusterChange, Mergeable, Agrees, NoReversedRecord, NoNewNeighbors, IsSetGraph, Small, Unchanged;
    KnownPairs();
    after := ReversedRecordIsStale("A", "B", "C");
    g, names := Small({"A", "B", "C"}, {("A", "C"), ("B", "C")}), ["A", "B"];
    before := [EntityRecord("A"), EntityRecord("B"), EntityRecord("C"), RelationRecord("A", "C"), RelationRecord("C", "B")];
  }

  lemma OnlyKnownNeighbors(g: Graph, a: Name, b: Name, c: Name)
    requires a != b && FromTo(a, c) in g.edges && g.edges.Keys == {FromTo(a, c), FromTo(b, c)}
    ensures NoNewNeighbors(g, [a, b])
  {
    assert [a, b][1..] == [b];
    forall nb | nb !in [a, b] && FromTo(b, nb) in g.edges ensures nb == c {
      FromToIsUnordered(b, nb, a, c);
      FromToIsUnordered(b, nb, b, c);
    }
  }

  function Unchanged(description: string): string
  {
    description
  }

  // The change of a cluster, which only adds a node that the merged graph has.
  ghost function ChangeOfCluster(g: Graph, names: seq<Name>, summarize: string -> string): (c: Change)
    requires Mergeable(g, names)
    ensures c == ClusterChange(g, names) && c.addedNodes <= MergedCluster(g, names, summarize).nodes.Keys
  {
    FirstStays(g, names);
    ClusterChange(g, names)
  }

  /* ---------- several clusters, one set_graph ---------- */

  ghost predicate Mergeable(g: Graph, names: seq<Name>)
  {
    ValidGraph(g) && |names| >= 2 && NoDuplicates(names) && forall n :: n in names ==> n in g.nodes
  }

  lemma MergedClusterIsValid(g: Graph, names: seq<Name>, summarize: string -> string)
    requires Mergeable(g, names)
    ensures ValidGraph(MergedCluster(g, names, summarize))
  {
    hide OuterAny, FromTo, Neighbors;
    var m := MergedCluster(g, names, summarize);
    hide MergedCluster;
    var c := ClusterOf(g.edges.Keys, names);
    FirstStays(g, names);
    forall e | e in m.edges ensures Normal(e) && e.0 in m.nodes && e.1 in m.nodes {
      RestIsGone(g, names, summarize, e);
      if e in BridgeKeys(c, OuterAny(c, g.edges.Keys, names[1..])) {
        var nb :| nb in OuterAny(c, g.edges.Keys, names[1..]) && e == FromTo(c.first, nb);
        FromToIsNormal(c.first, nb);
        OuterAnyMeans(g, names, nb);
        var n :| n in names[1..] && FromTo(n, nb) in g.edges;
        EndsOf(n, nb);
        EndsOf(c.first, nb);
      }
    }
  }

  // Each cluster can be merged in its turn and brings its first node no new neighbour.
  ghost predicate AllMergeable(g: Graph, clusters: seq<seq<Name>>, summarize: string -> string)
    decreases |clusters|
  {
    clusters == [] ||
    (Mergeable(g, clusters[0]) && NoNewNeighbors(g, clusters[0])
     && AllMergeable(MergedCluster(g, clusters[0], summarize), clusters[1..], summarize))
  }

  ghost function AllMerged(g: Graph, clusters: seq<seq<Name>>, summarize: string -> string): Graph
    requires AllMergeable(g, clusters, summarize)
    decreases |clusters|
  {
    if clusters == [] then g else AllMerged(MergedCluster(g, clusters[0], summarize), clusters[1..], summarize)
  }

  function Both(a: Change, b: Change): Change
  {
    Change(a.removedNodes + b.removedNodes, a.addedNodes + b.addedNodes, a.removedEdges + b.removedEdges, a.addedEdges + b.addedEdges)
  }

  // The one change that all the merges fill.
  ghost function AllChanges(g: Graph, clusters: seq<seq<Name>>, summarize: string -> string): Change
    requires AllMergeable(g, clusters, summarize)
    decreases |clusters|
  {
    if clusters == [] then Change({}, {}, {}, {})
    else Both(ClusterChange(g, clusters[0]), AllChanges(MergedCluster(g, clusters[0], summarize), clusters[1..], summarize))
  }

  lemma QuietMergeKeys(g: Graph, names: seq<Name>, summarize: string -> string)
    requires Mergeable(g, names) && NoNewNeighbors(g, names)
    ensures MergedCluster(g, names, summarize).edges.Keys == g.edges.Keys - ClusterChange(g, names).removedEdges
    ensures MergedCluster(g, names, summarize).nodes.Keys == g.nodes.Keys - ClusterChange(g, names).removedNodes
    ensures forall e :: e in ClusterChange(g, names).addedEdges ==> Normal(e)
  {
    hide MergedCluster, OuterAny, FromTo, Neighbors;
    var c := ClusterOf(g.edges.Keys, names);
    var rest := names[1..];
    forall e | e in BridgeKeys(c, OuterAny(c, g.edges.Keys, rest)) ensures e in g.edges && e !in IncidentAny(g.edges.Keys, rest) {
      var nb :| nb in OuterAny(c, g.edges.Keys, rest) && e == FromTo(c.first, nb);
      OuterAnyMeans(g, names, nb);
      RestIsGone(g, names, summarize, e);
    }
  }

  lemma {:induction false} AllMergedKeys(g: Graph, clusters: seq<seq<Name>>, summarize: string -> string)
    requires AllMergeable(g, clusters, summarize)
    ensures var m, ch := AllMerged(g, clusters, summarize), AllChanges(g, clusters, summarize);
            && m.edges.Keys == g.edges.Keys - ch.removedEdges
            && m.nodes.Keys == g.nodes.Keys - ch.removedNodes
            && (forall e :: e in ch.addedEdges ==> Normal(e))
            && (forall e :: e in ch.removedEdges ==> e in g.edges && (e.0 in ch.removedNodes || e.1 in ch.removedNodes))
            && (forall e :: e in m.edges ==> e.0 !in ch.removedNodes && e.1 !in ch.removedNodes)
    decreases |clusters|
  {
    hide MergedCluster, FromTo, BridgeKeys, NoNewNeighbors;
    if clusters != [] {
      var m := MergedCluster(g, clusters[0], summarize);
      QuietMergeKeys(g, clusters[0], summarize);
      AllMergedKeys(m, clusters[1..], summarize);
      assert AllMergedStep(g, clusters[0]) by { RemovedTouch(g, clusters[0]); }
    }
  }

  ghost predicate AllMergedStep(g: Graph, names: seq<Name>)
    requires names != []
  {
    var ch := ClusterChange(g, names);
    forall e :: e in ch.removedEdges <==> e in g.edges && (e.0 in ch.removedNodes || e.1 in ch.removedNodes)
  }

  lemma RemovedTouch(g: Graph, names: seq<Name>)
    requires names != []
    ensures AllMergedStep(g, names)
  {
  }

  // Any number of clusters merged before one set_graph: the index still agrees when none of them brings
  // new neighbours and no relation at a removed node is on record reversed.
  lemma ClustersKeepAgreement(before: seq<Record>, g: Graph, clusters: seq<seq<Name>>, summarize: string -> string, after: seq<Record>)
    requires AllMergeable(g, clusters, summarize) && ValidGraph(g) && Agrees(before, g)
    requires var ch := AllChanges(g, clusters, summarize);
             && IsSetGraph(before, AllMerged(g, clusters, summarize), ch, after)
             && forall a, b :: RelationRecord(a, b) in before && (a in ch.removedNodes || b in ch.removedNodes) ==> Normal((a, b))
    ensures Agrees(after, AllMerged(g, clusters, summarize))
  {
    hide AllMerged, AllChanges, AllMergeable, FromTo;
    var m, ch := AllMerged(g, clusters, summarize), AllChanges(g, clusters, summarize);
    AllMergedKeys(g, clusters, summarize);
    forall a, b | RelationRecord(a, b) in after ensures FromTo(a, b) in m.edges {
      if RelationRecord(a, b) in before && Survives(ch, RelationRecord(a, b)) {
        EndsOf(a, b);
        assert a in ch.removedNodes || b in ch.removedNodes ==> Normal((a, b));
        assert FromTo(a, b) !in ch.removedEdges;
      }
    }
    forall e | e in m.edges ensures RelationRecord(e.0, e.1) in after || RelationRecord(e.1, e.0) in after {
      var r := if RelationRecord(e.0, e.1) in before then RelationRecord(e.0, e.1) else RelationRecord(e.1, e.0);
      assert r in before;
      assert Survives(ch, r);
    }
  }

  /* ---------- weights ---------- */

  // The weight between nb and the nodes of `rest`.
  function WeightTo(edges: map<Edge, EdgeAttr>, rest: seq<Name>, nb: Name): real
  {
    if rest == [] then 0.0
    else (if FromTo(rest[0], nb) in edges then edges[FromTo(rest[0], nb)].weight else 0.0) + WeightTo(edges, rest[1..], nb)
  }

  // The last node of `rest` that is joined to nb.
  function LastJoined(edges: map<Edge, EdgeAttr>, rest: seq<Name>, nb: Name): (n: Name)
    requires exists x :: x in rest && FromTo(x, nb) in edges
    ensures n in rest && FromTo(n, nb) in edges
  {
    if FromTo(rest[|rest| - 1], nb) in edges then rest[|rest| - 1] else LastJoined(edges, rest[..|rest| - 1], nb)
  }

  // Absorbing n touches, of nb's edges, only those to n and to the first node.
  lemma AbsorbedAt(c: Cluster, g: Graph, n: Name, nb: Name, summarize: string -> string)
    requires Ready(c, g, [n]) && nb !in c.members
    ensures var r := Absorbed(c, g, n, summarize);
            var e := FromTo(c.first, nb);
            && (FromTo(n, nb) in g.edges && (nb in c.near ==> e in g.edges) ==>
                  e in r.edges && r.edges[e] == Bridge(c, g.edges, n, nb, summarize))
            && (FromTo(n, nb) !in g.edges ==> (e in r.edges <==> e in g.edges) && (e in g.edges ==> r.edges[e] == g.edges[e]))
    ensures var r := Absorbed(c, g, n, summarize);
            forall m :: m in c.members && m != n && m != c.first ==>
              (FromTo(m, nb) in r.edges <==> FromTo(m, nb) in g.edges)
              && (FromTo(m, nb) in g.edges ==> r.edges[FromTo(m, nb)] == g.edges[FromTo(m, nb)])
  {
    hide Bridge, JoinNodes;
    assert [n][0] == n;
    ReadyIsFoldable(c, g, [n]);
    var outer := Outer(c, g.edges.Keys, n);
    BridgesAreDistinct(c, g.edges, n, outer);
    NeighborsMeans(g.edges.Keys, n, nb);
    BridgeKeysMean(c, outer, nb);
    NotIncident(c.first, nb, n);
    OwnEnd(c.first, nb);
    forall m | m in c.members && m != n && m != c.first
      ensures FromTo(m, nb) !in BridgeKeys(c, outer) && FromTo(m, nb).0 != n && FromTo(m, nb).1 != n
    {
      NotIncident(m, nb, n);
      forall x | x in outer ensures FromTo(c.first, x) != FromTo(m, nb) {
        FromToIsUnordered(c.first, x, m, nb);
      }
    }
  }

  lemma OwnEnd(a: Name, b: Name)
    ensures Other(FromTo(a, b), a) == b
  {
  }

  lemma {:induction false} WeightReads(e1: map<Edge, EdgeAttr>, e2: map<Edge, EdgeAttr>, rest: seq<Name>, nb: Name)
    requires forall m :: m in rest ==>
      (FromTo(m, nb) in e1 <==> FromTo(m, nb) in e2) && (FromTo(m, nb) in e1 ==> e1[FromTo(m, nb)] == e2[FromTo(m, nb)])
    ensures WeightTo(e1, rest, nb) == WeightTo(e2, rest, nb)
  {
    hide FromTo;
    if rest != [] {
      assert forall m :: m in rest[1..] ==> m in rest;
      WeightReads(e1, e2, rest[1..], nb);
    }
  }

  // A neighbour the first node had already keeps the total weight between it and the cluster.
  lemma {:induction false} OldNeighborKeepsWeight(c: Cluster, g: Graph, rest: seq<Name>, nb: Name, summarize: string -> string)
    requires Ready(c, g, rest) && nb !in c.members && nb in c.near
    ensures var r := FoldAll(c, g, rest, summarize);
            var e := FromTo(c.first, nb);
            e in g.edges && e in r.edges && r.edges[e].weight == g.edges[e].weight + WeightTo(g.edges, rest, nb)
    decreases |rest|
  {
    hide Absorbed, FromTo, ValidGraph;
    if rest != [] {
      var n := rest[0];
      AbsorbedIsReady(c, g, rest, summarize);
      AbsorbedAt(c, g, n, nb, summarize);
      var m := Absorbed(c, g, n, summarize);
      OldNeighborKeepsWeight(c, m, rest[1..], nb, summarize);
      WeightReads(m.edges, g.edges, rest[1..], nb);
    }
  }

  // A new neighbour gets the edge of the last absorbed node that was joined to it: the weights of the
  // others are overwritten.
  lemma {:induction false} NewNeighborKeepsLastWeight(c: Cluster, g: Graph, rest: seq<Name>, nb: Name, summarize: string -> string)
    requires Ready(c, g, rest) && nb !in c.members && nb !in c.near
    requires exists x :: x in rest && FromTo(x, nb) in g.edges
    ensures var r := FoldAll(c, g, rest, summarize);
            var e := FromTo(c.first, nb);
            e in r.edges && r.edges[e] == g.edges[FromTo(LastJoined(g.edges, rest, nb), nb)]
    decreases |rest|
  {
    hide Absorbed, FromTo, ValidGraph;
    var n := rest[0];
    AbsorbedIsReady(c, g, rest, summarize);
    AbsorbedAt(c, g, n, nb, summarize);
    var m := Absorbed(c, g, n, summarize);
    assert forall x :: x in rest[1..] ==> x in rest;
    assert forall x :: x in rest ==> x == n || x in rest[1..];
    if exists x :: x in rest[1..] && FromTo(x, nb) in m.edges {
      NewNeighborKeepsLastWeight(c, m, rest[1..], nb, summarize);
      LastOfTail(g.edges, m.edges, rest, nb);
    } else {
      UntouchedFrom(c, m, rest[1..], nb, summarize);
      LastIsFirst(g.edges, rest, nb);
    }
  }

  lemma {:induction false} UntouchedFrom(c: Cluster, g: Graph, rest: seq<Name>, nb: Name, summarize: string -> string)
    requires Ready(c, g, rest) && nb !in c.members && forall x :: x in rest ==> FromTo(x, nb) !in g.edges
    requires FromTo(c.first, nb) in g.edges
    ensures var r := FoldAll(c, g, rest, summarize);
            var e := FromTo(c.first, nb);
            e in r.edges && r.edges[e] == g.edges[e]
    decreases |rest|
  {
    hide Absorbed, FromTo, ValidGraph;
    if rest != [] {
      AbsorbedIsReady(c, g, rest, summarize);
      AbsorbedAt(c, g, rest[0], nb, summarize);
      UntouchedFrom(c, Absorbed(c, g, rest[0], summarize), rest[1..], nb, summarize);
    }
  }

  lemma {:induction false} LastOfTail(e0: map<Edge, EdgeAttr>, e1: map<Edge, EdgeAttr>, rest: seq<Name>, nb: Name)
    requires rest != [] && exists x :: x in rest[1..] && FromTo(x, nb) in e1
    requires forall m :: m in rest[1..] ==> (FromTo(m, nb) in e1 <==> FromTo(m, nb) in e0)
    ensures (exists x :: x in rest && FromTo(x, nb) in e0) && LastJoined(e0, rest, nb) == LastJoined(e1, rest[1..], nb)
    decreases |rest|
  {
    hide FromTo;
    var x :| x in rest[1..] && FromTo(x, nb) in e1;
    assert x in rest;
    var tail := rest[1..];
    assert tail[|tail| - 1] == rest[|rest| - 1];
    if FromTo(tail[|tail| - 1], nb) !in e1 {
      var front := rest[..|rest| - 1];
      assert front[1..] == tail[..|tail| - 1];
      assert tail == front[1..] + [tail[|tail| - 1]];
      assert x in front[1..];
      LastOfTail(e0, e1, front, nb);
    }
  }

  lemma {:induction false} LastIsFirst(edges: map<Edge, EdgeAttr>, rest: seq<Name>, nb: Name)
    requires rest != [] && FromTo(rest[0], nb) in edges && forall x :: x in rest[1..] ==> FromTo(x, nb) !in edges
    ensures LastJoined(edges, rest, nb) == rest[0]
    decreases |rest|
  {
    hide FromTo;
    if |rest| > 1 {
      var front := rest[..|rest| - 1];
      assert rest[1..][|rest| - 2] == rest[|rest| - 1];
      assert forall x :: x in front[1..] ==> x in rest[1..];
      LastIsFirst(edges, front, nb);
    }
  }
}
