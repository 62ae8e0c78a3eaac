/** What a merge keeps of every name: type, texts and lists of nodes and edges, for two graphs and for a list, and what
    the ranks add up to. */
module MergedContents {
  import opened Common
  import opened Graphs
  import opened MergeOrder

  /* ---------- two graphs ---------- */

  // Every attribute but the rank.
  predicate SameButRank(a: NodeAttr, b: NodeAttr)
  {
    a.entityType == b.entityType && a.description == b.description && a.sourceId == b.sourceId
  }

  // A node of both graphs keeps its type and has both texts and both lists, the old ones first; a node of one graph is as
  // it was, but for its rank.
  lemma MergedNodes(g1: Graph, g2: Graph, n: Name)
    ensures var m := Merged(g1, g2);
            && (n in m.nodes <==> n in g1.nodes || n in g2.nodes)
            && (n in g1.nodes && n in g2.nodes ==>
                  && m.nodes[n].entityType == g1.nodes[n].entityType
                  && m.nodes[n].description == g1.nodes[n].description + "<SEP>" + g2.nodes[n].description
                  && m.nodes[n].sourceId == g1.nodes[n].sourceId + g2.nodes[n].sourceId)
            && (n in g1.nodes && n !in g2.nodes ==> SameButRank(m.nodes[n], g1.nodes[n]))
            && (n in g2.nodes && n !in g1.nodes ==> SameButRank(m.nodes[n], g2.nodes[n]))
  {
  }

  lemma MergedEdges(g1: Graph, g2: Graph, e: Edge)
    ensures var m := Merged(g1, g2);
            && m.docs == g1.docs + g2.docs
            && (e in m.edges <==> e in g1.edges || e in g2.edges)
            && (e in g1.edges && e in g2.edges ==>
                  && m.edges[e].weight == g1.edges[e].weight + g2.edges[e].weight
                  && m.edges[e].description == g1.edges[e].description + "<SEP>" + g2.edges[e].description
                  && m.edges[e].keywords == g1.edges[e].keywords + g2.edges[e].keywords
                  && m.edges[e].sourceId == g1.edges[e].sourceId + g2.edges[e].sourceId)
            && (e in g1.edges && e !in g2.edges ==> m.edges[e] == g1.edges[e])
            && (e in g2.edges && e !in g1.edges ==> m.edges[e] == g2.edges[e])
  {
  }

  /* ---------- a list of graphs ---------- */

  // "x<SEP>y<SEP>z"
  function Texts(parts: seq<string>): string
  {
    if parts == [] then ""
    else if |parts| == 1 then parts[0]
    else Texts(parts[..|parts| - 1]) + "<SEP>" + parts[|parts| - 1]
  }

  // What the graphs that have the name say of it, in their order.
  function NodeTexts(gs: seq<Graph>, n: Name): seq<string>
  {
    if gs == [] then []
    else
      var last := gs[|gs| - 1];
      NodeTexts(gs[..|gs| - 1], n) + if n in last.nodes then [last.nodes[n].description] else []
  }

  function EdgeTexts(gs: seq<Graph>, e: Edge): seq<string>
  {
    if gs == [] then []
    else
      var last := gs[|gs| - 1];
      EdgeTexts(gs[..|gs| - 1], e) + if e in last.edges then [last.edges[e].description] else []
  }

  // The first graph that has the name tells its type.
  ghost predicate FirstTells(gs: seq<Graph>, n: Name, t: string)
  {
    exists i :: 0 <= i < |gs| && n in gs[i].nodes && gs[i].nodes[n].entityType == t && forall j :: 0 <= j < i ==> n !in gs[j].nodes
  }

  lemma TextsOneMore(parts: seq<string>, part: string)
    requires parts != []
    ensures Texts(parts + [part]) == Texts(parts) + "<SEP>" + part
  {
    assert (parts + [part])[..|parts|] == parts;
  }

  lemma NodeTextsOneMore(gs: seq<Graph>, g: Graph, n: Name)
    ensures NodeTexts(gs + [g], n) == NodeTexts(gs, n) + if n in g.nodes then [g.nodes[n].description] else []
  {
    assert (gs + [g])[..|gs|] == gs;
  }

  lemma EdgeTextsOneMore(gs: seq<Graph>, g: Graph, e: Edge)
    ensures EdgeTexts(gs + [g], e) == EdgeTexts(gs, e) + if e in g.edges then [g.edges[e].description] else []
  {
    assert (gs + [g])[..|gs|] == gs;
  }

  lemma FirstTellsOneMore(gs: seq<Graph>, g: Graph, n: Name, t: string)
    ensures FirstTells(gs, n, t) ==> FirstTells(gs + [g], n, t)
    ensures (forall i :: 0 <= i < |gs| ==> n !in gs[i].nodes) && n in g.nodes ==> FirstTells(gs + [g], n, g.nodes[n].entityType)
  {
    var all := gs + [g];
    assert all[|gs|] == g && forall i :: 0 <= i < |gs| ==> all[i] == gs[i];
  }

  lemma {:induction false} NoNodeTexts(gs: seq<Graph>, n: Name)
    ensures NodeTexts(gs, n) == [] <==> forall i :: 0 <= i < |gs| ==> n !in gs[i].nodes
  {
    if gs != [] {
      NoNodeTexts(gs[..|gs| - 1], n);
      var front := gs[..|gs| - 1];
      assert forall i :: 0 <= i < |front| ==> front[i] == gs[i];
    }
  }

  // Merging a list joins what the graphs say of a name, in their order.
  lemma {:induction false} NodeOfList(g: Graph, gs: seq<Graph>, n: Name)
    ensures var m := MergeInto(g, gs);
            && (n in m.nodes <==> NodeTexts([g] + gs, n) != [])
            && (n in m.nodes ==> m.nodes[n].description == Texts(NodeTexts([g] + gs, n)))
    decreases |gs|
  {
    if gs == [] {
      assert [g] + gs == [] + [g];
      NodeTextsOneMore([], g, n);
    } else {
      hide Merged, MergeInto, NodeTexts, Texts;
      var front, last := gs[..|gs| - 1], gs[|gs| - 1];
      NodeOfList(g, front, n);
      var before := MergeInto(g, front);
      assert gs == front + [last] && [g] + gs == [g] + front + [last];
      MergeIntoLast(g, front, last);
      MergedNodes(before, last, n);
      NodeTextsOneMore([g] + front, last, n);
      if n in before.nodes && n in last.nodes {
        TextsOneMore(NodeTexts([g] + front, n), last.nodes[n].description);
      } else if n in before.nodes {
        assert NodeTexts([g] + front, n) + [] == NodeTexts([g] + front, n);
      } else if n in last.nodes {
        OneText(last.nodes[n].description);
        assert [] + [last.nodes[n].description] == [last.nodes[n].description];
      }
    }
  }

  lemma NotYetTold(g: Graph, gs: seq<Graph>, n: Name)
    requires n !in MergeInto(g, gs).nodes
    ensures forall i :: 0 <= i < |[g] + gs| ==> n !in ([g] + gs)[i].nodes
  {
    hide MergeInto, NodeTexts;
    NodeOfList(g, gs, n);
    NoNodeTexts([g] + gs, n);
  }

  // The type is the one the first graph with the name tells.
  lemma {:induction false} TypeOfList(g: Graph, gs: seq<Graph>, n: Name)
    requires n in MergeInto(g, gs).nodes
    ensures FirstTells([g] + gs, n, MergeInto(g, gs).nodes[n].entityType)
    decreases |gs|
  {
    if gs == [] {
      assert [g] + gs == [] + [g];
      FirstTellsOneMore([], g, n, "");
    } else {
      var front, last := gs[..|gs| - 1], gs[|gs| - 1];
      assert gs == front + [last];
      hide MergeInto, FirstTells;
      if n in MergeInto(g, front).nodes {
        TypeOfList(g, front, n);
      }
      TypeOneMore(g, front, last, n);
    }
  }

  lemma TypeOneMore(g: Graph, front: seq<Graph>, last: Graph, n: Name)
    requires n in MergeInto(g, front).nodes ==> FirstTells([g] + front, n, MergeInto(g, front).nodes[n].entityType)
    requires n in MergeInto(g, front + [last]).nodes
    ensures FirstTells([g] + (front + [last]), n, MergeInto(g, front + [last]).nodes[n].entityType)
  {
    hide Merged, MergeInto, FirstTells;
    MergeIntoLast(g, front, last);
    MergedNodes(MergeInto(g, front), last, n);
    Associates([g], front, [last]);
    if n in MergeInto(g, front).nodes {
      FirstTellsOneMore([g] + front, last, n, MergeInto(g, front).nodes[n].entityType);
    } else {
      NotYetTold(g, front, n);
      FirstTellsOneMore([g] + front, last, n, "");
    }
  }

  lemma OneText(part: string)
    ensures Texts([part]) == part
  {
  }

  lemma {:induction false} EdgeOfList(g: Graph, gs: seq<Graph>, e: Edge)
    ensures var m := MergeInto(g, gs);
            && (e in m.edges <==> EdgeTexts([g] + gs, e) != [])
            && (e in m.edges ==> m.edges[e].description == Texts(EdgeTexts([g] + gs, e)))
    decreases |gs|
  {
    if gs == [] {
      assert [g] + gs == [] + [g];
      EdgeTextsOneMore([], g, e);
    } else {
      var front, last := gs[..|gs| - 1], gs[|gs| - 1];
      EdgeOfList(g, front, e);
      var before := MergeInto(g, front);
      assert gs == front + [last] && [g] + gs == [g] + front + [last];
      MergeIntoLast(g, front, last);
      MergedEdges(before, last, e);
      hide Merged, MergeInto, EdgeTexts, Texts;
      EdgeTextsOneMore([g] + front, last, e);
      if e in before.edges && e in last.edges {
        TextsOneMore(EdgeTexts([g] + front, e), last.edges[e].description);
      } else if e in before.edges {
        assert EdgeTexts([g] + front, e) + [] == EdgeTexts([g] + front, e);
      } else if e in last.edges {
        OneText(last.edges[e].description);
        assert [] + [last.edges[e].description] == [last.edges[e].description];
      }
    }
  }

  /* ---------- ranks ---------- */

  function RankSum(nodes: map<Name, NodeAttr>, names: seq<Name>): int
    requires forall n :: n in names ==> n in nodes
  {
    if names == [] then 0 else RankSum(nodes, names[..|names| - 1]) + nodes[names[|names| - 1]].rank
  }

  function DegreeSum(edges: set<Edge>, names: seq<Name>): int
  {
    if names == [] then 0 else DegreeSum(edges, names[..|names| - 1]) + Degree(edges, names[|names| - 1])
  }

  // How often x is among the names.
  function Occurs(names: seq<Name>, x: Name): nat
  {
    if names == [] then 0 else Occurs(names[..|names| - 1], x) + if names[|names| - 1] == x then 1 else 0
  }

  lemma {:induction false} OccursOnce(names: seq<Name>, x: Name)
    requires NoDuplicates(names)
    ensures Occurs(names, x) == if x in names then 1 else 0
  {
    if names != [] {
      var front, last := names[..|names| - 1], names[|names| - 1];
      OccursOnce(front, x);
      assert names == front + [last] && last !in front;
    }
  }

  lemma DegreeOneMore(edges: set<Edge>, e: Edge, n: Name)
    requires e !in edges
    ensures Degree(edges + {e}, n) == Degree(edges, n) + (if e.0 == n then 1 else 0) + (if e.1 == n then 1 else 0)
  {
    assert e == (e.0, e.1);
    if e.0 == n || e.1 == n {
      assert Incident(edges + {e}, n) == Incident(edges, n) + {e};
    } else {
      assert Incident(edges + {e}, n) == Incident(edges, n);
    }
  }

  lemma {:induction false} DegreesOneMore(edges: set<Edge>, e: Edge, names: seq<Name>)
    requires e !in edges
    ensures DegreeSum(edges + {e}, names) == DegreeSum(edges, names) + Occurs(names, e.0) + Occurs(names, e.1)
  {
    hide Degree;
    if names != [] {
      DegreesOneMore(edges, e, names[..|names| - 1]);
      DegreeOneMore(edges, e, names[|names| - 1]);
    }
  }

  lemma {:induction false} NoDegrees(names: seq<Name>)
    ensures DegreeSum({}, names) == 0
  {
    if names != [] {
      NoDegrees(names[..|names| - 1]);
      assert Incident({}, names[|names| - 1]) == {};
    }
  }

  lemma {:induction false} DegreesCountEnds(edges: set<Edge>, names: seq<Name>)
    requires NoDuplicates(names) && forall e :: e in edges ==> e.0 in names && e.1 in names
    ensures DegreeSum(edges, names) == 2 * |edges|
    decreases |edges|
  {
    hide DegreeSum;
    if edges == {} {
      NoDegrees(names);
    } else {
      var e :| e in edges;
      DegreesCountEnds(edges - {e}, names);
      DegreesOneMore(edges - {e}, e, names);
      OccursOnce(names, e.0);
      OccursOnce(names, e.1);
      assert edges - {e} + {e} == edges;
    }
  }

  lemma {:induction false} RanksAreDegrees(g: Graph, names: seq<Name>)
    requires forall n :: n in names ==> n in g.nodes
    requires forall n :: n in g.nodes ==> g.nodes[n].rank == Degree(g.edges.Keys, n)
    ensures RankSum(g.nodes, names) == DegreeSum(g.edges.Keys, names)
  {
    hide Degree;
    if names != [] {
      RanksAreDegrees(g, names[..|names| - 1]);
      assert names[|names| - 1] in names;
    }
  }

  // After a merge the ranks of all nodes add up to twice the number of edges: every edge counts at both its ends, and a
  // self-loop twice at its one end.
  lemma RanksCountEnds(g: Graph, gs: seq<Graph>, names: seq<Name>)
    requires gs != [] && ValidGraph(g) && forall i :: 0 <= i < |gs| ==> ValidGraph(gs[i])
    requires NoDuplicates(names) && forall n :: n in names <==> n in MergeInto(g, gs).nodes
    ensures RankSum(MergeInto(g, gs).nodes, names) == 2 * |MergeInto(g, gs).edges.Keys|
  {
    hide Degree, MergeInto, RankSum, DegreeSum;
    var m := MergeInto(g, gs);
    MergedRanks(g, gs);
    ListIsValid(g, gs);
    RanksAreDegrees(m, names);
    DegreesCountEnds(m.edges.Keys, names);
  }

  lemma {:induction false} ListIsValid(g: Graph, gs: seq<Graph>)
    requires ValidGraph(g) && forall i :: 0 <= i < |gs| ==> ValidGraph(gs[i])
    ensures ValidGraph(MergeInto(g, gs))
    decreases |gs|
  {
    hide Merged, ValidGraph;
    if gs != [] {
      MergedIsValid(g, gs[0]);
      ListIsValid(Merged(g, gs[0]), gs[1..]);
    }
  }
}
