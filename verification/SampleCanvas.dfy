/** The iteration canvas that the repository ships, whose last body component names the item as its next
    step: it meets the conditions of the termination, iteration and control theorems. */
module SampleCanvas {
  import opened ControlReturns
  import opened Design
  import opened ForkedCanvas
  import opened LoopRuns
  import opened Options
  import opened StructuredCanvas

  // The ids, in the order of the canvas.
  datatype Names = Names(plan: Id, box: Id, item: Id, search: Id, write: Id, say: Id)

  predicate AllDifferent(n: Names)
  {
    && "begin" != n.plan && "begin" != n.box && "begin" != n.item && "begin" != n.search && "begin" != n.write && "begin" != n.say
    && n.plan != n.box && n.plan != n.item && n.plan != n.search && n.plan != n.write && n.plan != n.say
    && n.box != n.item && n.box != n.search && n.box != n.write && n.box != n.say
    && n.item != n.search && n.item != n.write && n.item != n.say
    && n.search != n.write && n.search != n.say && n.write != n.say
  }

  function Step(kind: Kind, refs: seq<Id>, downstream: seq<Id>, parent: Option<Id>): Component
  {
    Component(kind, refs, downstream, parent, NoHandler, [], 0)
  }

  function Iterated(n: Names): Design
  {
    Design(["begin", n.plan, n.box, n.item, n.search, n.write, n.say],
           map["begin" := Step(Begin, [], [n.plan], None),
               n.plan := Step(Other, [], [n.box], None),
               n.box := Step(Iteration, [n.plan], [n.say], None),
               n.item := Step(IterationItem, [], [n.search], Some(n.box)),
               n.search := Step(Other, [n.item], [n.write], Some(n.box)),
               n.write := Step(Other, [n.search, n.item], [n.item], Some(n.box)),
               n.say := Step(Message, [n.box], [], None)])
  }

  lemma Lookups(n: Names)
    requires AllDifferent(n)
    ensures var c := Iterated(n).comps;
            && c.Keys == {"begin", n.plan, n.box, n.item, n.search, n.write, n.say}
            && c["begin"] == Step(Begin, [], [n.plan], None) && c[n.plan] == Step(Other, [], [n.box], None)
            && c[n.box] == Step(Iteration, [n.plan], [n.say], None)
            && c[n.item] == Step(IterationItem, [], [n.search], Some(n.box))
            && c[n.search] == Step(Other, [n.item], [n.write], Some(n.box))
            && c[n.write] == Step(Other, [n.search, n.item], [n.item], Some(n.box))
            && c[n.say] == Step(Message, [n.box], [], None)
    ensures n.item in Iterated(n).order
  {
    assert Iterated(n).order[3] == n.item;
  }

  lemma SampleIsWellFormed(n: Names)
    requires AllDifferent(n)
    ensures WellFormed(Iterated(n)) && GetStart(Iterated(n), n.box) == n.item
  {
    hide Iterated, FindStart;
    var d := Iterated(n);
    Lookups(n);
    assert FindStart(d, n.box, d.order).Some? by {
      assert IsStartOf(d, n.box, n.item);
    }
    forall id | id in d.comps ensures WellFormedComponent(d, id) {
    }
    assert IsStartOf(d, n.box, GetStart(d, n.box));
  }

  // A component with the one next step y, which goes down in rank or back to the item.
  lemma LeadsTo(d: Design, rank: map<Id, nat>, x: Id, y: Id, kind: Kind, refs: seq<Id>, parent: Option<Id>)
    requires WellFormed(d) && rank.Keys == d.comps.Keys && x in d.comps && d.comps[x] == Step(kind, refs, [y], parent)
    requires y in d.comps && d.comps[y].parent == parent
    requires BackTo(d, d.comps[x], y) || (rank[y] < rank[x] && !IsItem(d.comps[y].kind))
    requires parent.Some? ==> parent.value in d.comps && rank[x] < rank[parent.value] && IsContainer(d.comps[parent.value].kind)
    requires IsItem(kind) ==> parent.Some? && GetStart(d, parent.value) == x
    ensures StructuredAt(d, rank, x)
  {
    hide WellFormed, BackTo, GetStart;
    assert Targets(d.comps[x]) == [y];
  }

  lemma LeadsNowhere(d: Design, rank: map<Id, nat>, x: Id, kind: Kind, refs: seq<Id>)
    requires WellFormed(d) && rank.Keys == d.comps.Keys && x in d.comps && d.comps[x] == Step(kind, refs, [], None)
    requires !IsItem(kind)
    ensures StructuredAt(d, rank, x)
  {
    hide WellFormed;
    assert Targets(d.comps[x]) == [];
  }

  lemma SampleIsStructured(n: Names) returns (rank: map<Id, nat>)
    requires AllDifferent(n) && WellFormed(Iterated(n)) && GetStart(Iterated(n), n.box) == n.item
    ensures Structured(Iterated(n), rank) && HighRank(rank, 6)
  {
    hide Iterated, WellFormed, GetStart, StructuredAt, AllDifferent;
    var d := Iterated(n);
    rank := map["begin" := 6, n.plan := 5, n.box := 4, n.item := 3, n.search := 2, n.write := 1, n.say := 0];
    Lookups(n);
    Ranks(n, rank);
    LeadsTo(d, rank, "begin", n.plan, Begin, [], None);
    LeadsTo(d, rank, n.plan, n.box, Other, [], None);
    LeadsTo(d, rank, n.box, n.say, Iteration, [n.plan], None);
    LeadsTo(d, rank, n.item, n.search, IterationItem, [], Some(n.box));
    LeadsTo(d, rank, n.search, n.write, Other, [n.item], Some(n.box));
    LeadsTo(d, rank, n.write, n.item, Other, [n.search, n.item], Some(n.box));
    LeadsNowhere(d, rank, n.say, Message, [n.box]);
  }

  lemma Ranks(n: Names, rank: map<Id, nat>)
    requires AllDifferent(n)
    requires rank == map["begin" := 6, n.plan := 5, n.box := 4, n.item := 3, n.search := 2, n.write := 1, n.say := 0]
    ensures rank.Keys == {"begin", n.plan, n.box, n.item, n.search, n.write, n.say}
    ensures HighRank(rank, 6) && rank["begin"] == 6 && rank[n.plan] == 5 && rank[n.box] == 4 && rank[n.item] == 3
    ensures rank[n.search] == 2 && rank[n.write] == 1 && rank[n.say] == 0
  {
  }

  lemma SampleIsSequential(n: Names)
    requires AllDifferent(n)
    ensures Sequential(Iterated(n))
  {
    hide Iterated, AllDifferent;
    Lookups(n);
  }

  lemma SampleIsChain(n: Names)
    requires AllDifferent(n) && WellFormed(Iterated(n)) && GetStart(Iterated(n), n.box) == n.item
    ensures ChainLoop(Iterated(n), n.box, n.item, [n.search, n.write])
  {
    hide Iterated, WellFormed, GetStart, AllDifferent;
    Lookups(n);
    var d, body := Iterated(n), [n.search, n.write];
    assert AllIn(body, d.comps);
    assert LinkAt(d, n.box, n.item, body, 0) && LinkAt(d, n.box, n.item, body, 1);
  }

  lemma SampleKeepsGoing(n: Names, rank: map<Id, nat>)
    requires AllDifferent(n) && WellFormed(Iterated(n)) && Structured(Iterated(n), rank) && HighRank(rank, 6)
    ensures BodyKeepsGoing(Iterated(n), rank, 6, n.box)
  {
    hide Iterated, WellFormed, GetStart, Structured, LeadsOn, AllDifferent, HighRank;
    Lookups(n);
    var d := Iterated(n);
    forall x | x in d.comps && Inside(d, rank, 6, n.box, x) ensures KeepsGoing(d, n.box, x) {
      InsideParent(d, rank, 6, n.box, x);
      assert x in {n.item, n.search, n.write};
      NextDiffers(n);
    }
  }

  lemma NextDiffers(n: Names)
    requires AllDifferent(n)
    ensures LeadsOn([n.search], n.item) && LeadsOn([n.write], n.search) && LeadsOn([n.item], n.write)
  {
    OnlyItself(n.item);
    OnlyItself(n.search);
    OnlyItself(n.write);
  }

  // The whole wiring meets what the theorems ask for.
  lemma SampleMeetsConditions(n: Names) returns (rank: map<Id, nat>)
    requires AllDifferent(n)
    ensures WellFormed(Iterated(n)) && Structured(Iterated(n), rank) && ForksApart(Iterated(n))
    ensures ChainLoop(Iterated(n), n.box, n.item, [n.search, n.write])
    ensures HighRank(rank, 6) && BodyKeepsGoing(Iterated(n), rank, 6, n.box)
  {
    hide Iterated, WellFormed, GetStart, Structured, Sequential, ForksApart, ChainLoop, AllDifferent, HighRank, BodyKeepsGoing;
    SampleIsWellFormed(n);
    rank := SampleIsStructured(n);
    SampleIsChain(n);
    SampleIsSequential(n);
    SequentialIsApart(Iterated(n));
    SampleKeepsGoing(n, rank);
  }
}
