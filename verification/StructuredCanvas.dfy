/** Canvases whose only cycles run from the end of a chain-shaped body back to its item: every one of
    them has prices, so every orderly run on it stops. */
module StructuredCanvas {
  import opened Common
  import opened Options
  import opened Design
  import opened Scheduler
  import opened CanvasRuns
  import opened Termination

  function Flatten(lists: seq<seq<Id>>): seq<Id>
  {
    if lists == [] then [] else lists[0] + Flatten(lists[1..])
  }

  function Goto(c: Component): seq<Id>
  {
    if c.handler.Handler? then c.handler.goto else []
  }

  // Everything a component names as a next step itself.
  function Targets(c: Component): seq<Id>
  {
    c.downstream + Goto(c) + Flatten(c.routes)
  }

  // The step from inside a container back to its item.
  ghost predicate BackTo(d: Design, c: Component, y: Id)
    requires WellFormed(d)
  {
    c.parent.Some? && c.parent.value in d.comps && IsContainer(d.comps[c.parent.value].kind) && y == GetStart(d, c.parent.value)
  }

  // The next steps that do not lead back.
  ghost function Onward(d: Design, c: Component, ids: seq<Id>): (r: seq<Id>)
    requires WellFormed(d)
    ensures |r| <= |ids| && forall y :: y in r ==> y in ids && !BackTo(d, c, y)
  {
    if ids == [] then []
    else (if BackTo(d, c, ids[0]) then [] else [ids[0]]) + Onward(d, c, ids[1..])
  }

  // Next steps stay on the component's own level and go down in rank, or lead back to the container's
  // item; inside a container every step appends at most one entry; an item is its container's start, has
  // no goto, and is reached in no other way.
  ghost predicate StructuredAt(d: Design, rank: map<Id, nat>, x: Id)
    requires WellFormed(d) && rank.Keys == d.comps.Keys && x in d.comps
  {
    var c := d.comps[x];
    && (forall y :: y in Targets(c) ==>
          y in d.comps && d.comps[y].parent == c.parent
          && (BackTo(d, c, y) || (rank[y] < rank[x] && !IsItem(d.comps[y].kind))))
    && (c.parent.Some? ==>
          && c.parent.value in d.comps && rank[x] < rank[c.parent.value] && IsContainer(d.comps[c.parent.value].kind)
          && |c.downstream| <= 1 && |Goto(c)| <= 1 && (forall k :: 0 <= k < |c.routes| ==> |c.routes[k]| <= 1))
    && (IsItem(c.kind) ==> Goto(c) == [] && c.parent.Some? && GetStart(d, c.parent.value) == x)
  }

  ghost predicate Structured(d: Design, rank: map<Id, nat>)
    requires WellFormed(d)
  {
    rank.Keys == d.comps.Keys && forall x {:trigger StructuredAt(d, rank, x)} :: x in d.comps ==> StructuredAt(d, rank, x)
  }

  /* ---------- prices of a structured canvas ---------- */

  ghost predicate Below(d: Design, rank: map<Id, nat>, ids: seq<Id>, bound: nat)
    requires rank.Keys == d.comps.Keys
  {
    forall y :: y in ids ==> y in d.comps && rank[y] < bound
  }

  lemma OnwardIsBelow(d: Design, rank: map<Id, nat>, x: Id, ids: seq<Id>)
    requires WellFormed(d) && Structured(d, rank) && x in d.comps && forall y :: y in ids ==> y in Targets(d.comps[x])
    ensures Below(d, rank, Onward(d, d.comps[x], ids), rank[x])
    ensures forall y :: y in Onward(d, d.comps[x], ids) ==> d.comps[y].parent == d.comps[x].parent && !IsItem(d.comps[y].kind)
  {
    hide Targets, Onward, BackTo;
    assert StructuredAt(d, rank, x);
  }

  // What it takes to get from x to the end of its level.
  ghost function Delta(d: Design, rank: map<Id, nat>, cap: nat, x: Id): (n: nat)
    requires WellFormed(d) && Structured(d, rank) && x in d.comps
    ensures n >= 1
    decreases rank[x], 1, 0
  {
    OnwardIsBelow(d, rank, x, Targets(d.comps[x]));
    1 + SumDelta(d, rank, cap, Onward(d, d.comps[x], Targets(d.comps[x])), rank[x])
      + if IsContainer(d.comps[x].kind) then 1 + AllPasses(d, rank, cap, x) else 0
  }

  ghost function SumDelta(d: Design, rank: map<Id, nat>, cap: nat, ids: seq<Id>, bound: nat): nat
    requires WellFormed(d) && Structured(d, rank) && Below(d, rank, ids, bound)
    decreases bound, 0, |ids|
  {
    if ids == [] then 0
    else SumDelta(d, rank, cap, ids[..|ids| - 1], bound) + Delta(d, rank, cap, ids[|ids| - 1])
  }

  lemma StartIsBelow(d: Design, rank: map<Id, nat>, x: Id)
    requires WellFormed(d) && Structured(d, rank) && x in d.comps && IsContainer(d.comps[x].kind)
    ensures var item := GetStart(d, x);
            IsItem(d.comps[item].kind) && d.comps[item].parent == Some(x)
            && Below(d, rank, Onward(d, d.comps[item], d.comps[item].downstream), rank[x])
  {
    hide Onward, BackTo;
    var item := GetStart(d, x);
    assert StructuredAt(d, rank, item);
    forall y | y in d.comps[item].downstream ensures y in Targets(d.comps[item]) {
    }
    OnwardIsBelow(d, rank, item, d.comps[item].downstream);
  }

  // One pass through the body of container x.
  ghost function OnePass(d: Design, rank: map<Id, nat>, cap: nat, x: Id): nat
    requires WellFormed(d) && Structured(d, rank) && x in d.comps && IsContainer(d.comps[x].kind)
    decreases rank[x], 0, |d.comps[GetStart(d, x)].downstream| + 1
  {
    StartIsBelow(d, rank, x);
    1 + SumDelta(d, rank, cap, Onward(d, d.comps[GetStart(d, x)], d.comps[GetStart(d, x)].downstream), rank[x])
  }

  ghost function AllPasses(d: Design, rank: map<Id, nat>, cap: nat, x: Id): nat
    requires WellFormed(d) && Structured(d, rank) && x in d.comps && IsContainer(d.comps[x].kind)
    decreases rank[x], 0, |d.comps[GetStart(d, x)].downstream| + 2
  {
    StartIsBelow(d, rank, x);
    (Top(d, GetStart(d, x), cap) + 1) * OnePass(d, rank, cap, x)
  }

  // What it takes to leave the containers x lies in; `high` bounds the ranks.
  ghost function Base(d: Design, rank: map<Id, nat>, cap: nat, high: nat, x: Id): nat
    requires WellFormed(d) && Structured(d, rank) && x in d.comps
    requires forall y :: y in rank ==> rank[y] <= high
    decreases high - rank[x], 0
  {
    assert StructuredAt(d, rank, x);
    if d.comps[x].parent == None then 0 else ItemPrice(d, rank, cap, high, d.comps[x].parent.value)
  }

  ghost function ItemPrice(d: Design, rank: map<Id, nat>, cap: nat, high: nat, x: Id): nat
    requires WellFormed(d) && Structured(d, rank) && x in d.comps && IsContainer(d.comps[x].kind)
    requires forall y :: y in rank ==> rank[y] <= high
    decreases high - rank[x], 1
  {
    assert StructuredAt(d, rank, x);
    OnwardIsBelow(d, rank, x, d.comps[x].downstream);
    Base(d, rank, cap, high, x) + 1 + AllPasses(d, rank, cap, x)
    + SumDelta(d, rank, cap, Onward(d, d.comps[x], d.comps[x].downstream), rank[x])
  }

  ghost predicate HighRank(rank: map<Id, nat>, high: nat)
  {
    forall y :: y in rank ==> rank[y] <= high
  }

  ghost function EntryPrice(d: Design, rank: map<Id, nat>, cap: nat, high: nat, x: Id): nat
    requires WellFormed(d) && Structured(d, rank) && x in d.comps && HighRank(rank, high)
  {
    assert StructuredAt(d, rank, x);
    if IsItem(d.comps[x].kind) then ItemPrice(d, rank, cap, high, d.comps[x].parent.value)
    else Base(d, rank, cap, high, x) + Delta(d, rank, cap, x)
  }

  ghost function PassPrice(d: Design, rank: map<Id, nat>, cap: nat, x: Id): nat
    requires WellFormed(d) && Structured(d, rank) && x in d.comps
  {
    assert StructuredAt(d, rank, x);
    if IsItem(d.comps[x].kind) then OnePass(d, rank, cap, d.comps[x].parent.value) else 0
  }

  lemma {:induction false} SumSplits(d: Design, rank: map<Id, nat>, cap: nat, a: seq<Id>, b: seq<Id>, bound: nat)
    requires WellFormed(d) && Structured(d, rank) && Below(d, rank, a + b, bound)
    ensures Below(d, rank, a, bound) && Below(d, rank, b, bound)
    ensures SumDelta(d, rank, cap, a + b, bound) == SumDelta(d, rank, cap, a, bound) + SumDelta(d, rank, cap, b, bound)
    decreases |b|
  {
    hide Delta, Structured;
    assert forall y :: y in a ==> y in a + b;
    assert forall y :: y in b ==> y in a + b;
    if b == [] {
      assert a + b == a;
    } else {
      assert (a + b)[..|a + b| - 1] == a + b[..|b| - 1];
      SumSplits(d, rank, cap, a, b[..|b| - 1], bound);
    }
  }

  lemma OnwardFirst(d: Design, c: Component, y: Id, ids: seq<Id>)
    requires WellFormed(d)
    ensures Onward(d, c, [y] + ids) == (if BackTo(d, c, y) then [] else [y]) + Onward(d, c, ids)
  {
    hide BackTo, WellFormed;
    assert ([y] + ids)[1..] == ids;
  }

  lemma {:induction false} OnwardSplits(d: Design, c: Component, a: seq<Id>, b: seq<Id>)
    requires WellFormed(d)
    ensures Onward(d, c, a + b) == Onward(d, c, a) + Onward(d, c, b)
  {
    if a == [] {
      assert a + b == b && Onward(d, c, a) == [];
    } else {
      hide BackTo, WellFormed, Onward;
      OnwardSplits(d, c, a[1..], b);
      OnwardFirst(d, c, a[0], a[1..]);
      OnwardFirst(d, c, a[0], a[1..] + b);
      Uncons(a, b);
      Associates(if BackTo(d, c, a[0]) then [] else [a[0]], Onward(d, c, a[1..]), Onward(d, c, b));
    }
  }

  lemma {:induction false} SumOfPart(d: Design, rank: map<Id, nat>, cap: nat, c: Component, lists: seq<seq<Id>>, k: nat, bound: nat)
    requires WellFormed(d) && Structured(d, rank) && k < |lists| && Below(d, rank, Onward(d, c, Flatten(lists)), bound)
    ensures Below(d, rank, Onward(d, c, lists[k]), bound)
    ensures SumDelta(d, rank, cap, Onward(d, c, lists[k]), bound) <= SumDelta(d, rank, cap, Onward(d, c, Flatten(lists)), bound)
    decreases k
  {
    hide Delta, Structured, SumDelta, Onward;
    OnwardSplits(d, c, lists[0], Flatten(lists[1..]));
    SumSplits(d, rank, cap, Onward(d, c, lists[0]), Onward(d, c, Flatten(lists[1..])), bound);
    if k > 0 {
      SumOfPart(d, rank, cap, c, lists[1..], k - 1, bound);
    }
  }

  // One of a component's own lists of next steps.
  ghost predicate OwnList(c: Component, ids: seq<Id>)
  {
    ids == [] || ids == c.downstream || ids == Goto(c) || exists k :: 0 <= k < |c.routes| && ids == c.routes[k]
  }

  // Any list a component may take from its targets costs no more than all of them.
  lemma TargetListCosts(d: Design, rank: map<Id, nat>, cap: nat, x: Id, ids: seq<Id>)
    requires WellFormed(d) && Structured(d, rank) && x in d.comps && OwnList(d.comps[x], ids)
    ensures var c := d.comps[x];
            && Below(d, rank, Onward(d, c, ids), rank[x]) && Below(d, rank, Onward(d, c, Targets(c)), rank[x])
            && SumDelta(d, rank, cap, Onward(d, c, ids), rank[x]) <= SumDelta(d, rank, cap, Onward(d, c, Targets(c)), rank[x])
  {
    hide Delta, Structured, SumDelta, Onward;
    var c := d.comps[x];
    StructuredGives(d, rank, x);
    OnwardIsBelow(d, rank, x, Targets(c));
    OnwardSplits(d, c, c.downstream + Goto(c), Flatten(c.routes));
    OnwardSplits(d, c, c.downstream, Goto(c));
    var down, goto, routes := Onward(d, c, c.downstream), Onward(d, c, Goto(c)), Onward(d, c, Flatten(c.routes));
    SumSplits(d, rank, cap, down + goto, routes, rank[x]);
    SumSplits(d, rank, cap, down, goto, rank[x]);
    if ids == [] {
      NothingOnward(d, rank, cap, c, rank[x]);
    } else if ids != c.downstream && ids != Goto(c) {
      var k :| 0 <= k < |c.routes| && ids == c.routes[k];
      SumOfPart(d, rank, cap, c, c.routes, k, rank[x]);
    }
  }

  lemma NothingOnward(d: Design, rank: map<Id, nat>, cap: nat, c: Component, bound: nat)
    requires WellFormed(d) && Structured(d, rank)
    ensures Onward(d, c, []) == [] && SumDelta(d, rank, cap, [], bound) == 0
  {
  }

  lemma StructuredGives(d: Design, rank: map<Id, nat>, x: Id)
    requires WellFormed(d) && Structured(d, rank) && x in d.comps
    ensures rank.Keys == d.comps.Keys && StructuredAt(d, rank, x)
  {
  }

  ghost predicate Priced(d: Design, rank: map<Id, nat>, cap: nat, high: nat, p: Prices)
    requires WellFormed(d) && Structured(d, rank) && HighRank(rank, high)
  {
    && PricesFit(d, p)
    && (forall x {:trigger p.entry[x]} :: x in d.comps ==> p.entry[x] == EntryPrice(d, rank, cap, high, x))
    && (forall x {:trigger p.pass[x]} :: x in d.comps ==> p.pass[x] == PassPrice(d, rank, cap, x))
  }

  // A list of same-level entries costs what lies between it and the end of the level, once per entry
  // outside containers and at most once inside.
  lemma {:induction false} LevelCosts(d: Design, rank: map<Id, nat>, cap: nat, high: nat, p: Prices, x: Id, ids: seq<Id>, bound: nat)
    requires WellFormed(d) && Structured(d, rank) && HighRank(rank, high) && Priced(d, rank, cap, high, p) && x in d.comps
    requires Below(d, rank, ids, bound)
    requires forall y :: y in ids ==> d.comps[y].parent == d.comps[x].parent && !IsItem(d.comps[y].kind)
    requires d.comps[x].parent.Some? ==> |ids| <= 1
    ensures Cost(p.entry, ids) <= Base(d, rank, cap, high, x) + SumDelta(d, rank, cap, ids, bound)
    decreases |ids|
  {
    hide Delta, Structured, ItemPrice;
    if ids != [] {
      var last := ids[|ids| - 1];
      assert p.entry[last] == EntryPrice(d, rank, cap, high, last) == Base(d, rank, cap, high, last) + Delta(d, rank, cap, last);
      if d.comps[x].parent.Some? {
        assert ids[..|ids| - 1] == [];
      } else {
        LevelCosts(d, rank, cap, high, p, x, ids[..|ids| - 1], bound);
      }
    }
  }

  // Stepping back costs no more than what is still to be paid to leave the container.
  lemma BackCosts(d: Design, rank: map<Id, nat>, cap: nat, high: nat, p: Prices, x: Id, y: Id)
    requires WellFormed(d) && Structured(d, rank) && HighRank(rank, high) && Priced(d, rank, cap, high, p) && x in d.comps
    requires BackTo(d, d.comps[x], y)
    ensures y in d.comps && Cost(p.entry, [y]) == Base(d, rank, cap, high, x)
  {
    hide Structured, Cost, ItemPrice, GetStart;
    StructuredGives(d, rank, x);
    StartCosts(d, rank, cap, high, p, d.comps[x].parent.value);
  }

  lemma {:induction false} AllOnward(d: Design, c: Component, ids: seq<Id>)
    requires WellFormed(d) && forall y :: y in ids ==> !BackTo(d, c, y)
    ensures Onward(d, c, ids) == ids
  {
    hide BackTo, WellFormed;
    if ids != [] {
      AllOnward(d, c, ids[1..]);
    }
  }

  // A list of next steps costs what leaving costs and what lies onward.
  lemma ListCosts(d: Design, rank: map<Id, nat>, cap: nat, high: nat, p: Prices, x: Id, ids: seq<Id>, bound: nat)
    requires WellFormed(d) && Structured(d, rank) && HighRank(rank, high) && Priced(d, rank, cap, high, p) && x in d.comps
    requires (forall y :: y in ids ==> y in Targets(d.comps[x])) && Below(d, rank, Onward(d, d.comps[x], ids), bound)
    requires d.comps[x].parent.Some? ==> |ids| <= 1
    ensures AllIn(ids, d.comps)
    ensures Cost(p.entry, ids) <= Base(d, rank, cap, high, x) + SumDelta(d, rank, cap, Onward(d, d.comps[x], ids), bound)
  {
    hide Delta, SumDelta, Base, Structured, Cost, Onward, Targets, HighRank, Priced, WellFormed, BackTo, Below;
    if y :| y in ids && BackTo(d, d.comps[x], y) {
      BackIsInside(d, d.comps[x], y);
      assert ids == [y];
      BackCosts(d, rank, cap, high, p, x, y);
    } else {
      OnwardListCosts(d, rank, cap, high, p, x, ids, bound);
    }
  }

  lemma OnwardListCosts(d: Design, rank: map<Id, nat>, cap: nat, high: nat, p: Prices, x: Id, ids: seq<Id>, bound: nat)
    requires WellFormed(d) && Structured(d, rank) && HighRank(rank, high) && Priced(d, rank, cap, high, p) && x in d.comps
    requires forall y :: y in ids ==> y in Targets(d.comps[x]) && !BackTo(d, d.comps[x], y)
    requires Below(d, rank, Onward(d, d.comps[x], ids), bound)
    requires d.comps[x].parent.Some? ==> |ids| <= 1
    ensures AllIn(ids, d.comps)
    ensures Cost(p.entry, ids) <= Base(d, rank, cap, high, x) + SumDelta(d, rank, cap, Onward(d, d.comps[x], ids), bound)
  {
    hide Delta, SumDelta, Base, Structured, Cost, Onward, Targets, HighRank, Priced, WellFormed, BackTo, Below;
    forall y | y in ids ensures y in d.comps && d.comps[y].parent == d.comps[x].parent && !IsItem(d.comps[y].kind) {
      TargetIs(d, rank, x, y);
    }
    AllOnward(d, d.comps[x], ids);
    LevelCosts(d, rank, cap, high, p, x, ids, bound);
  }

  lemma TargetIs(d: Design, rank: map<Id, nat>, x: Id, y: Id)
    requires WellFormed(d) && Structured(d, rank) && x in d.comps && y in Targets(d.comps[x])
    ensures y in d.comps && d.comps[y].parent == d.comps[x].parent && (BackTo(d, d.comps[x], y) || !IsItem(d.comps[y].kind))
  {
    hide Targets, BackTo, WellFormed;
    assert StructuredAt(d, rank, x);
  }

  lemma BackIsInside(d: Design, c: Component, y: Id)
    requires WellFormed(d) && BackTo(d, c, y)
    ensures c.parent.Some?
  {
  }

  lemma OwnListCosts(d: Design, rank: map<Id, nat>, cap: nat, high: nat, p: Prices, x: Id, ids: seq<Id>)
    requires WellFormed(d) && Structured(d, rank) && HighRank(rank, high) && Priced(d, rank, cap, high, p) && x in d.comps
    requires OwnList(d.comps[x], ids)
    ensures var c := d.comps[x];
            && AllIn(ids, d.comps) && Below(d, rank, Onward(d, c, Targets(c)), rank[x])
            && Cost(p.entry, ids) <= Base(d, rank, cap, high, x) + SumDelta(d, rank, cap, Onward(d, c, Targets(c)), rank[x])
  {
    hide Delta, SumDelta, Base, Structured, Cost, Onward, Priced;
    StructuredGives(d, rank, x);
    TargetListCosts(d, rank, cap, x, ids);
    OwnTargets(d.comps[x], ids);
    ListCosts(d, rank, cap, high, p, x, ids, rank[x]);
  }

  lemma OwnTargets(c: Component, ids: seq<Id>)
    requires OwnList(c, ids)
    ensures forall y :: y in ids ==> y in Targets(c)
  {
    forall y | y in ids ensures y in Targets(c) {
      if ids != c.downstream && ids != Goto(c) {
        var k :| 0 <= k < |c.routes| && ids == c.routes[k];
        InFlatten(c.routes, k, y);
      }
    }
  }

  lemma {:induction false} InFlatten(lists: seq<seq<Id>>, k: nat, y: Id)
    requires k < |lists| && y in lists[k]
    ensures y in Flatten(lists)
  {
    if k > 0 {
      InFlatten(lists[1..], k - 1, y);
    }
  }

  lemma NoCost(w: map<Id, nat>)
    ensures Cost(w, []) == 0
  {
  }

  lemma OneCost(w: map<Id, nat>, x: Id)
    requires x in w
    ensures Cost(w, [x]) == w[x]
  {
    NoCost(w);
    assert [x][..0] == [];
  }

  lemma ItemIsAffordable(d: Design, rank: map<Id, nat>, cap: nat, high: nat, p: Prices, x: Id, r: Reply)
    requires WellFormed(d) && Structured(d, rank) && HighRank(rank, high) && Priced(d, rank, cap, high, p)
    requires x in d.comps && IsItem(d.comps[x].kind)
    ensures AffordableAt(d, p, cap, x, r)
  {
    hide Delta, SumDelta, Structured, Cost, Base, Top, Below, Appended, WellFormed, GetStart;
    ItemAppends(d, rank, x, r);
    var c := d.comps[x];
    var box := c.parent.value;
    assert p.entry[x] == EntryPrice(d, rank, cap, high, x) == ItemPrice(d, rank, cap, high, box);
    assert p.pass[x] == PassPrice(d, rank, cap, x) == OnePass(d, rank, cap, box);
    if c.downstream == [] {
      OneCost(p.entry, x);
    } else {
      ItemBodyCosts(d, rank, cap, high, p, x);
    }
    ExitCosts(d, rank, cap, high, p, box);
  }

  // An item goes on to its body, or to itself when there is none, and leaves by its container.
  lemma ItemAppends(d: Design, rank: map<Id, nat>, x: Id, r: Reply)
    requires WellFormed(d) && Structured(d, rank) && x in d.comps && IsItem(d.comps[x].kind)
    ensures d.comps[x].parent.Some? && d.comps[x].parent.value in d.comps
    ensures var box := d.comps[x].parent.value;
            && IsContainer(d.comps[box].kind) && GetStart(d, box) == x
            && Appended(d, x, r, false) == (if d.comps[x].downstream == [] then [x] else d.comps[x].downstream)
            && Appended(d, x, r, true) == d.comps[box].downstream
  {
    hide GetStart, Structured;
    StructuredGives(d, rank, x);
    assert WellFormedComponent(d, x);
  }

  lemma ItemBodyCosts(d: Design, rank: map<Id, nat>, cap: nat, high: nat, p: Prices, x: Id)
    requires WellFormed(d) && Structured(d, rank) && HighRank(rank, high) && Priced(d, rank, cap, high, p)
    requires x in d.comps && IsItem(d.comps[x].kind)
    ensures d.comps[x].parent.Some? && d.comps[x].parent.value in d.comps && IsContainer(d.comps[d.comps[x].parent.value].kind)
    ensures AllIn(d.comps[x].downstream, d.comps)
    ensures 1 + Cost(p.entry, d.comps[x].downstream)
         <= ItemPrice(d, rank, cap, high, d.comps[x].parent.value) + OnePass(d, rank, cap, d.comps[x].parent.value)
  {
    hide Delta, SumDelta, Structured, Cost, ItemPrice, Onward, Priced;
    StructuredGives(d, rank, x);
    var c := d.comps[x];
    var box := c.parent.value;
    StartIsBelow(d, rank, box);
    OwnTargets(c, c.downstream);
    ListCosts(d, rank, cap, high, p, x, c.downstream, rank[box]);
  }

  // Leaving a container costs at most what its item's price leaves after buying all passes back.
  lemma ExitCosts(d: Design, rank: map<Id, nat>, cap: nat, high: nat, p: Prices, box: Id)
    requires WellFormed(d) && Structured(d, rank) && HighRank(rank, high) && Priced(d, rank, cap, high, p)
    requires box in d.comps && IsContainer(d.comps[box].kind)
    ensures AllIn(d.comps[box].downstream, d.comps)
    ensures 1 + Cost(p.entry, d.comps[box].downstream) + AllPasses(d, rank, cap, box) <= ItemPrice(d, rank, cap, high, box)
  {
    hide Delta, SumDelta, Structured, Cost, Base, AllPasses, Onward, Priced;
    StructuredGives(d, rank, box);
    var c := d.comps[box];
    OwnTargets(c, c.downstream);
    OnwardIsBelow(d, rank, box, c.downstream);
    ListCosts(d, rank, cap, high, p, box, c.downstream, rank[box]);
  }

  lemma StartCosts(d: Design, rank: map<Id, nat>, cap: nat, high: nat, p: Prices, box: Id)
    requires WellFormed(d) && Structured(d, rank) && HighRank(rank, high) && Priced(d, rank, cap, high, p)
    requires box in d.comps && IsContainer(d.comps[box].kind)
    ensures Cost(p.entry, [GetStart(d, box)]) == ItemPrice(d, rank, cap, high, box)
  {
    hide Delta, SumDelta, Structured, Cost, Base, Below, ItemPrice;
    StartIsBelow(d, rank, box);
    var item := GetStart(d, box);
    OneCost(p.entry, item);
    assert p.entry[item] == EntryPrice(d, rank, cap, high, item);
  }

  lemma ContainerCovers(d: Design, rank: map<Id, nat>, cap: nat, high: nat, x: Id)
    requires WellFormed(d) && Structured(d, rank) && HighRank(rank, high)
    requires x in d.comps && IsContainer(d.comps[x].kind)
    ensures 1 + ItemPrice(d, rank, cap, high, x) <= Base(d, rank, cap, high, x) + Delta(d, rank, cap, x)
  {
    hide SumDelta, Structured, Base, AllPasses, Onward;
    TargetListCosts(d, rank, cap, x, d.comps[x].downstream);
  }

  lemma InnerBase(d: Design, rank: map<Id, nat>, cap: nat, high: nat, x: Id)
    requires WellFormed(d) && Structured(d, rank) && HighRank(rank, high) && x in d.comps && d.comps[x].parent.Some?
    ensures var box := d.comps[x].parent.value;
            box in d.comps && IsContainer(d.comps[box].kind) && Base(d, rank, cap, high, x) == ItemPrice(d, rank, cap, high, box)
  {
    hide ItemPrice, Structured;
    StructuredGives(d, rank, x);
  }

  lemma NodeIsAffordable(d: Design, rank: map<Id, nat>, cap: nat, high: nat, p: Prices, x: Id, r: Reply)
    requires WellFormed(d) && Structured(d, rank) && HighRank(rank, high) && Priced(d, rank, cap, high, p)
    requires x in d.comps && !IsItem(d.comps[x].kind)
    ensures AffordableAt(d, p, cap, x, r)
  {
    hide SumDelta, Structured, Cost, Base, Top, Below, Targets, OnePass, AllPasses, Onward, BackTo;
    StructuredGives(d, rank, x);
    assert WellFormedComponent(d, x);
    var c := d.comps[x];
    assert p.entry[x] == EntryPrice(d, rank, cap, high, x) == Base(d, rank, cap, high, x) + Delta(d, rank, cap, x);
    NoCost(p.entry);
    var ids := Appended(d, x, r, false);
    if OwnList(c, ids) {
      OwnListCosts(d, rank, cap, high, p, x, ids);
    } else if IsContainer(c.kind) {
      StartCosts(d, rank, cap, high, p, x);
      ContainerCovers(d, rank, cap, high, x);
    } else if ids != [] {
      var box := c.parent.value;
      StructuredGives(d, rank, box);
      InnerBase(d, rank, cap, high, x);
      ExitCosts(d, rank, cap, high, p, box);
      if ids == [GetStart(d, box)] {
        StartCosts(d, rank, cap, high, p, box);
      }
    }
  }

  // Every structured canvas has prices.
  lemma StructuredIsAffordable(d: Design, rank: map<Id, nat>, cap: nat) returns (p: Prices)
    requires WellFormed(d) && Structured(d, rank)
    ensures Affordable(d, p, cap)
  {
    hide Structured, EntryPrice, PassPrice, AffordableAt;
    var high := Highest(rank);
    var items := ListTheSet(set x | x in d.comps && IsItem(d.comps[x].kind));
    p := Prices(
      map x | x in d.comps :: EntryPrice(d, rank, cap, high, x),
      map x | x in d.comps :: PassPrice(d, rank, cap, x),
      items);
    assert Priced(d, rank, cap, high, p);
    forall x, r | x in d.comps ensures AffordableAt(d, p, cap, x, r) {
      if IsItem(d.comps[x].kind) {
        ItemIsAffordable(d, rank, cap, high, p, x, r);
      } else {
        NodeIsAffordable(d, rank, cap, high, p, x, r);
      }
    }
  }

  lemma {:induction false} Highest(rank: map<Id, nat>) returns (high: nat)
    ensures HighRank(rank, high)
    decreases |rank|
  {
    if rank == map[] {
      high := 0;
    } else {
      var x :| x in rank;
      var rest := rank - {x};
      high := Highest(rest);
      if high < rank[x] {
        high := rank[x];
      }
      forall y | y in rank ensures rank[y] <= high {
        if y != x {
          assert y in rest && rest[y] == rank[y];
        }
      }
    }
  }

  /* ---------- structured canvases stop ---------- */

  // No batch of the run visits an item twice.
  ghost predicate OrderlyRun(d: Design, run: seq<State>)
    requires WellFormed(d)
  {
    forall k :: 0 <= k < |run| - 1 ==> Pending(d, run[k]) && OrderlyBatch(d, run[k])
  }

  lemma {:induction false} OrderlyFrom(d: Design, path: seq<Id>, counters: map<Id, int>, env: Replies, run: seq<State>, k: nat, n: nat)
    requires WellFormed(d) && IsRun(d, path, counters, env, run) && OrderlyRun(d, run) && k + n < |run|
    ensures Orderly(d, run[k], env, n)
    decreases n
  {
    hide OrderlyBatch, Batch, WellFormed;
    if n > 0 {
      assert NextAt(d, env, run, k);
      assert OrderlyBatch(d, run[k]);
      OrderlyFrom(d, path, counters, env, run, k + 1, n - 1);
    }
  }

  // One bound, fixed before the replies are known, ends every orderly run.
  lemma StructuredRunsStop(d: Design, rank: map<Id, nat>, cap: nat, path: seq<Id>, counters: map<Id, int>) returns (bound: nat)
    requires WellFormed(d) && Structured(d, rank) && AllIn(StartPath(path), d.comps) && InRange(d, cap, counters)
    ensures forall env, run {:trigger IsRun(d, path, counters, env, run)} ::
              IsRun(d, path, counters, env, run) && Bounded(env, cap) && OrderlyRun(d, run) ==> |run| <= bound
  {
    hide Structured, Affordable, InRange, Potential, IsRun, OrderlyRun;
    var s := StartState(path, counters);
    var p := StructuredIsAffordable(d, rank, cap);
    AffordableFits(d, p, cap);
    PotentialIsNatural(d, p, cap, s);
    var potential := Potential(d, p, cap, s);
    bound := potential + 2;
    forall env, run | IsRun(d, path, counters, env, run) && Bounded(env, cap) && OrderlyRun(d, run)
      ensures |run| <= bound
    {
      if |run| > bound {
        OrderlyRunIsShort(d, p, cap, path, counters, env, run, potential + 1);
      }
    }
  }

  lemma OrderlyRunIsShort(d: Design, p: Prices, cap: nat, path: seq<Id>, counters: map<Id, int>, env: Replies, run: seq<State>, n: nat)
    requires WellFormed(d) && IsRun(d, path, counters, env, run) && Bounded(env, cap) && OrderlyRun(d, run)
    requires Affordable(d, p, cap) && InRange(d, cap, counters)
    requires n > Potential(d, p, cap, StartState(path, counters))
    ensures n + 1 >= |run|
  {
    assert run[0] == StartState(path, counters);
    hide Affordable, InRange, Potential, IsRun, OrderlyRun, Run, Batch, Orderly;
    StartIsTheMark(d, path, counters, env, run);
    if n + 1 < |run| {
      RunStates(d, path, counters, env, run, 0);
      RunStates(d, path, counters, env, run, n);
      OrderlyFrom(d, path, counters, env, run, 0, n);
      RunStops(d, p, cap, run[0].idx, run[0], env, n);
    }
  }

  // No step anywhere appends more than one entry.
  ghost predicate Sequential(d: Design)
  {
    forall x {:trigger d.comps[x]} :: x in d.comps ==>
      var c := d.comps[x];
      |c.downstream| <= 1 && |Goto(c)| <= 1 && forall k :: 0 <= k < |c.routes| ==> |c.routes[k]| <= 1
  }

  lemma AppendsAtMostOne(d: Design, x: Id, r: Reply, ended: bool)
    requires WellFormed(d) && Sequential(d) && x in d.comps && (ended ==> IsItem(d.comps[x].kind))
    ensures |Appended(d, x, r, ended)| <= 1
  {
    assert WellFormedComponent(d, x);
    assert |d.comps[x].downstream| <= 1;
    if d.comps[x].parent.Some? {
      assert |d.comps[d.comps[x].parent.value].downstream| <= 1;
    }
  }

  lemma ExtendByOne(path: seq<Id>, ids: seq<Id>)
    requires path != [] && |ids| <= 1
    ensures |ExtendPath(path, ids)| <= |path| + 1
  {
    if |ids| == 1 {
      assert ids[1..] == [];
    }
  }

  lemma SequentialBatch(d: Design, start: nat, s: State, env: Replies)
    requires WellFormed(d) && Sequential(d) && Between(d, start, s) && CanStep(s) && |s.path| == s.idx + 1
    ensures OrderlyBatch(d, s)
    ensures var b := Batch(d, s, env); |b.path| <= b.mark + 1
  {
    hide Batch, Post, Invoke, Admitted, Appended, ExtendPath, Sequential;
    var g := Gathered(d, s, env);
    BatchSettles(d, s, env);
    PruneShrinks(d, s.path, s.idx);
    if |g.path| == s.idx + 1 {
      var id := g.path[s.idx];
      var r := env(s.idx);
      PostEffect(d, g, s.idx, r);
      EndsOnlyForItems(d, g, id, r);
      var ids := Appended(d, id, r, Ends(d, g, id, r));
      AppendsAtMostOne(d, id, r, Ends(d, g, id, r));
      ExtendByOne(g.path, ids);
      assert PostAll(d, g, g.idx, g.mark, env) == Post(d, g, g.idx, r) by { OnePost(d, g, g.idx, env); }
    }
  }

  lemma OnePost(d: Design, g: State, i: nat, env: Replies)
    requires WellFormed(d) && i + 1 <= |g.path| && AllIn(g.path, d.comps)
    ensures PostAll(d, g, i, i + 1, env) == Post(d, g, i, env(i))
  {
    hide Post;
  }

  lemma EndsOnlyForItems(d: Design, s: State, id: Id, r: Reply)
    requires id in d.comps
    ensures Ends(d, s, id, r) ==> IsItem(d.comps[id].kind)
  {
  }

  lemma {:induction false} PruneShrinks(d: Design, path: seq<Id>, i: nat)
    requires i <= |path| && AllIn(path, d.comps)
    ensures |Prune(d, path, i, |path|)| <= |path|
    decreases |path| - i
  {
    hide Admitted;
    if i < |path| {
      if Admitted(d, path, i) {
        PruneShrinks(d, path, i + 1);
      } else {
        PruneShrinks(d, path[..i] + path[i + 1..], i);
      }
    }
  }

  lemma {:induction false} SequentialStates(d: Design, path: seq<Id>, counters: map<Id, int>, env: Replies, run: seq<State>, k: nat)
    requires WellFormed(d) && Sequential(d) && IsRun(d, path, counters, env, run) && k < |run|
    ensures |run[k].path| <= run[k].mark + 1
    decreases k
  {
    hide Batch, Sequential, IsRun;
    if k == 0 {
      StartIsTheMark(d, path, counters, env, run);
    } else {
      SequentialStates(d, path, counters, env, run, k - 1);
      RunStates(d, path, counters, env, run, k - 1);
      SequentialBatch(d, run[0].idx, run[k - 1], env);
    }
  }

  lemma SequentialIsOrderly(d: Design, path: seq<Id>, counters: map<Id, int>, env: Replies, run: seq<State>)
    requires WellFormed(d) && Sequential(d) && IsRun(d, path, counters, env, run)
    ensures OrderlyRun(d, run)
  {
    hide Batch, Sequential, OrderlyBatch;
    forall k | 0 <= k < |run| - 1 ensures Pending(d, run[k]) && OrderlyBatch(d, run[k]) {
      SequentialStates(d, path, counters, env, run, k);
      RunStates(d, path, counters, env, run, k);
      SequentialBatch(d, run[0].idx, run[k], env);
    }
  }

  // A structured canvas on which no step forks stops on every input, with loops nested to any depth.
  lemma SequentialRunsStop(d: Design, rank: map<Id, nat>, cap: nat, path: seq<Id>, counters: map<Id, int>) returns (bound: nat)
    requires WellFormed(d) && Structured(d, rank) && Sequential(d) && AllIn(StartPath(path), d.comps) && InRange(d, cap, counters)
    ensures forall env, run {:trigger IsRun(d, path, counters, env, run)} ::
              IsRun(d, path, counters, env, run) && Bounded(env, cap) ==> |run| <= bound
  {
    hide Structured, IsRun, OrderlyRun, InRange, Sequential;
    bound := StructuredRunsStop(d, rank, cap, path, counters);
    forall env, run | IsRun(d, path, counters, env, run) && Bounded(env, cap) ensures |run| <= bound {
      SequentialIsOrderly(d, path, counters, env, run);
    }
  }
}
