/** When a run stops. Loop and iteration items are the only back edges of a structured canvas; a
    potential that prices every pending entry, and the passes each counter still allows, falls by at
    least one for every executed entry. */
module Termination {
  import opened Common
  import opened Design
  import opened Scheduler
  import opened CanvasRuns

  /* ---------- prices ---------- */

  // `entry` prices a pending entry, `pass` prices one more pass of an item; `items` lists the items.
  datatype Prices = Prices(entry: map<Id, nat>, pass: map<Id, nat>, items: seq<Id>)

  // The largest value an item's counter can take when iterated lists have at most `cap` elements.
  function Top(d: Design, item: Id, cap: nat): nat
    requires WellFormed(d) && item in d.comps && IsItem(d.comps[item].kind)
  {
    assert WellFormedComponent(d, item);
    var c := d.comps[item];
    if c.kind == IterationItem then cap
    else if d.comps[c.parent.value].maxLoop < 0 then 0 else d.comps[c.parent.value].maxLoop
  }

  function Cost(w: map<Id, nat>, ids: seq<Id>): nat
    requires forall x :: x in ids ==> x in w
  {
    if ids == [] then 0 else Cost(w, ids[..|ids| - 1]) + w[ids[|ids| - 1]]
  }

  ghost predicate PricesFit(d: Design, p: Prices)
    requires WellFormed(d)
  {
    && p.entry.Keys == d.comps.Keys && p.pass.Keys == d.comps.Keys
    && NoDuplicates(p.items)
    && forall x :: x in p.items <==> x in d.comps && IsItem(d.comps[x].kind)
  }

  // What a step may append for an entry: an exception's goto list or its successors.
  function Appended(d: Design, id: Id, r: Reply, ended: bool): (ids: seq<Id>)
    requires WellFormed(d) && id in d.comps && (ended ==> IsItem(d.comps[id].kind))
    ensures AllIn(ids, d.comps)
  {
    assert WellFormedComponent(d, id);
    if Diverted(d.comps[id], r) then d.comps[id].handler.goto else Successors(d, id, r, ended)
  }

  // An entry's price covers whatever it may append, plus one. An item that goes on may also spend a
  // pass; an item that ends must be able to buy all its passes back.
  ghost predicate AffordableAt(d: Design, p: Prices, cap: nat, id: Id, r: Reply)
    requires WellFormed(d) && PricesFit(d, p) && id in d.comps
  {
    var go := 1 + Cost(p.entry, Appended(d, id, r, false));
    if IsItem(d.comps[id].kind) then
      && go <= p.entry[id] + p.pass[id]
      && 1 + Cost(p.entry, Appended(d, id, r, true)) + Refill(d, p, cap, id) <= p.entry[id]
    else go <= p.entry[id]
  }

  function Refill(d: Design, p: Prices, cap: nat, item: Id): nat
    requires WellFormed(d) && item in d.comps && IsItem(d.comps[item].kind) && item in p.pass
  {
    (Top(d, item, cap) + 1) * p.pass[item]
  }

  ghost predicate Affordable(d: Design, p: Prices, cap: nat)
    requires WellFormed(d)
  {
    PricesFit(d, p) && forall id, r {:trigger AffordableAt(d, p, cap, id, r)} :: id in d.comps ==> AffordableAt(d, p, cap, id, r)
  }

  /* ---------- the potential ---------- */

  ghost predicate InRange(d: Design, cap: nat, counters: map<Id, int>)
    requires WellFormed(d)
  {
    forall x :: x in d.comps && IsItem(d.comps[x].kind) ==> -1 <= Counter(counters, x) <= Top(d, x, cap)
  }

  // The price of the passes an item's counter still allows.
  function PassesLeft(d: Design, p: Prices, cap: nat, counters: map<Id, int>, item: Id): int
    requires WellFormed(d) && item in d.comps && IsItem(d.comps[item].kind) && item in p.pass
  {
    (Top(d, item, cap) - Counter(counters, item)) * p.pass[item]
  }

  function Slack(d: Design, p: Prices, cap: nat, counters: map<Id, int>, items: seq<Id>): int
    requires WellFormed(d) && forall x :: x in items ==> x in d.comps && IsItem(d.comps[x].kind) && x in p.pass
  {
    if items == [] then 0
    else
      assert forall x :: x in items[1..] ==> x in items;
      PassesLeft(d, p, cap, counters, items[0]) + Slack(d, p, cap, counters, items[1..])
  }

  function Potential(d: Design, p: Prices, cap: nat, s: State): int
    requires WellFormed(d) && PricesFit(d, p) && s.mark <= |s.path| && AllIn(s.path, d.comps)
  {
    Cost(p.entry, s.path[s.mark..]) + Slack(d, p, cap, s.counters, p.items)
  }

  lemma {:induction false} CostSplits(w: map<Id, nat>, a: seq<Id>, b: seq<Id>)
    requires forall x :: x in a + b ==> x in w
    ensures (forall x :: x in a ==> x in w) && (forall x :: x in b ==> x in w)
    ensures Cost(w, a + b) == Cost(w, a) + Cost(w, b)
    decreases |b|
  {
    assert forall x :: x in a ==> x in a + b;
    assert forall x :: x in b ==> x in a + b;
    if b == [] {
      assert a + b == a;
    } else {
      assert (a + b)[..|a + b| - 1] == a + b[..|b| - 1];
      CostSplits(w, a, b[..|b| - 1]);
    }
  }

  lemma {:induction false} SlackIsNatural(d: Design, p: Prices, cap: nat, counters: map<Id, int>, items: seq<Id>)
    requires WellFormed(d) && InRange(d, cap, counters)
    requires forall x :: x in items ==> x in d.comps && IsItem(d.comps[x].kind) && x in p.pass
    ensures Slack(d, p, cap, counters, items) >= 0
  {
    if items != [] {
      SlackIsNatural(d, p, cap, counters, items[1..]);
      assert PassesLeft(d, p, cap, counters, items[0]) >= 0;
    }
  }

  lemma {:induction false} SlackIgnoresOthers(d: Design, p: Prices, cap: nat, counters: map<Id, int>, items: seq<Id>, x: Id, v: int)
    requires WellFormed(d)
    requires forall y :: y in items ==> y in d.comps && IsItem(d.comps[y].kind) && y in p.pass
    requires x !in items
    ensures Slack(d, p, cap, counters[x := v], items) == Slack(d, p, cap, counters, items)
  {
    if items != [] {
      SlackIgnoresOthers(d, p, cap, counters, items[1..], x, v);
    }
  }

  // Changing one counter changes only that item's passes.
  lemma {:induction false} SlackMoves(d: Design, p: Prices, cap: nat, counters: map<Id, int>, items: seq<Id>, x: Id, v: int)
    requires WellFormed(d) && NoDuplicates(items) && x in items
    requires forall y :: y in items ==> y in d.comps && IsItem(d.comps[y].kind) && y in p.pass
    ensures Slack(d, p, cap, counters[x := v], items) - PassesLeft(d, p, cap, counters[x := v], x)
         == Slack(d, p, cap, counters, items) - PassesLeft(d, p, cap, counters, x)
  {
    if items[0] == x {
      assert forall k :: 0 <= k < |items[1..]| ==> items[1..][k] == items[k + 1];
      SlackIgnoresOthers(d, p, cap, counters, items[1..], x, v);
    } else {
      assert NoDuplicates(items[1..]);
      SlackMoves(d, p, cap, counters, items[1..], x, v);
    }
  }

  /* ---------- invoking a batch ---------- */

  // The price of an entry that has been invoked but not post-processed.
  function InvokedPrice(d: Design, p: Prices, cap: nat, counters: map<Id, int>, id: Id): int
    requires WellFormed(d) && PricesFit(d, p) && id in d.comps
  {
    if !IsItem(d.comps[id].kind) then p.entry[id]
    else if Counter(counters, id) == -1 then p.entry[id] - Refill(d, p, cap, id)
    else p.entry[id] + p.pass[id]
  }

  function InvokedCost(d: Design, p: Prices, cap: nat, counters: map<Id, int>, ids: seq<Id>): int
    requires WellFormed(d) && PricesFit(d, p) && AllIn(ids, d.comps)
  {
    if ids == [] then 0
    else InvokedPrice(d, p, cap, counters, ids[0]) + InvokedCost(d, p, cap, counters, ids[1..])
  }

  // No item occurs twice among the entries [i, t).
  ghost predicate ItemsOnce(d: Design, path: seq<Id>, i: nat, t: nat)
    requires i <= t <= |path| && AllIn(path, d.comps)
  {
    forall j, k :: i <= j < k < t && path[j] == path[k] ==> !IsItem(d.comps[path[j]].kind)
  }

  ghost predicate Bounded(env: Replies, cap: nat)
  {
    forall i :: env(i).items.Some? ==> env(i).items.value <= cap
  }

  lemma StepStaysInRange(d: Design, cap: nat, counters: map<Id, int>, id: Id, r: Reply)
    requires WellFormed(d) && InRange(d, cap, counters) && id in d.comps && IsItem(d.comps[id].kind)
    requires r.items.Some? ==> r.items.value <= cap
    ensures InRange(d, cap, counters[id := InvokedCounter(d, counters, id, r)])
    ensures var c := InvokedCounter(d, counters, id, r); c == -1 || c == Counter(counters, id) + 1
  {
    assert WellFormedComponent(d, id);
  }

  lemma InvokeOnePays(d: Design, p: Prices, cap: nat, counters: map<Id, int>, id: Id, r: Reply)
    requires WellFormed(d) && PricesFit(d, p) && InRange(d, cap, counters) && id in d.comps && IsItem(d.comps[id].kind)
    requires r.items.Some? ==> r.items.value <= cap
    ensures var after := counters[id := InvokedCounter(d, counters, id, r)];
            InvokedPrice(d, p, cap, after, id) + Slack(d, p, cap, after, p.items)
            <= p.entry[id] + Slack(d, p, cap, counters, p.items)
  {
    hide InvokedCounter, Top, Slack;
    var v := InvokedCounter(d, counters, id, r);
    StepStaysInRange(d, cap, counters, id, r);
    SlackMoves(d, p, cap, counters, p.items, id, v);
    var top, c, k := Top(d, id, cap), Counter(counters, id), p.pass[id];
    if v == -1 {
      assert (top + 1) * k - (top - c) * k == (c + 1) * k <= (top + 1) * k;
    } else {
      assert (top - (c + 1)) * k == (top - c) * k - k;
    }
  }

  lemma {:induction false} InvokeTouchesOnlyEntries(d: Design, path: seq<Id>, i: nat, t: nat, counters: map<Id, int>, env: Replies, x: Id)
    requires WellFormed(d) && i <= t <= |path| && AllIn(path, d.comps)
    requires forall k :: i <= k < t ==> path[k] != x || !IsItem(d.comps[path[k]].kind)
    ensures Counter(Invoke(d, path, i, t, counters, env), x) == Counter(counters, x)
    decreases t - i
  {
    hide InvokedCounter;
    if i < t {
      var id := path[i];
      var next := if IsItem(d.comps[id].kind) then counters[id := InvokedCounter(d, counters, id, env(i))] else counters;
      InvokeTouchesOnlyEntries(d, path, i + 1, t, next, env, x);
    }
  }

  // Invoking a batch converts plain prices into invoked prices without raising the potential.
  lemma {:induction false} InvokePays(d: Design, p: Prices, cap: nat, path: seq<Id>, i: nat, t: nat, counters: map<Id, int>, env: Replies)
    requires WellFormed(d) && PricesFit(d, p) && i <= t <= |path| && AllIn(path, d.comps)
    requires InRange(d, cap, counters) && Bounded(env, cap) && ItemsOnce(d, path, i, t)
    ensures var after := Invoke(d, path, i, t, counters, env);
            && InRange(d, cap, after)
            && InvokedCost(d, p, cap, after, path[i..t]) + Slack(d, p, cap, after, p.items)
               <= Cost(p.entry, path[i..t]) + Slack(d, p, cap, counters, p.items)
    decreases t - i
  {
    hide InvokedCounter, Slack, InvokedPrice, InRange;
    if i < t {
      var id := path[i];
      var item := IsItem(d.comps[id].kind);
      var next := if item then counters[id := InvokedCounter(d, counters, id, env(i))] else counters;
      var after := Invoke(d, path, i + 1, t, next, env);
      if item {
        StepStaysInRange(d, cap, counters, id, env(i));
        InvokeOnePays(d, p, cap, counters, id, env(i));
        InvokeTouchesOnlyEntries(d, path, i + 1, t, next, env, id);
      }
      InvokePays(d, p, cap, path, i + 1, t, next, env);
      PriceReadsItsCounter(d, p, cap, next, after, id);
      assert path[i..t] == [id] + path[i + 1..t];
      CostSplits(p.entry, [id], path[i + 1..t]);
    }
  }

  lemma PriceReadsItsCounter(d: Design, p: Prices, cap: nat, c1: map<Id, int>, c2: map<Id, int>, id: Id)
    requires WellFormed(d) && PricesFit(d, p) && id in d.comps
    requires IsItem(d.comps[id].kind) ==> Counter(c1, id) == Counter(c2, id)
    ensures InvokedPrice(d, p, cap, c1, id) == InvokedPrice(d, p, cap, c2, id)
    ensures !IsItem(d.comps[id].kind) ==> InvokedPrice(d, p, cap, c1, id) == p.entry[id]
  {
  }

  /* ---------- post-processing a batch ---------- */

  predicate Ends(d: Design, s: State, id: Id, r: Reply)
    requires id in d.comps
  {
    IsItem(d.comps[id].kind) && ItemEnds(d.comps[id], Counter(s.counters, id), r)
  }

  lemma StagesEffect(d: Design, s: State, id: Id, r: Reply)
    requires WellFormed(d) && id in d.comps && AllIn(s.path, d.comps)
    ensures Announce(d, s, id, r).counters == s.counters && Report(d, s, id, r).counters == s.counters
    ensures var s' := HandleError(d, s, id, r);
            s'.counters == s.counters
            && s'.path == if Diverted(d.comps[id], r) then s.path + d.comps[id].handler.goto else s.path
  {
    hide Drained, LateEvents;
  }

  lemma AdvanceEffect(d: Design, s: State, id: Id, r: Reply)
    requires WellFormed(d) && id in d.comps && s.path != [] && AllIn(s.path, d.comps)
    ensures var ended := Ends(d, s, id, r);
            var s' := Advance(d, s, id, r);
            && s'.counters == (if ended then s.counters[id := -1] else s.counters)
            && s'.path == if Diverted(d.comps[id], r) then s.path else ExtendPath(s.path, Appended(d, id, r, ended))
  {
    hide Successors, ExtendPath;
    assert WellFormedComponent(d, id);
  }

  lemma PostEffect(d: Design, s: State, i: nat, r: Reply)
    requires WellFormed(d) && i < |s.path| && AllIn(s.path, d.comps)
    ensures var id := s.path[i];
            var ended := Ends(d, s, id, r);
            var s' := Post(d, s, i, r);
            && s'.counters == (if ended then s.counters[id := -1] else s.counters)
            && s'.path == if Diverted(d.comps[id], r) then s.path + Appended(d, id, r, ended)
                          else ExtendPath(s.path, Appended(d, id, r, ended))
  {
    hide Successors, ExtendPath, Announce, HandleError, Report, Advance;
    var id := s.path[i];
    var s1 := Announce(d, s, id, r);
    var s2 := HandleError(d, s1, id, r);
    var s3 := Report(d, s2, id, r);
    assert WellFormedComponent(d, id);
    StagesEffect(d, s, id, r);
    StagesEffect(d, s1, id, r);
    StagesEffect(d, s2, id, r);
    AdvanceEffect(d, s3, id, r);
  }

  lemma AppendCosts(w: map<Id, nat>, path: seq<Id>, id: Id, t: nat)
    requires t <= |path| && path != [] && (forall x :: x in path ==> x in w) && id in w
    ensures (forall x :: x in AppendPath(path, id) ==> x in w) && (forall x :: x in AppendPath(path, id)[t..] ==> x in w)
    ensures Cost(w, AppendPath(path, id)[t..]) <= Cost(w, path[t..]) + w[id]
  {
    if AppendPath(path, id) != path {
      assert AppendPath(path, id)[t..] == path[t..] + [id];
      CostOfLast(w, path[t..], id);
    }
  }

  lemma CostOfLast(w: map<Id, nat>, ids: seq<Id>, id: Id)
    requires (forall x :: x in ids ==> x in w) && id in w
    ensures (forall x :: x in ids + [id] ==> x in w) && Cost(w, ids + [id]) == Cost(w, ids) + w[id]
  {
    assert (ids + [id])[..|ids|] == ids;
  }

  lemma CostOfFirst(w: map<Id, nat>, ids: seq<Id>)
    requires ids != [] && forall x :: x in ids ==> x in w
    ensures ids[0] in w && (forall x :: x in ids[1..] ==> x in w) && Cost(w, ids) == w[ids[0]] + Cost(w, ids[1..])
  {
    assert ids == [ids[0]] + ids[1..];
    CostSplits(w, [ids[0]], ids[1..]);
    CostOfLast(w, [], ids[0]);
    assert [] + [ids[0]] == [ids[0]];
  }

  lemma {:induction false} ExtendCosts(w: map<Id, nat>, path: seq<Id>, ids: seq<Id>, t: nat)
    requires t <= |path| && path != [] && (forall x :: x in path ==> x in w) && (forall x :: x in ids ==> x in w)
    ensures forall x :: x in ExtendPath(path, ids)[t..] ==> x in w
    ensures Cost(w, ExtendPath(path, ids)[t..]) <= Cost(w, path[t..]) + Cost(w, ids)
    decreases |ids|
  {
    hide Cost, AppendPath;
    if ids != [] {
      AppendCosts(w, path, ids[0], t);
      ExtendCosts(w, AppendPath(path, ids[0]), ids[1..], t);
      CostOfFirst(w, ids);
    }
  }

  // What the rest of a batch, and everything appended so far, is worth when [i, t) is still to be
  // post-processed.
  function Worth(d: Design, p: Prices, cap: nat, s: State, i: nat, t: nat): int
    requires WellFormed(d) && PricesFit(d, p) && i <= t <= |s.path| && AllIn(s.path, d.comps)
  {
    InvokedCost(d, p, cap, s.counters, s.path[i..t]) + Cost(p.entry, s.path[t..]) + Slack(d, p, cap, s.counters, p.items)
  }

  lemma {:induction false} InvokedCostReadsItsCounters(d: Design, p: Prices, cap: nat, counters: map<Id, int>, ids: seq<Id>, x: Id, v: int)
    requires WellFormed(d) && PricesFit(d, p) && AllIn(ids, d.comps)
    requires x !in ids || (x in d.comps && !IsItem(d.comps[x].kind))
    ensures InvokedCost(d, p, cap, counters[x := v], ids) == InvokedCost(d, p, cap, counters, ids)
  {
    hide InvokedPrice;
    if ids != [] {
      PriceReadsItsCounter(d, p, cap, counters, counters[x := v], ids[0]);
      InvokedCostReadsItsCounters(d, p, cap, counters, ids[1..], x, v);
    }
  }

  // The entry itself, the passes bought back if it ends, and what it appends.
  lemma PostOnePays(d: Design, p: Prices, cap: nat, s: State, id: Id, r: Reply)
    requires WellFormed(d) && Affordable(d, p, cap) && InRange(d, cap, s.counters) && id in d.comps
    ensures var ended := Ends(d, s, id, r);
            var after := if ended then s.counters[id := -1] else s.counters;
            && InRange(d, cap, after)
            && Cost(p.entry, Appended(d, id, r, ended)) + Slack(d, p, cap, after, p.items) + 1
               <= InvokedPrice(d, p, cap, s.counters, id) + Slack(d, p, cap, s.counters, p.items)
  {
    hide Appended, Slack, Top, PassesLeft;
    assert AffordableAt(d, p, cap, id, r);
    if Ends(d, s, id, r) {
      SlackMoves(d, p, cap, s.counters, p.items, id, -1);
      RefillCoversPasses(d, p, cap, s.counters, id);
    }
  }

  lemma RefillCoversPasses(d: Design, p: Prices, cap: nat, counters: map<Id, int>, id: Id)
    requires WellFormed(d) && PricesFit(d, p) && InRange(d, cap, counters) && id in d.comps && IsItem(d.comps[id].kind)
    ensures PassesLeft(d, p, cap, counters[id := -1], id) <= PassesLeft(d, p, cap, counters, id) + Refill(d, p, cap, id)
    ensures Counter(counters, id) == -1 ==> PassesLeft(d, p, cap, counters[id := -1], id) == PassesLeft(d, p, cap, counters, id)
  {
    hide Top;
    var top, c, k := Top(d, id, cap), Counter(counters, id), p.pass[id];
    assert (top + 1) * k - (top - c) * k == (c + 1) * k <= (top + 1) * k;
  }

  lemma PostAppendCosts(d: Design, p: Prices, s: State, i: nat, t: nat, r: Reply)
    requires WellFormed(d) && PricesFit(d, p) && i < t <= |s.path| && AllIn(s.path, d.comps)
    ensures Ends(d, s, s.path[i], r) ==> IsItem(d.comps[s.path[i]].kind)
    ensures var s' := Post(d, s, i, r);
            var ids := Appended(d, s.path[i], r, Ends(d, s, s.path[i], r));
            Cost(p.entry, s'.path[t..]) <= Cost(p.entry, s.path[t..]) + Cost(p.entry, ids)
  {
    hide Post, ExtendPath, Appended;
    var id := s.path[i];
    var s' := Post(d, s, i, r);
    var ids := Appended(d, id, r, Ends(d, s, id, r));
    PostEffect(d, s, i, r);
    if Diverted(d.comps[id], r) {
      assert s'.path[t..] == s.path[t..] + ids;
      CostSplits(p.entry, s.path[t..], ids);
    } else {
      ExtendCosts(p.entry, s.path, ids, t);
    }
  }

  lemma PostPays(d: Design, p: Prices, cap: nat, s: State, i: nat, t: nat, r: Reply)
    requires WellFormed(d) && Affordable(d, p, cap) && i < t <= |s.path| && AllIn(s.path, d.comps)
    requires InRange(d, cap, s.counters) && ItemsOnce(d, s.path, i, t)
    ensures var s' := Post(d, s, i, r);
            && InRange(d, cap, s'.counters)
            && t <= |s'.path| && Worth(d, p, cap, s', i + 1, t) + 1 <= Worth(d, p, cap, s, i, t)
  {
    hide Post, InvokedPrice, Slack, InRange, Affordable, Appended, ExtendPath, Ends, Cost;
    var id := s.path[i];
    var s' := Post(d, s, i, r);
    AffordableFits(d, p, cap);
    PostEffect(d, s, i, r);
    PostOnePays(d, p, cap, s, id, r);
    PostAppendCosts(d, p, s, i, t, r);
    assert s'.path[i + 1..t] == s.path[i + 1..t];
    assert s.path[i..t] == [id] + s.path[i + 1..t];
    if Ends(d, s, id, r) {
      assert id !in s.path[i + 1..t];
      InvokedCostReadsItsCounters(d, p, cap, s.counters, s.path[i + 1..t], id, -1);
    }
  }

  lemma AffordableFits(d: Design, p: Prices, cap: nat)
    requires WellFormed(d) && Affordable(d, p, cap)
    ensures PricesFit(d, p)
  {
  }

  lemma {:induction false} PostAllPays(d: Design, p: Prices, cap: nat, s: State, i: nat, t: nat, env: Replies)
    requires WellFormed(d) && Affordable(d, p, cap) && i <= t <= |s.path| && AllIn(s.path, d.comps)
    requires InRange(d, cap, s.counters) && ItemsOnce(d, s.path, i, t)
    ensures var s' := PostAll(d, s, i, t, env);
            && InRange(d, cap, s'.counters)
            && Worth(d, p, cap, s', t, t) + (t - i) <= Worth(d, p, cap, s, i, t)
    decreases t - i
  {
    hide Post, Worth, InRange, Affordable;
    if i < t {
      PostPays(d, p, cap, s, i, t, env(i));
      var s1 := Post(d, s, i, env(i));
      assert forall k :: 0 <= k < |s.path| ==> s1.path[k] == s.path[k];
      PostAllPays(d, p, cap, s1, i + 1, t, env);
    }
  }

  /* ---------- a batch, a run ---------- */

  lemma {:induction false} PruneCosts(d: Design, w: map<Id, nat>, path: seq<Id>, i: nat)
    requires i <= |path| && AllIn(path, d.comps) && w.Keys == d.comps.Keys
    ensures Cost(w, Prune(d, path, i, |path|)[i..]) <= Cost(w, path[i..])
    decreases |path| - i
  {
    hide Admitted, Cost;
    var r := Prune(d, path, i, |path|);
    if i == |path| {
    } else if Admitted(d, path, i) {
      PruneCosts(d, w, path, i + 1);
      assert r[..i + 1] == path[..i + 1];
      CostFrom(w, r, i);
      CostFrom(w, path, i);
      assert r[..i + 1][i] == r[i] && path[..i + 1][i] == path[i];
    } else {
      var shorter := path[..i] + path[i + 1..];
      PruneCosts(d, w, shorter, i);
      assert shorter[i..] == path[i + 1..];
      CostFrom(w, path, i);
    }
  }

  lemma CostFrom(w: map<Id, nat>, path: seq<Id>, i: nat)
    requires i < |path| && forall x :: x in path ==> x in w
    ensures (forall x :: x in path[i..] ==> x in w) && (forall x :: x in path[i + 1..] ==> x in w)
    ensures Cost(w, path[i..]) == w[path[i]] + Cost(w, path[i + 1..])
  {
    hide Cost;
    assert path[i..][1..] == path[i + 1..];
    CostOfFirst(w, path[i..]);
  }

  // The batch about to run names no item twice.
  ghost predicate OrderlyBatch(d: Design, s: State)
    requires WellFormed(d) && Pending(d, s)
  {
    var q := Prune(d, s.path, s.idx, |s.path|); ItemsOnce(d, q, s.idx, |q|)
  }

  lemma BatchPays(d: Design, p: Prices, cap: nat, start: nat, s: State, env: Replies)
    requires WellFormed(d) && Affordable(d, p, cap) && Between(d, start, s) && CanStep(s)
    requires InRange(d, cap, s.counters) && Bounded(env, cap) && OrderlyBatch(d, s)
    ensures var b := Batch(d, s, env);
            && InRange(d, cap, b.counters) && b.mark >= s.mark
            && Potential(d, p, cap, b) + (b.mark - s.mark) <= Potential(d, p, cap, s)
  {
    hide Batch, Post, PostAll, Prune, Invoke, InRange, Affordable, Slack, ItemsOnce, InvokedCost;
    var g := Gathered(d, s, env);
    BatchSettles(d, s, env);
    AffordableFits(d, p, cap);
    InvokePays(d, p, cap, g.path, g.idx, g.mark, s.counters, env);
    PruneCosts(d, p.entry, s.path, s.idx);
    PostAllPays(d, p, cap, g, g.idx, g.mark, env);
    var q := Posted(d, s, env);
    assert g.path[g.idx..g.mark] == g.path[g.idx..] && g.path[g.mark..] == [] && q.path[g.mark..g.mark] == [];
    assert InvokedCost(d, p, cap, q.counters, []) == 0 by { NothingCosts(d, p, cap, q.counters); }
  }

  lemma NothingCosts(d: Design, p: Prices, cap: nat, counters: map<Id, int>)
    requires WellFormed(d) && PricesFit(d, p)
    ensures InvokedCost(d, p, cap, counters, []) == 0
  {
  }

  ghost predicate Orderly(d: Design, s: State, env: Replies, fuel: nat)
    requires WellFormed(d) && Pending(d, s)
    decreases fuel
  {
    fuel == 0 || !CanStep(s) || (OrderlyBatch(d, s) && Orderly(d, Batch(d, s, env), env, fuel - 1))
  }

  // The positions executed are paid for out of the potential.
  lemma {:induction false} RunPays(d: Design, p: Prices, cap: nat, start: nat, s: State, env: Replies, fuel: nat)
    requires WellFormed(d) && Affordable(d, p, cap) && Between(d, start, s)
    requires InRange(d, cap, s.counters) && Bounded(env, cap) && Orderly(d, s, env, fuel)
    ensures var e := Run(d, s, env, fuel);
            e.mark >= s.mark && InRange(d, cap, e.counters)
            && Potential(d, p, cap, e) + (e.mark - s.mark) <= Potential(d, p, cap, s)
    decreases fuel
  {
    hide Batch, InRange, Affordable, Potential, OrderlyBatch;
    if fuel > 0 && CanStep(s) {
      BatchPays(d, p, cap, start, s, env);
      BatchIsBetween(d, start, s, env);
      RunPays(d, p, cap, start, Batch(d, s, env), env, fuel - 1);
    }
  }

  lemma PotentialIsNatural(d: Design, p: Prices, cap: nat, s: State)
    requires WellFormed(d) && PricesFit(d, p) && s.mark <= |s.path| && AllIn(s.path, d.comps) && InRange(d, cap, s.counters)
    ensures Potential(d, p, cap, s) >= 0
  {
    SlackIsNatural(d, p, cap, s.counters, p.items);
  }

  // A batch that admits nothing is the last one.
  lemma EmptyBatchIsLast(d: Design, start: nat, s: State, env: Replies)
    requires WellFormed(d) && Between(d, start, s) && CanStep(s) && Batch(d, s, env).mark == s.mark
    ensures !CanStep(Batch(d, s, env))
  {
    hide Batch, Post, Prune, Invoke;
    BatchSettles(d, s, env);
  }

  lemma {:induction false} RunStops(d: Design, p: Prices, cap: nat, start: nat, s: State, env: Replies, fuel: nat)
    requires WellFormed(d) && Affordable(d, p, cap) && Between(d, start, s)
    requires InRange(d, cap, s.counters) && Bounded(env, cap) && Orderly(d, s, env, fuel)
    requires fuel > Potential(d, p, cap, s)
    ensures !CanStep(Run(d, s, env, fuel))
    decreases fuel
  {
    hide Batch, InRange, Affordable, Potential, OrderlyBatch;
    AffordableFits(d, p, cap);
    PotentialIsNatural(d, p, cap, s);
    if CanStep(s) {
      var b := Batch(d, s, env);
      BatchPays(d, p, cap, start, s, env);
      BatchIsBetween(d, start, s, env);
      if b.mark == s.mark {
        EmptyBatchIsLast(d, start, s, env);
      } else {
        RunStops(d, p, cap, start, b, env, fuel - 1);
      }
    }
  }
}
