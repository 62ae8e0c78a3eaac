/** Why orderly batches are asked for: a structured canvas on which two loops are each entered from two
    branches never stops, although each loop allows two passes. The two visits of an item in one batch
    step its counter from 0 to 2, and in the next from 2 through -1 back to 0, so no visit ever sees -1. */
module EndlessLoops {
  import opened Options
  import opened Design
  import opened Scheduler
  import opened CanvasRuns
  import opened Termination
  import opened StructuredCanvas
  import opened ForkedCanvas

  function Node(kind: Kind, downstream: seq<Id>, parent: Option<Id>): Component
  {
    Component(kind, [], downstream, parent, NoHandler, [], 2)
  }

  // begin forks to x and y; both go to the loops l1 and l2, whose items are i1 and i2.
  datatype Names = Names(x: Id, y: Id, l1: Id, l2: Id, i1: Id, i2: Id)

  predicate AllDifferent(n: Names)
  {
    && "begin" != n.x && "begin" != n.y && "begin" != n.l1 && "begin" != n.l2 && "begin" != n.i1 && "begin" != n.i2
    && n.x != n.y && n.x != n.l1 && n.x != n.l2 && n.x != n.i1 && n.x != n.i2
    && n.y != n.l1 && n.y != n.l2 && n.y != n.i1 && n.y != n.i2
    && n.l1 != n.l2 && n.l1 != n.i1 && n.l1 != n.i2
    && n.l2 != n.i1 && n.l2 != n.i2
    && n.i1 != n.i2
  }

  function TwoLoops(n: Names): Design
  {
    Design(["begin", n.x, n.y, n.l1, n.l2, n.i1, n.i2],
           map["begin" := Node(Begin, [n.x, n.y], None),
               n.x := Node(Other, [n.l1, n.l2], None), n.y := Node(Other, [n.l1, n.l2], None),
               n.l1 := Node(Loop, [], None), n.l2 := Node(Loop, [], None),
               n.i1 := Node(LoopItem, [], Some(n.l1)), n.i2 := Node(LoopItem, [], Some(n.l2))])
  }

  // No component errs or streams, and no termination condition ever holds.
  function Quiet(): Replies
  {
    (i: nat) => Reply("", {}, 0, None, false)
  }

  lemma Finds(d: Design, box: Id, ids: seq<Id>, x: Id)
    requires x in ids && IsStartOf(d, box, x)
    ensures FindStart(d, box, ids).Some?
  {
  }

  lemma Lookups(n: Names)
    requires AllDifferent(n)
    ensures var c := TwoLoops(n).comps;
            && c.Keys == {"begin", n.x, n.y, n.l1, n.l2, n.i1, n.i2}
            && c["begin"] == Node(Begin, [n.x, n.y], None)
            && c[n.x] == Node(Other, [n.l1, n.l2], None) && c[n.y] == Node(Other, [n.l1, n.l2], None)
            && c[n.l1] == Node(Loop, [], None) && c[n.l2] == Node(Loop, [], None)
            && c[n.i1] == Node(LoopItem, [], Some(n.l1)) && c[n.i2] == Node(LoopItem, [], Some(n.l2))
    ensures n.i1 in TwoLoops(n).order && n.i2 in TwoLoops(n).order
  {
    assert TwoLoops(n).order[5] == n.i1 && TwoLoops(n).order[6] == n.i2;
  }

  lemma Starts(n: Names)
    requires AllDifferent(n)
    ensures FindStart(TwoLoops(n), n.l1, TwoLoops(n).order) == Some(n.i1)
    ensures FindStart(TwoLoops(n), n.l2, TwoLoops(n).order) == Some(n.i2)
  {
    hide FindStart, TwoLoops;
    var d := TwoLoops(n);
    Lookups(n);
    Finds(d, n.l1, d.order, n.i1);
    Finds(d, n.l2, d.order, n.i2);
    assert forall z :: IsStartOf(d, n.l1, z) ==> z == n.i1;
    assert forall z :: IsStartOf(d, n.l2, z) ==> z == n.i2;
  }

  lemma NodeIsWellFormed(d: Design, x: Id, k: Kind, ids: seq<Id>, parent: Option<Id>)
    requires x in d.comps && d.comps[x] == Node(k, ids, parent) && AllIn(ids, d.comps) && k != ExitLoop
    requires parent.Some? ==> parent.value in d.comps && IsContainer(d.comps[parent.value].kind)
    requires (IsItem(k) ==> parent.Some?) && (IsContainer(k) ==> FindStart(d, x, d.order).Some?)
    ensures WellFormedComponent(d, x)
  {
  }

  lemma IsWellFormed(n: Names)
    requires AllDifferent(n)
    ensures WellFormed(TwoLoops(n))
    ensures GetStart(TwoLoops(n), n.l1) == n.i1 && GetStart(TwoLoops(n), n.l2) == n.i2
  {
    hide FindStart, WellFormedComponent, TwoLoops;
    var d := TwoLoops(n);
    Lookups(n);
    Starts(n);
    NodeIsWellFormed(d, "begin", Begin, [n.x, n.y], None);
    NodeIsWellFormed(d, n.x, Other, [n.l1, n.l2], None);
    NodeIsWellFormed(d, n.y, Other, [n.l1, n.l2], None);
    NodeIsWellFormed(d, n.l1, Loop, [], None);
    NodeIsWellFormed(d, n.l2, Loop, [], None);
    NodeIsWellFormed(d, n.i1, LoopItem, [], Some(n.l1));
    NodeIsWellFormed(d, n.i2, LoopItem, [], Some(n.l2));
  }

  lemma NodeIsStructured(d: Design, rank: map<Id, nat>, x: Id, k: Kind, ids: seq<Id>, parent: Option<Id>)
    requires WellFormed(d) && rank.Keys == d.comps.Keys && x in d.comps && d.comps[x] == Node(k, ids, parent)
    requires forall y :: y in ids ==> y in d.comps && d.comps[y].parent == parent && rank[y] < rank[x] && !IsItem(d.comps[y].kind)
    requires parent.Some? ==> ids == [] && parent.value in d.comps && rank[x] < rank[parent.value] && IsContainer(d.comps[parent.value].kind)
    requires IsItem(k) ==> parent.Some? && GetStart(d, parent.value) == x
    ensures StructuredAt(d, rank, x)
  {
    hide WellFormed, FindStart;
    assert Targets(d.comps[x]) == ids;
  }

  lemma Ranks(n: Names, rank: map<Id, nat>)
    requires AllDifferent(n)
    requires rank == map["begin" := 3, n.x := 2, n.y := 2, n.l1 := 1, n.l2 := 1, n.i1 := 0, n.i2 := 0]
    ensures rank.Keys == {"begin", n.x, n.y, n.l1, n.l2, n.i1, n.i2}
    ensures rank["begin"] == 3 && rank[n.x] == rank[n.y] == 2 && rank[n.l1] == rank[n.l2] == 1 && rank[n.i1] == rank[n.i2] == 0
  {
  }

  lemma IsStructured(n: Names) returns (rank: map<Id, nat>)
    requires AllDifferent(n) && WellFormed(TwoLoops(n))
    ensures Structured(TwoLoops(n), rank)
  {
    hide FindStart, WellFormed, TwoLoops, StructuredAt, GetStart, AllDifferent;
    var d := TwoLoops(n);
    Lookups(n);
    IsWellFormed(n);
    rank := map["begin" := 3, n.x := 2, n.y := 2, n.l1 := 1, n.l2 := 1, n.i1 := 0, n.i2 := 0];
    Ranks(n, rank);
    NodeIsStructured(d, rank, "begin", Begin, [n.x, n.y], None);
    NodeIsStructured(d, rank, n.x, Other, [n.l1, n.l2], None);
    NodeIsStructured(d, rank, n.y, Other, [n.l1, n.l2], None);
    NodeIsStructured(d, rank, n.l1, Loop, [], None);
    NodeIsStructured(d, rank, n.l2, Loop, [], None);
    NodeIsStructured(d, rank, n.i1, LoopItem, [], Some(n.l1));
    NodeIsStructured(d, rank, n.i2, LoopItem, [], Some(n.l2));
  }

  /* ---------- quiet batches ---------- */

  function QuietReply(): Reply { Reply("", {}, 0, None, false) }

  // No entry waits for an input, and no component is a UserFillUp.
  ghost predicate Easy(d: Design)
  {
    forall x {:trigger d.comps[x]} :: x in d.comps ==> d.comps[x].refs == [] && d.comps[x].kind != UserFillUp
  }

  // The path after every id of a batch has appended its successors.
  ghost function Grow(d: Design, path: seq<Id>, ids: seq<Id>): (r: seq<Id>)
    requires WellFormed(d) && path != [] && AllIn(ids, d.comps)
    ensures path <= r
    decreases |ids|
  {
    if ids == [] then path else Grow(d, ExtendPath(path, Appended(d, ids[0], QuietReply(), false)), ids[1..])
  }

  // No counter of an item among `ids` is at -1.
  ghost predicate NoneEnds(d: Design, counters: map<Id, int>, ids: seq<Id>)
    requires AllIn(ids, d.comps)
  {
    forall x :: x in ids && IsItem(d.comps[x].kind) ==> Counter(counters, x) != -1
  }

  lemma QuietPostEffect(d: Design, s: State, i: nat)
    requires WellFormed(d) && i < |s.path| && AllIn(s.path, d.comps) && s.error == ""
    requires NoneEnds(d, s.counters, [s.path[i]])
    ensures var s' := Post(d, s, i, QuietReply());
            && s'.error == "" && s'.counters == s.counters
            && s'.path == ExtendPath(s.path, Appended(d, s.path[i], QuietReply(), false))
  {
    PostEffect(d, s, i, QuietReply());
    hide Successors, ExtendPath, Drained, LateEvents;
    assert s.path[i] in [s.path[i]];
  }

  lemma {:induction false} QuietPostAll(d: Design, s: State, i: nat, t: nat)
    requires WellFormed(d) && i <= t <= |s.path| && s.path != [] && AllIn(s.path, d.comps) && s.error == ""
    requires NoneEnds(d, s.counters, s.path[i..t])
    ensures var s' := PostAll(d, s, i, t, Quiet());
            s'.error == "" && s'.counters == s.counters && s'.path == Grow(d, s.path, s.path[i..t])
    decreases t - i
  {
    hide Post, Appended, ExtendPath;
    if i < t {
      var s1 := Post(d, s, i, QuietReply());
      assert s.path[i] == s.path[i..t][0];
      QuietPostEffect(d, s, i);
      assert s1.path[i + 1..t] == s.path[i..t][1..];
      QuietPostAll(d, s1, i + 1, t);
    }
  }

  lemma {:induction false} EasyPrune(d: Design, path: seq<Id>, i: nat)
    requires Easy(d) && i <= |path| && AllIn(path, d.comps)
    ensures Prune(d, path, i, |path|) == path
    decreases |path| - i
  {
    if i < |path| {
      assert d.comps[path[i]].refs == [];
      EasyPrune(d, path, i + 1);
    }
  }

  lemma QuietBatch(d: Design, s: State)
    requires WellFormed(d) && Easy(d) && Between(d, 0, s) && CanStep(s) && s.error == ""
    requires NoneEnds(d, Invoke(d, s.path, s.idx, |s.path|, s.counters, Quiet()), s.path[s.idx..])
    ensures var b := Batch(d, s, Quiet());
            && Between(d, 0, b) && b.error == "" && b.status == Running && b.idx == |s.path|
            && b.counters == Invoke(d, s.path, s.idx, |s.path|, s.counters, Quiet())
            && b.path == Grow(d, s.path, s.path[s.idx..])
  {
    hide Batch, Post, PostAll, Grow, Invoke, Prune, Appended, ExtendPath, Quiet, Easy;
    var g := Gathered(d, s, Quiet());
    BatchSettles(d, s, Quiet());
    BatchIsBetween(d, 0, s, Quiet());
    EasyPrune(d, s.path, s.idx);
    assert s.path[s.idx..|s.path|] == s.path[s.idx..];
    QuietPostAll(d, g, g.idx, g.mark);
    NeverAwaits(d, Posted(d, s, Quiet()).path[g.mark..]);
  }

  lemma NeverAwaits(d: Design, ids: seq<Id>)
    requires Easy(d) && AllIn(ids, d.comps)
    ensures !AwaitsInput(d, ids)
  {
    forall x | x in ids ensures !IsFillUp(d, x) {
      assert d.comps[x].kind != UserFillUp;
    }
  }

  /* ---------- the run ---------- */

  // Four visits are pending, alternating between a and b.
  ghost predicate Alternating(n: Names, s: State, a: Id, b: Id)
    requires AllDifferent(n)
  {
    && WellFormed(TwoLoops(n)) && Between(TwoLoops(n), 0, s) && s.status == Running && s.error == ""
    && s.path[s.idx..] == [a, b, a, b]
  }

  lemma GrowByOne(d: Design, path: seq<Id>, a: Id, x: Id)
    requires WellFormed(d) && path != [] && a in d.comps && path[|path| - 1] != x
    requires Appended(d, a, QuietReply(), false) == [x]
    ensures ExtendPath(path, Appended(d, a, QuietReply(), false)) == path + [x]
  {
  }

  lemma GrowAlternately(d: Design, path: seq<Id>, a: Id, b: Id, x: Id, y: Id)
    requires WellFormed(d) && path != [] && a in d.comps && b in d.comps && path[|path| - 1] != x && x != y
    requires Appended(d, a, QuietReply(), false) == [x] && Appended(d, b, QuietReply(), false) == [y]
    ensures Grow(d, path, [a, b, a, b]) == path + [x, y, x, y]
  {
    hide Appended, ExtendPath;
    var p1 := path + [x];
    var p2 := p1 + [y];
    var p3 := p2 + [x];
    GrowByOne(d, path, a, x);
    GrowByOne(d, p1, b, y);
    GrowByOne(d, p2, a, x);
    GrowByOne(d, p3, b, y);
    assert [a, b, a, b][1..] == [b, a, b] && [b, a, b][1..] == [a, b] && [a, b][1..] == [b] && [b][1..] == [];
    assert Grow(d, path, [a, b, a, b]) == Grow(d, p1, [b, a, b]) == Grow(d, p2, [a, b]) == Grow(d, p3, [b]);
    assert Grow(d, p3, [b]) == Grow(d, p3 + [y], []) == p3 + [y];
    assert p3 + [y] == path + [x, y, x, y];
  }

  lemma WhatEachAppends(n: Names)
    requires AllDifferent(n)
    ensures var d := TwoLoops(n);
            && WellFormed(d) && Easy(d)
            && Appended(d, "begin", QuietReply(), false) == [n.x, n.y]
            && Appended(d, n.x, QuietReply(), false) == [n.l1, n.l2] && Appended(d, n.y, QuietReply(), false) == [n.l1, n.l2]
            && Appended(d, n.l1, QuietReply(), false) == [n.i1] && Appended(d, n.l2, QuietReply(), false) == [n.i2]
            && Appended(d, n.i1, QuietReply(), false) == [n.i1] && Appended(d, n.i2, QuietReply(), false) == [n.i2]
  {
    hide TwoLoops, WellFormed, GetStart;
    IsWellFormed(n);
    Lookups(n);
  }

  // Two visits of each item in one batch.
  lemma FourInvokes(n: Names, path: seq<Id>, i: nat, counters: map<Id, int>, c: int)
    requires AllDifferent(n) && WellFormed(TwoLoops(n)) && i <= |path| && AllIn(path, TwoLoops(n).comps)
    requires path[i..] == [n.i1, n.i2, n.i1, n.i2] && Counter(counters, n.i1) == c && Counter(counters, n.i2) == c
    ensures var after := Invoke(TwoLoops(n), path, i, |path|, counters, Quiet());
            var twice := StepCounter(StepCounter(c, 2), 2);
            Counter(after, n.i1) == twice && Counter(after, n.i2) == twice
  {
    hide TwoLoops, WellFormed;
    var d := TwoLoops(n);
    Lookups(n);
    assert |path| == i + 4;
    assert path[i] == path[i..][0] && path[i + 1] == path[i..][1] && path[i + 2] == path[i..][2] && path[i + 3] == path[i..][3];
    var once := StepCounter(c, 2);
    var c1 := counters[n.i1 := once];
    var c2 := c1[n.i2 := once];
    var c3 := c2[n.i1 := StepCounter(once, 2)];
    var c4 := c3[n.i2 := StepCounter(once, 2)];
    assert Invoke(d, path, i + 4, i + 4, c4, Quiet()) == c4;
    assert Invoke(d, path, i + 3, i + 4, c3, Quiet()) == Invoke(d, path, i + 4, i + 4, c4, Quiet());
    assert Invoke(d, path, i + 2, i + 4, c2, Quiet()) == Invoke(d, path, i + 3, i + 4, c3, Quiet());
    assert Invoke(d, path, i + 1, i + 4, c1, Quiet()) == Invoke(d, path, i + 2, i + 4, c2, Quiet());
    assert Invoke(d, path, i, i + 4, counters, Quiet()) == Invoke(d, path, i + 1, i + 4, c1, Quiet());
  }

  ghost predicate CountersAt(n: Names, s: State, c: int)
  {
    Counter(s.counters, n.i1) == c && Counter(s.counters, n.i2) == c
  }

  // A round of the two items turns counters 0 into 2 and 2 into 0, and leaves the same visits pending.
  lemma ItemRound(n: Names, s: State, c: int)
    requires AllDifferent(n) && Alternating(n, s, n.i1, n.i2) && CountersAt(n, s, c) && (c == 0 || c == 2)
    ensures CanStep(s)
    ensures var b := Batch(TwoLoops(n), s, Quiet()); Alternating(n, b, n.i1, n.i2) && CountersAt(n, b, 2 - c)
  {
    hide TwoLoops, WellFormed, Batch, Invoke, Grow, Appended, Easy, Quiet;
    var d := TwoLoops(n);
    WhatEachAppends(n);
    Lookups(n);
    FourInvokes(n, s.path, s.idx, s.counters, c);
    QuietBatch(d, s);
    assert s.path[|s.path| - 1] == s.path[s.idx..][3];
    GrowAlternately(d, s.path, n.i1, n.i2, n.i1, n.i2);
  }

  lemma {:induction false} ItemsForever(n: Names, s: State, c: int, fuel: nat)
    requires AllDifferent(n) && Alternating(n, s, n.i1, n.i2) && CountersAt(n, s, c) && (c == 0 || c == 2)
    ensures CanStep(Run(TwoLoops(n), s, Quiet(), fuel))
    decreases fuel
  {
    hide TwoLoops, WellFormed, Batch, Quiet, Alternating;
    AlternatingGives(n, s);
    ItemRound(n, s, c);
    if fuel > 0 {
      ItemsForever(n, Batch(TwoLoops(n), s, Quiet()), 2 - c, fuel - 1);
    }
  }

  lemma AlternatingGives(n: Names, s: State)
    requires AllDifferent(n) && Alternating(n, s, n.i1, n.i2)
    ensures WellFormed(TwoLoops(n)) && Pending(TwoLoops(n), s)
  {
  }

  lemma NothingToInvoke(d: Design, path: seq<Id>, i: nat, counters: map<Id, int>)
    requires WellFormed(d) && i <= |path| && AllIn(path, d.comps)
    requires forall k :: i <= k < |path| ==> !IsItem(d.comps[path[k]].kind)
    ensures Invoke(d, path, i, |path|, counters, Quiet()) == counters
    decreases |path| - i
  {
    if i < |path| {
      NothingToInvoke(d, path, i + 1, counters);
    }
  }

  lemma LoopRound(n: Names, s: State)
    requires AllDifferent(n) && Alternating(n, s, n.l1, n.l2) && s.counters == map[]
    ensures CanStep(s)
    ensures var b := Batch(TwoLoops(n), s, Quiet()); Alternating(n, b, n.i1, n.i2) && CountersAt(n, b, 0)
  {
    hide TwoLoops, WellFormed, Batch, Invoke, Grow, Appended, Easy, Quiet;
    var d := TwoLoops(n);
    WhatEachAppends(n);
    Lookups(n);
    forall k | s.idx <= k < |s.path| ensures !IsItem(d.comps[s.path[k]].kind) {
      assert s.path[k] == s.path[s.idx..][k - s.idx];
    }
    NothingToInvoke(d, s.path, s.idx, s.counters);
    QuietBatch(d, s);
    assert s.path[|s.path| - 1] == s.path[s.idx..][3];
    GrowAlternately(d, s.path, n.l1, n.l2, n.i1, n.i2);
  }

  lemma ExtendTwo(path: seq<Id>, x: Id, y: Id)
    requires path != [] && path[|path| - 1] != x && x != y
    ensures ExtendPath(path, [x, y]) == path + [x, y]
  {
    var p1 := path + [x];
    var p2 := p1 + [y];
    assert [x, y][1..] == [y] && [y][1..] == [];
    assert AppendPath(path, x) == p1 && AppendPath(p1, y) == p2;
    assert ExtendPath(p1, [y]) == ExtendPath(p2, []) == p2;
    assert p2 == path + [x, y];
  }

  lemma BeginForks(n: Names)
    requires AllDifferent(n)
    ensures WellFormed(TwoLoops(n))
    ensures Between(TwoLoops(n), 0, StartState([], map[])) && CanStep(StartState([], map[]))
    ensures var s1 := Batch(TwoLoops(n), StartState([], map[]), Quiet());
            Between(TwoLoops(n), 0, s1) && CanStep(s1) && s1.error == "" && s1.idx == 1
            && s1.path == ["begin", n.x, n.y] && s1.counters == map[]
  {
    hide TwoLoops, WellFormed, Batch, Invoke, Grow, Appended, Easy, Quiet;
    var d := TwoLoops(n);
    var s0 := StartState([], map[]);
    WhatEachAppends(n);
    Lookups(n);
    assert s0.path == ["begin"] && s0.path[0..] == ["begin"];
    NothingToInvoke(d, s0.path, 0, map[]);
    QuietBatch(d, s0);
    GrowOnce(d, s0.path, "begin", n.x, n.y);
  }

  lemma BranchesMeet(n: Names, s: State)
    requires AllDifferent(n) && WellFormed(TwoLoops(n)) && Between(TwoLoops(n), 0, s) && CanStep(s)
    requires s.error == "" && s.idx == 1 && s.path == ["begin", n.x, n.y] && s.counters == map[]
    ensures var b := Batch(TwoLoops(n), s, Quiet()); Alternating(n, b, n.l1, n.l2) && b.counters == map[]
  {
    hide TwoLoops, WellFormed, Batch, Invoke, Grow, Appended, Easy, Quiet;
    var d := TwoLoops(n);
    WhatEachAppends(n);
    Lookups(n);
    assert s.path[1..] == [n.x, n.y];
    NothingToInvoke(d, s.path, 1, map[]);
    QuietBatch(d, s);
    GrowTwice(d, s.path, n.x, n.y, n.l1, n.l2);
    assert Batch(d, s, Quiet()).path[3..] == [n.l1, n.l2, n.l1, n.l2];
  }

  lemma GrowOnce(d: Design, path: seq<Id>, a: Id, x: Id, y: Id)
    requires WellFormed(d) && path != [] && a in d.comps && path[|path| - 1] != x && x != y
    requires Appended(d, a, QuietReply(), false) == [x, y]
    ensures Grow(d, path, [a]) == path + [x, y]
  {
    hide Appended, ExtendPath;
    ExtendTwo(path, x, y);
    assert [a][1..] == [];
    assert Grow(d, path + [x, y], []) == path + [x, y];
  }

  lemma GrowTwice(d: Design, path: seq<Id>, a: Id, b: Id, x: Id, y: Id)
    requires WellFormed(d) && path != [] && a in d.comps && b in d.comps && path[|path| - 1] != x && x != y
    requires Appended(d, a, QuietReply(), false) == [x, y] && Appended(d, b, QuietReply(), false) == [x, y]
    ensures Grow(d, path, [a, b]) == path + [x, y, x, y]
  {
    hide Appended, ExtendPath;
    ExtendTwo(path, x, y);
    GrowOnce(d, path + [x, y], b, x, y);
    assert [a, b][1..] == [b];
    assert path + [x, y] + [x, y] == path + [x, y, x, y];
  }

  lemma AlwaysSteps(n: Names, fuel: nat)
    requires AllDifferent(n)
    ensures WellFormed(TwoLoops(n)) && (exists rank :: Structured(TwoLoops(n), rank))
    ensures Pending(TwoLoops(n), StartState([], map[]))
    ensures CanStep(Run(TwoLoops(n), StartState([], map[]), Quiet(), fuel))
  {
    hide TwoLoops, WellFormed, Batch, Structured, Quiet, Alternating;
    var d := TwoLoops(n);
    BeginForks(n);
    var rank := IsStructured(n);
    var s1 := Batch(d, StartState([], map[]), Quiet());
    BranchesMeet(n, s1);
    var s2 := Batch(d, s1, Quiet());
    LoopRound(n, s2);
    if fuel >= 1 {
      assert Run(d, StartState([], map[]), Quiet(), fuel) == Run(d, s1, Quiet(), fuel - 1);
    }
    if fuel >= 2 {
      assert Run(d, s1, Quiet(), fuel - 1) == Run(d, s2, Quiet(), fuel - 2);
    }
    if fuel >= 3 {
      assert Run(d, s2, Quiet(), fuel - 2) == Run(d, Batch(d, s2, Quiet()), Quiet(), fuel - 3);
      ItemsForever(n, Batch(d, s2, Quiet()), 0, fuel - 3);
    }
  }

  // From an empty path and fresh counters there is a run of every length on this structured canvas, and
  // all of them can go on.
  lemma {:induction false} NeverStops(n: Names, length: nat) returns (run: seq<State>)
    requires AllDifferent(n) && length > 0
    ensures WellFormed(TwoLoops(n)) && (exists rank :: Structured(TwoLoops(n), rank))
    ensures IsRun(TwoLoops(n), [], map[], Quiet(), run) && |run| == length && CanStep(run[length - 1])
    decreases length
  {
    hide TwoLoops, WellFormed, Batch, Structured, Quiet;
    var d := TwoLoops(n);
    AlwaysSteps(n, length - 1);
    if length == 1 {
      run := [StartState([], map[])];
    } else {
      var before := NeverStops(n, length - 1);
      var last := before[length - 2];
      AlwaysSteps(n, length - 2);
      RunStates(d, [], map[], Quiet(), before, length - 2);
      RunSplits(d, before[0], Quiet(), length - 2, 1);
      assert Run(d, Batch(d, last, Quiet()), Quiet(), 0) == Batch(d, last, Quiet());
      run := before + [Batch(d, last, Quiet())];
      forall k | 0 <= k < |run| - 1 ensures NextAt(d, Quiet(), run, k) {
        if k < |before| - 1 {
          assert NextAt(d, Quiet(), before, k);
        }
      }
    }
  }

  lemma OneTarget(d: Design, x: Id, box: Id)
    requires x in d.comps && box in d.comps && box in d.comps[x].downstream
    ensures Reaches(d, x, box)
  {
    assert box in Targets(d.comps[x]);
    assert TargetWalk(d, [x, box]);
  }

  // It is just what the wiring condition shuts out: both branches of the fork reach both loops.
  lemma LoopsAreShared(n: Names)
    requires AllDifferent(n)
    ensures !ForksApart(TwoLoops(n))
  {
    hide TwoLoops, Reaches;
    var d := TwoLoops(n);
    Lookups(n);
    OneTarget(d, n.x, n.l1);
    OneTarget(d, n.y, n.l1);
    assert Meet(d, n.x, n.y);
    var fork := d.comps["begin"].downstream;
    assert fork[0] == n.x && fork[1] == n.y;
    assert !Apart(d, fork);
  }

  // Such a canvas exists.
  lemma NamesExist() returns (n: Names)
    ensures AllDifferent(n)
  {
    n := Names("x", "y", "l1", "l2", "i1", "i2");
    assert "l1"[1] != "l2"[1] && "l1"[0] != "i1"[0] && "l2"[0] != "i1"[0] && "x"[0] != "y"[0];
    assert |"begin"| == 5 && |"x"| == 1 && |"y"| == 1 && |"l1"| == 2 && |"l2"| == 2 && |"i1"| == 2 && |"i2"| == 2;
  }
}
