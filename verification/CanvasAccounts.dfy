/** The books a run keeps: every executed position is post-processed once, every node that is not a
    container owes exactly one finished event, and deferred events are paid in order. */
module CanvasAccounts {
  import opened Design
  import opened Scheduler
  import opened CanvasRuns

  /* ---------- every executed position is post-processed once, in order ---------- */

  function Span(from: nat, to: nat): (r: seq<nat>)
    requires from <= to
    ensures |r| == to - from && forall k :: 0 <= k < |r| ==> r[k] == from + k
  {
    seq(to - from, k requires 0 <= k => from + k)
  }

  lemma PostVisits(d: Design, s: State, i: nat, r: Reply)
    requires WellFormed(d) && i < |s.path| && AllIn(s.path, d.comps)
    ensures Post(d, s, i, r).visits == s.visits + [i]
  {
    hide Successors, ExtendPath, Diverted, ItemEnds, Drained, LateEvents;
  }

  lemma {:induction false} PostAllVisits(d: Design, s: State, i: nat, t: nat, env: Replies)
    requires WellFormed(d) && i <= t <= |s.path| && AllIn(s.path, d.comps)
    ensures PostAll(d, s, i, t, env).visits == s.visits + Span(i, t)
    decreases t - i
  {
    hide Post;
    if i < t {
      PostVisits(d, s, i, env(i));
      PostAllVisits(d, Post(d, s, i, env(i)), i + 1, t, env);
      assert Span(i, t) == [i] + Span(i + 1, t);
    }
  }

  lemma BatchVisits(d: Design, start: nat, s: State, env: Replies)
    requires WellFormed(d) && Between(d, start, s) && CanStep(s) && s.visits == Span(start, s.mark)
    ensures var s' := Batch(d, s, env); s'.mark >= start && s'.visits == Span(start, s'.mark)
  {
    hide Batch, Post, Prune, Invoke;
    var g := Gathered(d, s, env);
    BatchSettles(d, s, env);
    PostAllVisits(d, g, g.idx, g.mark, env);
    assert Span(start, s.mark) + Span(g.idx, g.mark) == Span(start, g.mark);
  }

  lemma {:induction false} RunVisits(d: Design, start: nat, s: State, env: Replies, fuel: nat)
    requires WellFormed(d) && Between(d, start, s) && s.visits == Span(start, s.mark)
    ensures var s' := Run(d, s, env, fuel); s'.mark >= start && s'.visits == Span(start, s'.mark)
    decreases fuel
  {
    hide Batch;
    if fuel > 0 && CanStep(s) {
      BatchVisits(d, start, s, env);
      BatchIsBetween(d, start, s, env);
      RunVisits(d, start, Batch(d, s, env), env, fuel - 1);
    }
  }

  // Batches tile the executed positions, and each position in them is post-processed exactly once.
  lemma EachPositionOnce(d: Design, path: seq<Id>, counters: map<Id, int>, env: Replies, run: seq<State>, k: nat)
    requires WellFormed(d) && IsRun(d, path, counters, env, run) && k < |run|
    ensures run[0].idx <= run[k].mark && run[k].visits == Span(run[0].idx, run[k].mark)
  {
    hide Batch, Run, IsRun;
    RunStates(d, path, counters, env, run, 0);
    RunStates(d, path, counters, env, run, k);
    StartIsTheMark(d, path, counters, env, run);
    RunVisits(d, run[0].idx, run[0], env, k);
  }

  /* ---------- what the run leaves behind as the path ---------- */

  lemma BatchKeepsPrefix(d: Design, s: State, env: Replies)
    requires WellFormed(d) && Pending(d, s) && CanStep(s)
    ensures var b := Batch(d, s, env); b.path[..s.idx] == s.path[..s.idx] && (b.status == Failed ==> b.idx == s.idx)
  {
    hide Batch, Posted, Invoke;
    BatchSettles(d, s, env);
    var g := Gathered(d, s, env);
    assert Posted(d, s, env).path[..s.idx] == g.path[..s.idx];
  }

  lemma BatchReportsError(d: Design, s: State, env: Replies)
    requires WellFormed(d) && Pending(d, s) && CanStep(s)
    ensures var b := Batch(d, s, env); b.status == Failed <==> b.error != ""
  {
    hide Posted, Batch;
    BatchSettles(d, s, env);
  }

  // A failing run keeps exactly the batches that were fully processed before the failing one.
  lemma FailureKeepsGoodBatches(d: Design, path: seq<Id>, counters: map<Id, int>, env: Replies, run: seq<State>)
    requires WellFormed(d) && IsRun(d, path, counters, env, run) && run[|run| - 1].status == Failed
    ensures |run| >= 2 && run[|run| - 1].error != ""
    ensures FinalPath(d, run[|run| - 1]) == run[|run| - 2].path[..run[|run| - 2].mark]
    ensures forall k :: 1 <= k < |run| - 1 ==> run[k].error == ""
  {
    hide Batch, Run, IsRun;
    StartIsTheMark(d, path, counters, env, run);
    var last := |run| - 1;
    RunStates(d, path, counters, env, run, last - 1);
    BatchReportsError(d, run[last - 1], env);
    BatchKeepsPrefix(d, run[last - 1], env);
    forall k | 1 <= k < last ensures run[k].error == "" {
      RunStates(d, path, counters, env, run, k - 1);
      RunStates(d, path, counters, env, run, k);
      BatchReportsError(d, run[k - 1], env);
    }
  }

  // The component reports an error that has neither a branch to go to nor a default to show.
  predicate Unhandled(c: Component, r: Reply)
  {
    r.error != "" && (c.handler.NoHandler? || (c.handler.goto == [] && !c.handler.hasDefault))
  }

  ghost predicate UnhandledAt(d: Design, path: seq<Id>, env: Replies, j: nat)
    requires j < |path| && AllIn(path, d.comps)
  {
    Unhandled(d.comps[path[j]], env(j))
  }

  ghost predicate SomeUnhandled(d: Design, path: seq<Id>, env: Replies, i: nat, t: nat)
    requires t <= |path| && AllIn(path, d.comps)
  {
    exists j :: i <= j < t && UnhandledAt(d, path, env, j)
  }

  lemma PostTakesError(d: Design, s: State, i: nat, r: Reply)
    requires WellFormed(d) && i < |s.path| && AllIn(s.path, d.comps)
    ensures Post(d, s, i, r).error == if Unhandled(d.comps[s.path[i]], r) then r.error else s.error
  {
    hide Announce, HandleError, Report, Advance, WellFormed;
    var id := s.path[i];
    var s1 := Announce(d, s, id, r);
    var s2 := HandleError(d, s1, id, r);
    StagesTakeError(d, s, id, r);
    StagesTakeError(d, s1, id, r);
    StagesTakeError(d, s2, id, r);
    StagesTakeError(d, Report(d, s2, id, r), id, r);
  }

  lemma StagesTakeError(d: Design, s: State, id: Id, r: Reply)
    requires WellFormed(d) && id in d.comps && s.path != [] && AllIn(s.path, d.comps)
    ensures Announce(d, s, id, r).error == s.error && Report(d, s, id, r).error == s.error
    ensures Advance(d, s, id, r).error == s.error
    ensures HandleError(d, s, id, r).error == if Unhandled(d.comps[id], r) then r.error else s.error
  {
    hide Successors, ExtendPath, ItemEnds, Drained, LateEvents, AllIn;
  }

  lemma {:induction false} PostAllTakesErrors(d: Design, s: State, i: nat, t: nat, env: Replies)
    requires WellFormed(d) && i <= t <= |s.path| && AllIn(s.path, d.comps)
    ensures PostAll(d, s, i, t, env).error == "" <==> s.error == "" && !SomeUnhandled(d, s.path, env, i, t)
    decreases t - i
  {
    hide Post, Unhandled;
    if i < t {
      var s1 := Post(d, s, i, env(i));
      PostTakesError(d, s, i, env(i));
      PostAllTakesErrors(d, s1, i + 1, t, env);
      forall j | i <= j < t ensures UnhandledAt(d, s1.path, env, j) <==> UnhandledAt(d, s.path, env, j) {
        assert s1.path[j] == s.path[j];
      }
      UnhandledHasError(d.comps[s.path[i]], env(i));
      assert UnhandledAt(d, s.path, env, i) <==> Unhandled(d.comps[s.path[i]], env(i));
    }
  }

  lemma UnhandledHasError(c: Component, r: Reply)
    ensures Unhandled(c, r) ==> r.error != ""
  {
  }

  // A batch fails the run exactly when one of its positions reports an error nothing handles.
  lemma FailsOnUnhandledError(d: Design, path: seq<Id>, counters: map<Id, int>, env: Replies, run: seq<State>, k: nat)
    requires WellFormed(d) && IsRun(d, path, counters, env, run) && k + 1 < |run|
    ensures run[k + 1].status == Failed <==> SomeUnhandled(d, run[k + 1].path, env, run[k].mark, run[k + 1].mark)
  {
    var s, b := run[k], run[k + 1];
    RunStates(d, path, counters, env, run, k);
    GoodSoFar(d, path, counters, env, run, k);
    BatchReportsError(d, s, env);
    hide IsRun, Run, Batch, Post, PostAll, UnhandledAt, Prune, Invoke, WellFormed;
    BatchSettles(d, s, env);
    var g := Gathered(d, s, env);
    PostAllTakesErrors(d, g, g.idx, g.mark, env);
    SameUnhandled(d, g.path, b.path, env, g.idx, g.mark);
  }

  lemma SameUnhandled(d: Design, p: seq<Id>, q: seq<Id>, env: Replies, i: nat, t: nat)
    requires AllIn(p, d.comps) && AllIn(q, d.comps) && p <= q && i <= t <= |p|
    ensures SomeUnhandled(d, q, env, i, t) <==> SomeUnhandled(d, p, env, i, t)
  {
    hide UnhandledAt;
    forall j | i <= j < t ensures UnhandledAt(d, q, env, j) <==> UnhandledAt(d, p, env, j) {
      SameEntry(d, p, q, env, j);
    }
  }

  lemma SameEntry(d: Design, p: seq<Id>, q: seq<Id>, env: Replies, j: nat)
    requires AllIn(p, d.comps) && AllIn(q, d.comps) && p <= q && j < |p|
    ensures UnhandledAt(d, q, env, j) <==> UnhandledAt(d, p, env, j)
  {
  }

  lemma GoodSoFar(d: Design, path: seq<Id>, counters: map<Id, int>, env: Replies, run: seq<State>, k: nat)
    requires WellFormed(d) && IsRun(d, path, counters, env, run) && k + 1 < |run|
    ensures run[k].error == ""
  {
    hide Batch;
    RunStates(d, path, counters, env, run, k);
    if k > 0 {
      RunStates(d, path, counters, env, run, k - 1);
      BatchReportsError(d, run[k - 1], env);
    }
  }

  // A run that ends by itself keeps its whole path.
  lemma SuccessKeepsThePath(d: Design, path: seq<Id>, counters: map<Id, int>, env: Replies, run: seq<State>)
    requires WellFormed(d) && IsRun(d, path, counters, env, run)
    requires run[|run| - 1].status == Running && !CanStep(run[|run| - 1])
    ensures FinalPath(d, run[|run| - 1]) == run[|run| - 1].path && run[|run| - 1].mark == |run[|run| - 1].path|
  {
    hide Batch, Run, IsRun;
    StartIsTheMark(d, path, counters, env, run);
    RunStates(d, path, counters, env, run, |run| - 1);
  }

  /* ---------- pausing for user input ---------- */

  lemma BagOfFirst(x: Id, ids: seq<Id>)
    ensures multiset([x] + ids) == multiset{x} + multiset(ids)
  {
  }

  lemma BagsGrow(x: Id, ids: seq<Id>, f: seq<Id>, r: seq<Id>)
    requires multiset(f) + multiset(r) == multiset(ids)
    ensures multiset([x] + f) + multiset(r) == multiset([x] + ids)
    ensures multiset(f) + multiset([x] + r) == multiset([x] + ids)
  {
    BagOfFirst(x, ids);
    BagOfFirst(x, f);
    BagOfFirst(x, r);
  }

  // Taking the first id to one side leaves the other side alone.
  lemma FirstGoesToOneSide(d: Design, ids: seq<Id>)
    requires ids != [] && AllIn(ids, d.comps)
    ensures AllIn(ids[1..], d.comps) && ids == [ids[0]] + ids[1..]
    ensures FillUps(d, ids) == if IsFillUp(d, ids[0]) then [ids[0]] + FillUps(d, ids[1..]) else FillUps(d, ids[1..])
    ensures NonFillUps(d, ids) == if IsFillUp(d, ids[0]) then NonFillUps(d, ids[1..]) else [ids[0]] + NonFillUps(d, ids[1..])
  {
  }

  lemma {:induction false} ReorderingKeepsAll(d: Design, ids: seq<Id>)
    requires AllIn(ids, d.comps)
    ensures multiset(FillUps(d, ids)) + multiset(NonFillUps(d, ids)) == multiset(ids)
    decreases |ids|
  {
    if ids == [] {
      assert FillUps(d, ids) == [] && NonFillUps(d, ids) == [];
    } else {
      hide FillUps, NonFillUps, IsFillUp, AllIn;
      FirstGoesToOneSide(d, ids);
      ReorderingKeepsAll(d, ids[1..]);
      BagsGrow(ids[0], ids[1..], FillUps(d, ids[1..]), NonFillUps(d, ids[1..]));
    }
  }

  lemma {:induction false} ReorderingIsStable(d: Design, ids: seq<Id>)
    requires AllIn(ids, d.comps)
    ensures Subsequence(FillUps(d, ids), ids) && Subsequence(NonFillUps(d, ids), ids)
    decreases |ids|
  {
    if ids != [] {
      hide FillUps, NonFillUps, IsFillUp;
      FirstGoesToOneSide(d, ids);
      ReorderingIsStable(d, ids[1..]);
    }
  }

  lemma {:induction false} ReorderingSorts(d: Design, ids: seq<Id>)
    requires AllIn(ids, d.comps)
    ensures forall x :: x in FillUps(d, ids) ==> x in ids && d.comps[x].kind == UserFillUp
    ensures forall x :: x in NonFillUps(d, ids) ==> x in ids && d.comps[x].kind != UserFillUp
    ensures AwaitsInput(d, ids) ==> FillUps(d, ids) != []
    decreases |ids|
  {
    if ids != [] {
      ReorderingSorts(d, ids[1..]);
      assert ids == [ids[0]] + ids[1..];
    }
  }

  // A paused run leaves the entries not yet executed, UserFillUps first; there is at least one.
  lemma PauseReorders(d: Design, path: seq<Id>, counters: map<Id, int>, env: Replies, run: seq<State>)
    requires WellFormed(d) && IsRun(d, path, counters, env, run) && run[|run| - 1].status == Paused
    ensures var s := run[|run| - 1];
            var pending := s.path[s.mark..];
            FinalPath(d, s) == FillUps(d, pending) + NonFillUps(d, pending) && FillUps(d, pending) != []
            && (forall x :: x in FillUps(d, pending) ==> x in d.comps && d.comps[x].kind == UserFillUp)
            && (forall x :: x in NonFillUps(d, pending) ==> x in d.comps && d.comps[x].kind != UserFillUp)
            && multiset(FillUps(d, pending)) + multiset(NonFillUps(d, pending)) == multiset(pending)
  {
    hide Batch, Run, IsRun, FillUps, NonFillUps;
    StartIsTheMark(d, path, counters, env, run);
    var last := |run| - 1;
    RunStates(d, path, counters, env, run, last - 1);
    RunStates(d, path, counters, env, run, last);
    PausedAwaitsInput(d, run[last - 1], env);
    ReorderingSorts(d, run[last].path[run[last].mark..]);
    ReorderingKeepsAll(d, run[last].path[run[last].mark..]);
  }

  lemma PausedAwaitsInput(d: Design, s: State, env: Replies)
    requires WellFormed(d) && Pending(d, s) && CanStep(s) && Batch(d, s, env).status == Paused
    ensures var b := Batch(d, s, env); AwaitsInput(d, b.path[b.mark..])
  {
    hide Batch, Posted, AwaitsInput;
    BatchSettles(d, s, env);
  }

  /* ---------- finished events ---------- */

  predicate Owes(d: Design, id: Id)
  {
    id in d.comps ==> !IsContainer(d.comps[id].kind)
  }

  // The ids among `ids` that owe a finished event.
  function Debts(d: Design, ids: seq<Id>): (n: nat)
    ensures n <= |ids|
  {
    if ids == [] then 0 else Debts(d, ids[..|ids| - 1]) + (if Owes(d, ids[|ids| - 1]) then 1 else 0)
  }

  function Payments(d: Design, events: seq<Event>): nat
  {
    if events == [] then 0
    else
      var e := events[|events| - 1];
      Payments(d, events[..|events| - 1]) + (if e.Finished? && Owes(d, e.id) then 1 else 0)
  }

  // The nodes whose finished event came late, in the order of those events.
  function Late(events: seq<Event>): seq<Id>
  {
    if events == [] then []
    else
      var e := events[|events| - 1];
      Late(events[..|events| - 1]) + (if e.Finished? && e.late then [e.id] else [])
  }

  lemma PayOne(d: Design, events: seq<Event>, e: Event)
    ensures Payments(d, events + [e]) == Payments(d, events) + (if e.Finished? && Owes(d, e.id) then 1 else 0)
    ensures Late(events + [e]) == Late(events) + (if e.Finished? && e.late then [e.id] else [])
  {
    assert (events + [e])[..|events|] == events;
  }

  lemma {:induction false} PayLate(d: Design, events: seq<Event>, ids: seq<Id>)
    requires forall x :: x in ids ==> Owes(d, x)
    ensures Payments(d, events + LateEvents(ids)) == Payments(d, events) + |ids|
    ensures Late(events + LateEvents(ids)) == Late(events) + ids
    decreases |ids|
  {
    hide Owes, LateEvents, Payments, Late;
    LateEventsGrow(ids);
    if ids == [] {
      assert events + LateEvents(ids) == events;
    } else {
      var front, last := ids[..|ids| - 1], ids[|ids| - 1];
      PayLate(d, events, front);
      assert events + LateEvents(ids) == (events + LateEvents(front)) + [Finished(last, true)];
      PayOne(d, events + LateEvents(front), Finished(last, true));
      assert Late(events) + ids == Late(events) + front + [last];
    }
  }

  lemma LateEventsGrow(ids: seq<Id>)
    ensures LateEvents(ids) == if ids == [] then [] else LateEvents(ids[..|ids| - 1]) + [Finished(ids[|ids| - 1], true)]
  {
  }

  lemma PayNothing(d: Design, events: seq<Event>, more: seq<Event>)
    requires forall k :: 0 <= k < |more| ==> !more[k].Finished?
    ensures Payments(d, events + more) == Payments(d, events) && Late(events + more) == Late(events)
    decreases |more|
  {
    if more == [] {
      assert events + more == events;
    } else {
      var front, last := more[..|more| - 1], more[|more| - 1];
      PayNothing(d, events, front);
      assert events + more == (events + front) + [last];
      PayOne(d, events + front, last);
    }
  }

  // `n` finished events have been owed so far.
  ghost predicate Balanced(d: Design, s: State, n: nat)
  {
    && n == Payments(d, s.events) + |s.partials|
    && s.deferred == Late(s.events) + s.partials
    && forall x :: x in s.partials ==> Owes(d, x)
  }

  lemma AnnounceBalances(d: Design, s: State, id: Id, r: Reply, n: nat)
    requires id in d.comps && Balanced(d, s, n)
    ensures Balanced(d, Announce(d, s, id, r), n)
  {
    hide Payments, Late, Owes, LateEvents, Drained;
    if d.comps[id].kind == Message {
      var k := Drained(s.partials, r.live);
      var sent := [MessageSent(id), MessageEnd(id)];
      PayNothing(d, s.events, sent);
      PayLate(d, s.events + sent, s.partials[..k]);
      assert s.partials == s.partials[..k] + s.partials[k..];
      assert Late(s.events) + s.partials == Late(s.events) + s.partials[..k] + s.partials[k..];
    }
  }

  lemma HandleErrorBalances(d: Design, s: State, id: Id, r: Reply, n: nat)
    requires WellFormed(d) && id in d.comps && AllIn(s.path, d.comps) && Balanced(d, s, n)
    ensures Balanced(d, HandleError(d, s, id, r), n)
  {
    hide Payments, Late, Owes;
    PayNothing(d, s.events, [MessageSent(id), MessageEnd(id)]);
  }

  lemma ReportBalances(d: Design, s: State, id: Id, r: Reply, n: nat)
    requires id in d.comps && Balanced(d, s, n)
    ensures Balanced(d, Report(d, s, id, r), n + if Owes(d, id) then 1 else 0)
  {
    hide Payments, Late;
    PayOne(d, s.events, Finished(id, false));
    assert Late(s.events) + s.partials + [id] == Late(s.events) + (s.partials + [id]);
  }

  lemma AdvanceBalances(d: Design, s: State, id: Id, r: Reply, n: nat)
    requires WellFormed(d) && id in d.comps && s.path != [] && AllIn(s.path, d.comps) && Balanced(d, s, n)
    ensures Balanced(d, Advance(d, s, id, r), n)
  {
    hide Payments, Late, Successors, ExtendPath, Diverted;
    var c := d.comps[id];
    assert WellFormedComponent(d, id);
    if IsItem(c.kind) {
      PayOne(d, s.events, Finished(c.parent.value, false));
    }
  }

  lemma PostBalances(d: Design, s: State, i: nat, r: Reply, n: nat)
    requires WellFormed(d) && i < |s.path| && AllIn(s.path, d.comps) && Balanced(d, s, n)
    ensures Balanced(d, Post(d, s, i, r), n + if Owes(d, s.path[i]) then 1 else 0)
  {
    hide Announce, HandleError, Report, Advance, Owes;
    var id := s.path[i];
    var s1 := Announce(d, s, id, r);
    var s2 := HandleError(d, s1, id, r);
    var s3 := Report(d, s2, id, r);
    AnnounceBalances(d, s, id, r, n);
    HandleErrorBalances(d, s1, id, r, n);
    ReportBalances(d, s2, id, r, n);
    AdvanceBalances(d, s3, id, r, if Owes(d, id) then n + 1 else n);
  }

  lemma {:induction false} PostAllBalances(d: Design, start: nat, s: State, i: nat, t: nat, env: Replies)
    requires WellFormed(d) && start <= i <= t <= |s.path| && AllIn(s.path, d.comps)
    requires Balanced(d, s, Debts(d, s.path[start..i]))
    ensures var p := PostAll(d, s, i, t, env); Balanced(d, p, Debts(d, p.path[start..t]))
    decreases t - i
  {
    hide Post, Balanced, Owes;
    if i < t {
      var s1 := Post(d, s, i, env(i));
      PostBalances(d, s, i, env(i), Debts(d, s.path[start..i]));
      assert s.path[start..i + 1][..i - start] == s.path[start..i];
      assert s1.path[start..i + 1] == s.path[start..i + 1];
      PostAllBalances(d, start, s1, i + 1, t, env);
    }
  }

  lemma BatchBalances(d: Design, start: nat, s: State, env: Replies)
    requires WellFormed(d) && Between(d, start, s) && CanStep(s)
    requires Balanced(d, s, Debts(d, s.path[start..s.mark]))
    ensures var b := Batch(d, s, env); start <= b.mark <= |b.path| && Balanced(d, b, Debts(d, b.path[start..b.mark]))
  {
    hide Batch, Post, PostAll, Prune, Invoke, Payments, Late, Owes, Debts, StartedEvents;
    var g := Gathered(d, s, env);
    BatchSettles(d, s, env);
    var more := StartedEvents(s.path[s.idx..]);
    assert forall k :: 0 <= k < |more| ==> !more[k].Finished? by { NothingIsFinished(s.path[s.idx..]); }
    PayNothing(d, s.events, more);
    assert g.path[start..s.idx] == g.path[..s.idx][start..] == s.path[..s.idx][start..] == s.path[start..s.idx];
    PostAllBalances(d, start, g, g.idx, g.mark, env);
  }

  lemma NothingIsFinished(ids: seq<Id>)
    ensures forall k :: 0 <= k < |StartedEvents(ids)| ==> !StartedEvents(ids)[k].Finished?
  {
  }

  lemma {:induction false} RunBalances(d: Design, start: nat, s: State, env: Replies, fuel: nat)
    requires WellFormed(d) && Between(d, start, s) && Balanced(d, s, Debts(d, s.path[start..s.mark]))
    ensures var p := Run(d, s, env, fuel); start <= p.mark <= |p.path| && Balanced(d, p, Debts(d, p.path[start..p.mark]))
    decreases fuel
  {
    hide Batch, Balanced, Debts;
    if fuel > 0 && CanStep(s) {
      BatchBalances(d, start, s, env);
      BatchIsBetween(d, start, s, env);
      RunBalances(d, start, Batch(d, s, env), env, fuel - 1);
    }
  }

  // Finished events plus nodes still streaming account for every executed position of a component that
  // is not a container, and late finished events follow the order in which they were put off.
  lemma FinishedEventsBalance(d: Design, path: seq<Id>, counters: map<Id, int>, env: Replies, run: seq<State>, k: nat)
    requires WellFormed(d) && IsRun(d, path, counters, env, run) && k < |run|
    ensures run[0].idx <= run[k].mark
    ensures Debts(d, run[k].path[run[0].idx..run[k].mark]) == Payments(d, run[k].events) + |run[k].partials|
    ensures run[k].deferred == Late(run[k].events) + run[k].partials
  {
    hide Batch, Run, IsRun, Debts, Payments, Late;
    RunStates(d, path, counters, env, run, 0);
    RunStates(d, path, counters, env, run, k);
    StartIsTheMark(d, path, counters, env, run);
    NothingOwed(d, run[0]);
    RunBalances(d, run[0].idx, run[0], env, k);
  }

  lemma NothingOwed(d: Design, s: State)
    requires s.events == [] && s.partials == [] && s.deferred == [] && s.mark <= |s.path|
    ensures Balanced(d, s, Debts(d, s.path[s.mark..s.mark]))
  {
  }
}
