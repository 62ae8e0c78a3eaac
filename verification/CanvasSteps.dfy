/** What a batch does, told in the terms of the canvas: the entries it adds for each executed one, the events it
    sends, and when it pauses. */
module CanvasSteps {
  import opened CanvasAccounts
  import opened CanvasRuns
  import opened Common
  import opened Design
  import opened Options
  import opened Scheduler

  /* ---------- one position ---------- */

  // x is an item whose loop is over: its counter is spent, or the conditions of a loop ask for the end.
  predicate Over(d: Design, counters: map<Id, int>, x: Id, r: Reply)
    requires x in d.comps
  {
    var kind := d.comps[x].kind;
    (kind == IterationItem || kind == LoopItem) && ((x in counters && counters[x] == -1) || (kind == LoopItem && r.ends))
  }

  // y comes next after x: the goto of an error first, then the way out of a container that is over, the chosen route,
  // the start of a container, the way out of a loop, back to the item where nothing is named, and what is named.
  ghost predicate ComesNext(d: Design, counters: map<Id, int>, x: Id, r: Reply, y: Id)
    requires WellFormed(d) && x in d.comps
  {
    assert WellFormedComponent(d, x);
    var c := d.comps[x];
    if r.error != "" && c.handler.Handler? && c.handler.goto != [] then y in c.handler.goto
    else if Over(d, counters, x, r) then y in d.comps[c.parent.value].downstream
    else if c.kind == Categorize || c.kind == Switch then r.route < |c.routes| && y in c.routes[r.route]
    else if c.kind == Iteration || c.kind == Loop then y == GetStart(d, x)
    else if c.kind == ExitLoop && d.comps[c.parent.value].kind == Loop then y in d.comps[c.parent.value].downstream
    else if c.downstream == [] && c.parent.Some? then y == GetStart(d, c.parent.value)
    else y in c.downstream
  }

  // Every id of the list stands in the path from its old last entry on.
  lemma {:induction false} ExtendHas(path: seq<Id>, ids: seq<Id>, y: Id)
    requires path != [] && y in ids
    ensures path <= ExtendPath(path, ids) && y in ExtendPath(path, ids)[|path| - 1..]
    decreases |ids|
  {
    var next := AppendPath(path, ids[0]);
    var r := ExtendPath(next, ids[1..]);
    AppendHas(path, ids[0]);
    assert ExtendPath(path, ids) == r && next <= r;
    hide ExtendPath, AppendPath;
    if y == ids[0] {
      InTail(r, |next| - 1, |path| - 1);
    } else {
      ExtendHas(next, ids[1..], y);
      TailInTail(r, |next| - 1, |path| - 1, y);
    }
  }

  lemma InTail(s: seq<Id>, k: nat, from: nat)
    requires from <= k < |s|
    ensures s[k] in s[from..]
  {
    assert s[from..][k - from] == s[k];
  }

  lemma TailInTail(s: seq<Id>, k: nat, from: nat, y: Id)
    requires from <= k <= |s| && y in s[k..]
    ensures y in s[from..]
  {
    var j :| 0 <= j < |s[k..]| && s[k..][j] == y;
    InTail(s, k + j, from);
  }

  // Nothing else is appended.
  lemma {:induction false} ExtendOnly(path: seq<Id>, ids: seq<Id>, j: nat)
    requires path != [] && |path| <= j < |ExtendPath(path, ids)|
    ensures ExtendPath(path, ids)[j] in ids
    decreases |ids|
  {
    if ids != [] {
      var next := AppendPath(path, ids[0]);
      AppendHas(path, ids[0]);
      assert ExtendPath(path, ids) == ExtendPath(next, ids[1..]);
      hide AppendPath;
      if j >= |next| {
        ExtendOnly(next, ids[1..], j);
      }
    }
  }

  lemma AppendHas(path: seq<Id>, id: Id)
    requires path != []
    ensures var r := AppendPath(path, id); path <= r && r[|r| - 1] == id && |r| <= |path| + 1
  {
  }

  lemma StagesKeepPath(d: Design, s: State, x: Id, r: Reply)
    requires x in d.comps
    ensures Announce(d, s, x, r).path == s.path && Announce(d, s, x, r).counters == s.counters
    ensures Report(d, s, x, r).path == s.path && Report(d, s, x, r).counters == s.counters
  {
    hide Drained, LateEvents;
  }

  lemma ErrorGoes(d: Design, s: State, x: Id, r: Reply)
    requires WellFormed(d) && x in d.comps && AllIn(s.path, d.comps)
    ensures var s', c := HandleError(d, s, x, r), d.comps[x];
            && s'.counters == s.counters
            && s'.path == s.path + if r.error != "" && c.handler.Handler? then c.handler.goto else []
  {
  }

  lemma AdvanceGoes(d: Design, s: State, x: Id, r: Reply, i: nat)
    requires WellFormed(d) && x in d.comps && i < |s.path| && AllIn(s.path, d.comps)
    requires !(r.error != "" && d.comps[x].handler.Handler? && d.comps[x].handler.goto != [])
    ensures var q := Advance(d, s, x, r).path;
            && (forall y :: ComesNext(d, s.counters, x, r, y) ==> y in q[i..])
            && forall j :: |s.path| <= j < |q| ==> ComesNext(d, s.counters, x, r, q[j])
  {
    hide ExtendPath, GetStart;
    assert WellFormedComponent(d, x);
    var ids := Successors(d, x, r, Over(d, s.counters, x, r));
    assert forall y :: y in ids <==> ComesNext(d, s.counters, x, r, y);
    hide ComesNext, Successors;
    var q := Advance(d, s, x, r).path;
    assert q == ExtendPath(s.path, ids);
    forall y | y in ids ensures y in q[i..] {
      ExtendHas(s.path, ids, y);
      TailInTail(q, |s.path| - 1, i, y);
    }
    forall j | |s.path| <= j < |q| ensures q[j] in ids {
      ExtendOnly(s.path, ids, j);
    }
  }

  // Post-processing a position adds what comes next and nothing else; an entry that repeats the last one stands for it.
  lemma PostTakesNext(d: Design, s: State, i: nat, r: Reply)
    requires WellFormed(d) && i < |s.path| && AllIn(s.path, d.comps)
    ensures var x, s' := s.path[i], Post(d, s, i, r);
            && s.path <= s'.path
            && (forall y :: ComesNext(d, s.counters, x, r, y) ==> y in s'.path[i..])
            && (forall j :: |s.path| <= j < |s'.path| ==> ComesNext(d, s.counters, x, r, s'.path[j]))
  {
    var x := s.path[i];
    var s1 := Announce(d, s, x, r);
    var s2 := HandleError(d, s1, x, r);
    var s3 := Report(d, s2, x, r);
    hide Announce, HandleError, Report, WellFormed;
    StagesKeepPath(d, s, x, r);
    ErrorGoes(d, s1, x, r);
    StagesKeepPath(d, s2, x, r);
    if r.error != "" && d.comps[x].handler.Handler? && d.comps[x].handler.goto != [] {
      GotoGoes(d, s, s3, i, x, r);
    } else {
      hide Advance, ComesNext;
      AdvanceGoes(d, s3, x, r, i);
    }
  }

  lemma GotoGoes(d: Design, s: State, s3: State, i: nat, x: Id, r: Reply)
    requires WellFormed(d) && x in d.comps && i < |s.path| && AllIn(s3.path, d.comps)
    requires r.error != "" && d.comps[x].handler.Handler? && d.comps[x].handler.goto != []
    requires s3.path == s.path + d.comps[x].handler.goto && s3.counters == s.counters
    ensures var q := Advance(d, s3, x, r).path;
            && (forall y :: ComesNext(d, s.counters, x, r, y) ==> y in q[i..])
            && forall j :: |s.path| <= j < |q| ==> ComesNext(d, s.counters, x, r, q[j])
  {
    hide Successors, ExtendPath, ItemEnds;
    var goto, q := d.comps[x].handler.goto, Advance(d, s3, x, r).path;
    assert q == s.path + goto && q[i..] == s.path[i..] + goto;
  }

  // A list is appended in its order; what is left out are ids equal to the entry before them.
  lemma {:induction false} ExtendIsOrdered(path: seq<Id>, ids: seq<Id>)
    requires path != []
    ensures path <= ExtendPath(path, ids) && Subsequence(ExtendPath(path, ids)[|path|..], ids)
    decreases |ids|
  {
    if ids != [] {
      var next := AppendPath(path, ids[0]);
      var r := ExtendPath(next, ids[1..]);
      assert ExtendPath(path, ids) == r;
      hide ExtendPath;
      ExtendIsOrdered(next, ids[1..]);
      if ids[0] != path[|path| - 1] {
        assert r[|path|..] == [ids[0]] + r[|next|..];
        assert r[|path|..][1..] == r[|next|..];
      }
    }
  }

  // The content of x is still a stream, and x is no Message, which collects its own.
  predicate Streams(c: Component, x: Id, r: Reply)
  {
    c.kind != Message && c.kind != Iteration && c.kind != Loop && x in r.live
  }

  // A Message sends its content.
  function ContentEvents(c: Component, x: Id): seq<Event>
  {
    if c.kind == Message then [MessageSent(x), MessageEnd(x)] else []
  }

  function LateFinished(partials: seq<Id>, n: nat): seq<Event>
    requires n <= |partials|
  {
    seq(n, k requires 0 <= k < n => Finished(partials[k], true))
  }

  // A default is sent for an error that has no branch.
  function DefaultEvents(c: Component, x: Id, r: Reply): seq<Event>
  {
    if r.error != "" && c.handler.Handler? && c.handler.goto == [] && c.handler.hasDefault then [MessageSent(x), MessageEnd(x)]
    else []
  }

  // The node finishes now, unless it is a container or is put off.
  function NodeEvents(c: Component, x: Id, putOff: bool): seq<Event>
  {
    if c.kind == Iteration || c.kind == Loop || putOff then [] else [Finished(x, false)]
  }

  // A container finishes when its item is over.
  function ContainerEvents(c: Component, over: bool): seq<Event>
  {
    if over && c.parent.Some? then [Finished(c.parent.value, false)] else []
  }

  // A node is put off while it streams, in a run that has not failed.
  predicate PutOff(s: State, c: Component, x: Id, r: Reply)
  {
    Streams(c, x, r) && s.error == "" && !Unhandled(c, r)
  }

  // How many nodes a Message lets finish late: those at the front of the queue, up to the first that still streams.
  predicate LetsFinish(c: Component, partials: seq<Id>, live: set<Id>, n: nat)
  {
    && n <= |partials| && (c.kind != Message ==> n == 0) && (forall k :: 0 <= k < n ==> partials[k] !in live)
    && (c.kind == Message && n < |partials| ==> partials[n] in live)
  }

  // The events of one position, and the nodes that are put off.
  lemma PostSends(d: Design, s: State, i: nat, r: Reply) returns (n: nat)
    requires WellFormed(d) && i < |s.path| && AllIn(s.path, d.comps)
    ensures LetsFinish(d.comps[s.path[i]], s.partials, r.live, n)
    ensures var x, s' := s.path[i], Post(d, s, i, r);
            var c := d.comps[x];
            && s'.events == s.events + ContentEvents(c, x) + LateFinished(s.partials, n) + DefaultEvents(c, x, r)
                          + NodeEvents(c, x, PutOff(s, c, x, r)) + ContainerEvents(c, Over(d, s.counters, x, r))
            && s'.partials == s.partials[n..] + (if PutOff(s, c, x, r) then [x] else [])
            && s'.counters == if Over(d, s.counters, x, r) then s.counters[x := -1] else s.counters
  {
    hide Announce, HandleError, Report, Advance, WellFormed, Over, Streams, LetsFinish;
    hide ContentEvents, LateFinished, DefaultEvents, NodeEvents, ContainerEvents, Unhandled;
    var x := s.path[i];
    var s1 := Announce(d, s, x, r);
    var s2 := HandleError(d, s1, x, r);
    var s3 := Report(d, s2, x, r);
    n := MessageSends(d, s, x, r);
    ErrorSends(d, s1, x, r);
    NodeSends(d, s1, s2, x, r);
    ItemSends(d, s3, x, r);
  }

  lemma MessageSends(d: Design, s: State, x: Id, r: Reply) returns (n: nat)
    requires x in d.comps
    ensures LetsFinish(d.comps[x], s.partials, r.live, n)
    ensures var s' := Announce(d, s, x, r);
            && s'.events == s.events + ContentEvents(d.comps[x], x) + LateFinished(s.partials, n)
            && s'.partials == s.partials[n..] && s'.counters == s.counters && s'.error == s.error
  {
    n := if d.comps[x].kind == Message then Drained(s.partials, r.live) else 0;
    assert s.partials[0..] == s.partials;
    hide Drained;
    assert LateEvents(s.partials[..n]) == LateFinished(s.partials, n);
  }

  lemma ErrorSends(d: Design, s: State, x: Id, r: Reply)
    requires WellFormed(d) && x in d.comps && AllIn(s.path, d.comps)
    ensures var s', c := HandleError(d, s, x, r), d.comps[x];
            && s'.events == s.events + DefaultEvents(c, x, r)
            && s'.partials == s.partials && s'.counters == s.counters
            && s'.error == if Unhandled(c, r) then r.error else s.error
  {
  }

  lemma NodeSends(d: Design, s: State, s2: State, x: Id, r: Reply)
    requires x in d.comps && s2.error == if Unhandled(d.comps[x], r) then r.error else s.error
    ensures var s', c := Report(d, s2, x, r), d.comps[x];
            && s'.events == s2.events + NodeEvents(c, x, PutOff(s, c, x, r))
            && s'.partials == s2.partials + (if PutOff(s, c, x, r) then [x] else [])
            && s'.counters == s2.counters
  {
  }

  lemma ItemSends(d: Design, s: State, x: Id, r: Reply)
    requires WellFormed(d) && x in d.comps && s.path != [] && AllIn(s.path, d.comps)
    ensures var s' := Advance(d, s, x, r);
            && s'.events == s.events + ContainerEvents(d.comps[x], Over(d, s.counters, x, r))
            && s'.partials == s.partials
            && s'.counters == if Over(d, s.counters, x, r) then s.counters[x := -1] else s.counters
  {
    hide Successors, ExtendPath;
    assert WellFormedComponent(d, x);
  }

  /* ---------- where a run begins ---------- */

  // Any id with this word in it, in small or capital letters, is taken for a UserFillUp; one without a u is not.
  lemma FillUpIds(front: Id, rest: Id)
    ensures MentionsFillUp(front + "UserFillUp" + rest) && MentionsFillUp(front + "userfillup" + rest)
    ensures (forall k :: 0 <= k < |front| ==> front[k] != 'u' && front[k] != 'U') ==> !MentionsFillUp(front)
  {
    var n := |front|;
    var a, b := front + "UserFillUp" + rest, front + "userfillup" + rest;
    assert a[n..n + 10] == "UserFillUp" && b[n..n + 10] == "userfillup";
    assert LowerAll("UserFillUp") == "userfillup" && LowerAll("userfillup") == "userfillup";
    assert FillUpAt(a, n) && FillUpAt(b, n);
    if i :| 0 <= i < |front| && FillUpAt(front, i) {
      assert LowerAll(front[i..i + 10])[0] == Lower(front[i]);
    }
  }

  // A run begins at the last entry of the path of earlier turns if that is a UserFillUp, and at a new "begin" otherwise;
  // nothing has been done yet.
  lemma RunBegins(d: Design, path: seq<Id>, counters: map<Id, int>, env: Replies, run: seq<State>)
    requires WellFormed(d) && IsRun(d, path, counters, env, run)
    ensures run[0].path == if path != [] && MentionsFillUp(path[|path| - 1]) then path else path + ["begin"]
    ensures run[0].idx == run[0].mark == |run[0].path| - 1 && run[0].counters == counters
    ensures run[0].status == Running && run[0].error == "" && run[0].events == [] && run[0].partials == []
  {
    hide MentionsFillUp;
  }

  // How a visit moves the counter of an item: one further, or to -1 past the maximum of a loop or the end of the list of
  // an iteration, and also where the list is no list, or is empty when the counter stands at -1.
  lemma VisitMoves(d: Design, counters: map<Id, int>, x: Id, r: Reply)
    requires WellFormed(d) && x in d.comps && IsItem(d.comps[x].kind)
    ensures d.comps[x].parent.Some? && d.comps[x].parent.value in d.comps
    ensures var now, c := if x in counters then counters[x] else 0, d.comps[x];
            var max := d.comps[c.parent.value].maxLoop;
            InvokedCounter(d, counters, x, r) ==
              if c.kind == LoopItem then (if now >= max then -1 else now + 1)
              else if r.items == None then -1
              else if now >= r.items.value || (now == -1 && r.items.value == 0) then -1 else now + 1
  {
    assert WellFormedComponent(d, x);
  }

  /* ---------- every batch of every run ---------- */

  lemma {:induction false} PostAllPasses(d: Design, s: State, i: nat, t: nat, env: Replies, p: nat) returns (at: State)
    requires WellFormed(d) && i <= p < t <= |s.path| && AllIn(s.path, d.comps)
    ensures AllIn(at.path, d.comps) && s.path <= at.path && p < |at.path|
    ensures Post(d, at, p, env(p)).path <= PostAll(d, s, i, t, env).path
    ensures i == p ==> at == s
    decreases t - i
  {
    hide Post;
    if i == p {
      at := s;
    } else {
      at := PostAllPasses(d, Post(d, s, i, env(i)), i + 1, t, env, p);
    }
  }

  // All that comes next after entry i stands in the path from that entry on.
  ghost predicate TakesAll(d: Design, counters: map<Id, int>, path: seq<Id>, i: nat, r: Reply)
    requires WellFormed(d) && i < |path| && path[i] in d.comps
  {
    forall y :: ComesNext(d, counters, path[i], r, y) ==> y in path[i..]
  }

  // Every step that comes next after an executed entry is taken in the same batch. `now` are the counters at the time
  // of the entry's turn.
  lemma StepsAreTaken(d: Design, path: seq<Id>, counters: map<Id, int>, env: Replies, run: seq<State>, k: nat, i: nat)
      returns (now: map<Id, int>)
    requires WellFormed(d) && IsRun(d, path, counters, env, run) && k + 1 < |run| && run[k].mark <= i < run[k + 1].mark
    ensures i < |run[k + 1].path| && run[k + 1].path[i] in d.comps && TakesAll(d, now, run[k + 1].path, i, env(i))
  {
    hide Batch, IsRun, Post, PostAll, ComesNext, WellFormed, Gathered;
    RunStates(d, path, counters, env, run, k);
    var s, b := run[k], run[k + 1];
    BatchSettles(d, s, env);
    var g := Gathered(d, s, env);
    var at := PostAllPasses(d, g, g.idx, g.mark, env, i);
    now := at.counters;
    PostTakesNext(d, at, i, env(i));
    var p := Post(d, at, i, env(i)).path;
    assert p[i] == at.path[i] == b.path[i];
    forall y | ComesNext(d, now, b.path[i], env(i), y) ensures y in b.path[i..] {
      var j :| 0 <= j < |p[i..]| && p[i..][j] == y;
      assert b.path[i..][j] == y;
    }
  }

  ghost predicate FillUpPending(d: Design, path: seq<Id>, mark: nat)
    requires AllIn(path, d.comps)
  {
    exists j :: mark <= j < |path| && d.comps[path[j]].kind == UserFillUp
  }

  // A batch pauses the run if and only if it has not failed and a UserFillUp is pending.
  lemma PausesForInput(d: Design, path: seq<Id>, counters: map<Id, int>, env: Replies, run: seq<State>, k: nat)
    requires WellFormed(d) && IsRun(d, path, counters, env, run) && k + 1 < |run|
    ensures run[k + 1].status == Paused <==> run[k + 1].error == "" && FillUpPending(d, run[k + 1].path, run[k + 1].mark)
  {
    hide Batch, WellFormed, FillUpPending, AwaitsInput, AllIn;
    RunStates(d, path, counters, env, run, k);
    SettlePauses(d, run[k], env);
    PendingFillUp(d, run[k + 1].path, run[k + 1].mark);
  }

  lemma SettlePauses(d: Design, s: State, env: Replies)
    requires WellFormed(d) && Pending(d, s) && CanStep(s)
    ensures var b := Batch(d, s, env); b.status == Paused <==> b.error == "" && AwaitsInput(d, b.path[b.mark..])
  {
    hide Batch, Posted, WellFormed, AwaitsInput;
    BatchSettles(d, s, env);
  }

  lemma PendingFillUp(d: Design, path: seq<Id>, mark: nat)
    requires mark <= |path| && AllIn(path, d.comps)
    ensures AwaitsInput(d, path[mark..]) <==> FillUpPending(d, path, mark)
  {
    var rest := path[mark..];
    if x :| x in rest && IsFillUp(d, x) {
      var j :| 0 <= j < |rest| && rest[j] == x;
      assert path[mark + j] == x;
    }
    if j :| mark <= j < |path| && d.comps[path[j]].kind == UserFillUp {
      assert rest[j - mark] in rest;
    }
  }

  ghost predicate Announced(before: seq<Event>, after: seq<Event>, ids: seq<Id>)
  {
    && before <= after && |after| >= |before| + |ids|
    && forall j :: 0 <= j < |ids| ==> after[|before| + j] == Started(ids[j])
  }

  // A batch starts by announcing its entries, in order, also those that it then pops.
  lemma BatchStarts(d: Design, path: seq<Id>, counters: map<Id, int>, env: Replies, run: seq<State>, k: nat)
    requires WellFormed(d) && IsRun(d, path, counters, env, run) && k + 1 < |run|
    ensures Announced(run[k].events, run[k + 1].events, run[k].path[run[k].idx..])
  {
    hide Batch, IsRun, Post, Prune, Invoke, WellFormed;
    RunStates(d, path, counters, env, run, k);
    var s := run[k];
    BatchSettles(d, s, env);
    var g, ids := Gathered(d, s, env), s.path[s.idx..];
    EventsStay(d, g, g.idx, g.mark, env);
    assert g.events <= run[k + 1].events;
    forall j | 0 <= j < |ids| ensures run[k + 1].events[|s.events| + j] == Started(ids[j]) {
      assert g.events[|s.events| + j] == StartedEvents(ids)[j];
    }
  }

  lemma {:induction false} EventsStay(d: Design, s: State, i: nat, t: nat, env: Replies)
    requires WellFormed(d) && i <= t <= |s.path| && AllIn(s.path, d.comps)
    ensures s.events <= PostAll(d, s, i, t, env).events
    decreases t - i
  {
    hide Post, WellFormed;
    if i < t {
      var n := PostSends(d, s, i, env(i));
      EventsStay(d, Post(d, s, i, env(i)), i + 1, t, env);
    }
  }
}
