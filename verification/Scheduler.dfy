/** Canvas.run as a state machine: one step is one batch. Whatever a component does when it is invoked
    (its error, its streamed content, its route, the list an iteration reads, the verdict of a loop's
    termination conditions) is a Reply chosen freely for each path position. */
module Scheduler {
  import opened Options
  import opened Design

  // `live` holds the components whose "content" output is still a lazy stream when this position is
  // post-processed; `error` is "" when the component reports none.
  datatype Reply = Reply(error: string, live: set<Id>, route: nat, items: Option<nat>, ends: bool)

  type Replies = nat -> Reply

  // `late` marks a finished event that had been deferred.
  datatype Event = Started(id: Id) | Finished(id: Id, late: bool) | MessageSent(id: Id) | MessageEnd(id: Id)

  datatype Status = Running | Failed | Paused

  // `idx` is where the next batch starts and `mark` is the end of the executed positions; they differ
  // only in a failed run. `visits` and `deferred` are histories: the positions post-processed and the
  // nodes whose finished event was put off.
  datatype State = State(
    path: seq<Id>, idx: nat, mark: nat, partials: seq<Id>, error: string, counters: map<Id, int>,
    status: Status, events: seq<Event>, visits: seq<nat>, deferred: seq<Id>)

  /* ---------- starting a run ---------- */

  function StartPath(path: seq<Id>): (r: seq<Id>)
    ensures |r| > 0
    ensures path <= r
  {
    if path == [] || !MentionsFillUp(path[|path| - 1]) then path + ["begin"] else path
  }

  function StartState(path: seq<Id>, counters: map<Id, int>): State
  {
    var p := StartPath(path);
    State(p, |p| - 1, |p| - 1, [], "", counters, Running, [], [], [])
  }

  /* ---------- _run_batch ---------- */

  predicate RefsBefore(d: Design, path: seq<Id>, i: nat)
    requires i < |path| && path[i] in d.comps
  {
    forall ref :: ref in d.comps[path[i]].refs ==> ref == "" || ref in path[..i]
  }

  predicate RunsUnchecked(k: Kind) { k == Begin || k == UserFillUp }

  predicate Admitted(d: Design, path: seq<Id>, i: nat)
    requires i < |path| && path[i] in d.comps
  {
    RunsUnchecked(d.comps[path[i]].kind) || RefsBefore(d, path, i) || MentionsFillUp(path[0])
  }

  // The scan of a batch [i, t): entries that may not run yet are popped.
  function Prune(d: Design, path: seq<Id>, i: nat, t: nat): (r: seq<Id>)
    requires i <= t <= |path| && AllIn(path, d.comps)
    ensures |r| >= i + (|path| - t) && r[..i] == path[..i] && AllIn(r, d.comps)
    decreases t - i
  {
    if i == t then path
    else if Admitted(d, path, i) then
      var r := Prune(d, path, i + 1, t);
      assert r[..i] == r[..i + 1][..i];
      r
    else Prune(d, path[..i] + path[i + 1..], i, t - 1)
  }

  // LoopItem._invoke and IterationItem._invoke: past the limit the counter becomes -1.
  function StepCounter(counter: int, limit: int): int
  {
    if counter >= limit then -1 else counter + 1
  }

  function Counter(counters: map<Id, int>, id: Id): int
  {
    if id in counters then counters[id] else 0
  }

  function InvokedCounter(d: Design, counters: map<Id, int>, id: Id, r: Reply): int
    requires WellFormed(d) && id in d.comps && IsItem(d.comps[id].kind)
  {
    assert WellFormedComponent(d, id);
    var c := d.comps[id];
    if c.kind == LoopItem then StepCounter(Counter(counters, id), d.comps[c.parent.value].maxLoop)
    else if r.items == None || (r.items.value == 0 && Counter(counters, id) == -1) then -1 // raised
    else StepCounter(Counter(counters, id), r.items.value)
  }

  // Invoking the entries [i, t): only the item counters are state that later steps read.
  function Invoke(d: Design, path: seq<Id>, i: nat, t: nat, counters: map<Id, int>, env: Replies): map<Id, int>
    requires WellFormed(d) && i <= t <= |path| && AllIn(path, d.comps)
    decreases t - i
  {
    if i == t then counters
    else
      var id := path[i];
      var next := if IsItem(d.comps[id].kind) then counters[id := InvokedCounter(d, counters, id, env(i))] else counters;
      Invoke(d, path, i + 1, t, next, env)
  }

  /* ---------- post-processing one position ---------- */

  // What post-processing a position leaves alone.
  ghost predicate SameBounds(s: State, s': State)
  {
    s'.idx == s.idx && s'.mark == s.mark && s'.status == s.status
  }

  // How many deferred nodes at the front no longer stream.
  function Drained(partials: seq<Id>, live: set<Id>): (n: nat)
    ensures n <= |partials|
    ensures forall k :: 0 <= k < n ==> partials[k] !in live
    ensures n < |partials| ==> partials[n] in live
  {
    if partials == [] || partials[0] in live then 0 else 1 + Drained(partials[1..], live)
  }

  function LateEvents(ids: seq<Id>): (r: seq<Event>)
    ensures |r| == |ids| && forall k :: 0 <= k < |ids| ==> r[k] == Finished(ids[k], true)
  {
    seq(|ids|, k requires 0 <= k < |ids| => Finished(ids[k], true))
  }

  function Announce(d: Design, s: State, id: Id, r: Reply): (s': State)
    requires id in d.comps
    ensures SameBounds(s, s') && s'.path == s.path
  {
    if d.comps[id].kind != Message then s
    else
      var n := Drained(s.partials, r.live);
      s.(partials := s.partials[n..],
         events := s.events + [MessageSent(id), MessageEnd(id)] + LateEvents(s.partials[..n]))
  }

  predicate Diverted(c: Component, r: Reply)
  {
    r.error != "" && c.handler.Handler? && c.handler.goto != []
  }

  function HandleError(d: Design, s: State, id: Id, r: Reply): (s': State)
    requires WellFormed(d) && id in d.comps && AllIn(s.path, d.comps)
    ensures SameBounds(s, s') && s.path <= s'.path && AllIn(s'.path, d.comps)
  {
    assert WellFormedComponent(d, id);
    var c := d.comps[id];
    if r.error == "" then s
    else if Diverted(c, r) then s.(path := s.path + c.handler.goto)
    else if c.handler.Handler? && c.handler.hasDefault then
      s.(events := s.events + [MessageSent(id), MessageEnd(id)])
    else s.(error := r.error)
  }

  // A Message has replaced its stream by the collected text before this point.
  predicate StillStreams(c: Component, id: Id, r: Reply)
  {
    c.kind != Message && id in r.live
  }

  function Report(d: Design, s: State, id: Id, r: Reply): (s': State)
    requires id in d.comps
    ensures SameBounds(s, s') && s'.path == s.path
  {
    var c := d.comps[id];
    if IsContainer(c.kind) then s
    else if StillStreams(c, id, r) && s.error == "" then
      s.(partials := s.partials + [id], deferred := s.deferred + [id])
    else s.(events := s.events + [Finished(id, false)])
  }

  // LoopItem.end and IterationItem.end
  predicate ItemEnds(c: Component, counter: int, r: Reply)
  {
    counter == -1 || (c.kind == LoopItem && r.ends)
  }

  function Route(c: Component, r: Reply): seq<Id>
  {
    if r.route < |c.routes| then c.routes[r.route] else []
  }

  function Successors(d: Design, id: Id, r: Reply, ended: bool): (ids: seq<Id>)
    requires WellFormed(d) && id in d.comps && (ended ==> IsItem(d.comps[id].kind))
    ensures AllIn(ids, d.comps)
  {
    var c := d.comps[id];
    assert WellFormedComponent(d, id);
    if c.parent.Some? then
      var p := c.parent.value;
      assert WellFormedComponent(d, p);
      if ended then d.comps[p].downstream
      else if c.kind == Categorize || c.kind == Switch then Route(c, r)
      else if IsContainer(c.kind) then [GetStart(d, id)]
      else if c.kind == ExitLoop && d.comps[p].kind == Loop then d.comps[p].downstream
      else if c.downstream == [] then [GetStart(d, p)]
      else c.downstream
    else if c.kind == Categorize || c.kind == Switch then Route(c, r)
    else if IsContainer(c.kind) then [GetStart(d, id)]
    else c.downstream
  }

  // _append_path and _extend_path: an id equal to the last entry is not appended again.
  function AppendPath(path: seq<Id>, id: Id): (r: seq<Id>)
    requires path != []
    ensures path <= r
  {
    if path[|path| - 1] == id then path else path + [id]
  }

  function ExtendPath(path: seq<Id>, ids: seq<Id>): (r: seq<Id>)
    requires path != []
    ensures path <= r
    ensures forall x :: x in r ==> x in path || x in ids
    decreases |ids|
  {
    if ids == [] then path else ExtendPath(AppendPath(path, ids[0]), ids[1..])
  }

  function Advance(d: Design, s: State, id: Id, r: Reply): (s': State)
    requires WellFormed(d) && id in d.comps && s.path != [] && AllIn(s.path, d.comps)
    ensures SameBounds(s, s') && s.path <= s'.path && AllIn(s'.path, d.comps)
  {
    var c := d.comps[id];
    assert WellFormedComponent(d, id);
    var ended := IsItem(c.kind) && ItemEnds(c, Counter(s.counters, id), r);
    var s1 := if ended then
        s.(counters := s.counters[id := -1], events := s.events + [Finished(c.parent.value, false)])
      else s;
    if Diverted(c, r) then s1 else s1.(path := ExtendPath(s1.path, Successors(d, id, r, ended)))
  }

  function Post(d: Design, s: State, i: nat, r: Reply): (s': State)
    requires WellFormed(d) && i < |s.path| && AllIn(s.path, d.comps)
    ensures s.path <= s'.path && AllIn(s'.path, d.comps) && SameBounds(s, s')
  {
    var id := s.path[i];
    assert WellFormedComponent(d, id);
    var s1 := Announce(d, s, id, r);
    var s2 := HandleError(d, s1, id, r);
    var s3 := Report(d, s2, id, r);
    var s4 := Advance(d, s3, id, r);
    s4.(visits := s4.visits + [i])
  }

  function PostAll(d: Design, s: State, i: nat, t: nat, env: Replies): (s': State)
    requires WellFormed(d) && i <= t <= |s.path| && AllIn(s.path, d.comps)
    ensures |s.path| <= |s'.path| && s.path <= s'.path && AllIn(s'.path, d.comps) && SameBounds(s, s')
    decreases t - i
  {
    if i == t then s else PostAll(d, Post(d, s, i, env(i)), i + 1, t, env)
  }

  /* ---------- one batch, and a run ---------- */

  function StartedEvents(ids: seq<Id>): seq<Event>
  {
    seq(|ids|, k requires 0 <= k < |ids| => Started(ids[k]))
  }

  predicate IsFillUp(d: Design, id: Id)
    requires id in d.comps
  {
    d.comps[id].kind == UserFillUp
  }

  function FillUps(d: Design, ids: seq<Id>): seq<Id>
    requires AllIn(ids, d.comps)
  {
    if ids == [] then []
    else (if IsFillUp(d, ids[0]) then [ids[0]] else []) + FillUps(d, ids[1..])
  }

  function NonFillUps(d: Design, ids: seq<Id>): seq<Id>
    requires AllIn(ids, d.comps)
  {
    if ids == [] then []
    else (if IsFillUp(d, ids[0]) then [] else [ids[0]]) + NonFillUps(d, ids[1..])
  }

  predicate AwaitsInput(d: Design, ids: seq<Id>)
    requires AllIn(ids, d.comps)
  {
    exists id :: id in ids && IsFillUp(d, id)
  }

  ghost predicate Pending(d: Design, s: State)
  {
    s.idx <= s.mark <= |s.path| && AllIn(s.path, d.comps)
  }

  predicate CanStep(s: State) { s.status == Running && s.idx < |s.path| }

  // The node_started events and _run_batch.
  function Gathered(d: Design, s: State, env: Replies): (s': State)
    requires WellFormed(d) && Pending(d, s)
    ensures s.idx <= |s'.path| == s'.mark && AllIn(s'.path, d.comps) && s'.idx == s.idx
  {
    var pruned := Prune(d, s.path, s.idx, |s.path|);
    s.(path := pruned,
       mark := |pruned|,
       counters := Invoke(d, pruned, s.idx, |pruned|, s.counters, env),
       events := s.events + StartedEvents(s.path[s.idx..]))
  }

  // The end of an iteration of the outer loop: stop on an error, pause for input, or go on.
  function Settle(d: Design, s: State): State
    requires s.mark <= |s.path| && AllIn(s.path, d.comps)
  {
    if s.error != "" then s.(status := Failed)
    else if AwaitsInput(d, s.path[s.mark..]) then s.(idx := s.mark, status := Paused)
    else s.(idx := s.mark)
  }

  function Finish(d: Design, g: State, env: Replies): (s': State)
    requires WellFormed(d) && g.idx <= g.mark == |g.path| && AllIn(g.path, d.comps)
    ensures s'.idx <= s'.mark <= |s'.path| && AllIn(s'.path, d.comps)
  {
    Settle(d, PostAll(d, g, g.idx, g.mark, env))
  }

  function Batch(d: Design, s: State, env: Replies): (s': State)
    requires WellFormed(d) && Pending(d, s)
    ensures s'.idx <= s'.mark <= |s'.path| && AllIn(s'.path, d.comps)
  {
    var g := Gathered(d, s, env);
    Finish(d, g, env)
  }

  // At most `fuel` batches; the source's loop has no bound of its own.
  function Run(d: Design, s: State, env: Replies, fuel: nat): (s': State)
    requires WellFormed(d) && Pending(d, s)
    ensures s'.idx <= s'.mark <= |s'.path| && AllIn(s'.path, d.comps)
    decreases fuel
  {
    if fuel == 0 || !CanStep(s) then s else Run(d, Batch(d, s, env), env, fuel - 1)
  }

  // State k + 1 of `run` is state k after one batch.
  ghost predicate NextAt(d: Design, env: Replies, run: seq<State>, k: nat)
    requires WellFormed(d) && k + 1 < |run|
  {
    Pending(d, run[k]) && CanStep(run[k]) && run[k + 1] == Batch(d, run[k], env)
  }

  // The states of a run so far, from its start, batch by batch.
  ghost predicate IsRun(d: Design, path: seq<Id>, counters: map<Id, int>, env: Replies, run: seq<State>)
    requires WellFormed(d)
  {
    && run != [] && AllIn(StartPath(path), d.comps) && run[0] == StartState(path, counters)
    && (forall k :: 0 <= k < |run| ==> Pending(d, run[k]))
    && forall k {:trigger NextAt(d, env, run, k)} :: 0 <= k < |run| - 1 ==> NextAt(d, env, run, k)
  }

  // What `self.path` becomes when the run returns.
  function FinalPath(d: Design, s: State): seq<Id>
    requires s.idx <= |s.path| && AllIn(s.path, d.comps)
  {
    if s.status == Paused then FillUps(d, s.path[s.idx..]) + NonFillUps(d, s.path[s.idx..])
    else s.path[..s.idx]
  }
}
