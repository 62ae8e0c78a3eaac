/** The scheduler in the form the source gives it: a Canvas object whose fields the run updates in
    place. Every method is proved to do what the step functions of Scheduler say. */
module CanvasObject {
  import opened Design
  import opened Scheduler

  class Canvas {
    const design: Design
    var path: seq<Id>
    var error: string
    var partials: seq<Id>
    var idx: nat
    var mark: nat
    var counters: map<Id, int>
    var status: Status
    var events: seq<Event>
    ghost var visits: seq<nat>
    ghost var deferred: seq<Id>

    ghost function View(): State
      reads this
    {
      State(path, idx, mark, partials, error, counters, status, events, visits, deferred)
    }

    ghost predicate Valid()
      reads this
    {
      WellFormed(design) && Pending(design, View())
    }

    // The beginning of run(): the path of earlier turns, with "begin" appended unless it ends at a
    // UserFillUp.
    constructor (design: Design, path: seq<Id>, counters: map<Id, int>)
      requires WellFormed(design) && AllIn(StartPath(path), design.comps)
      ensures Valid() && this.design == design && View() == StartState(path, counters)
    {
      var p := StartPath(path);
      this.design, this.path, this.counters := design, p, counters;
      error, partials, idx, mark, status, events := "", [], |p| - 1, |p| - 1, Running, [];
      visits, deferred := [], [];
    }

    method MustWait(i: nat) returns (wait: bool)
      requires AllIn(path, design.comps) && i < |path|
      ensures wait <==> !Admitted(design, path, i)
      ensures var c := design.comps[path[i]];
              wait <==> c.kind != Begin && c.kind != UserFillUp && !MentionsFillUp(path[0])
                        && exists k :: 0 <= k < |c.refs| && c.refs[k] != "" && forall j :: 0 <= j < i ==> path[j] != c.refs[k]
    {
      var c := design.comps[path[i]];
      wait := false;
      if !RunsUnchecked(c.kind) {
        var k := 0;
        while k < |c.refs| && !wait
          invariant k <= |c.refs|
          invariant !wait ==> forall j :: 0 <= j < k ==> c.refs[j] == "" || c.refs[j] in path[..i] || MentionsFillUp(path[0])
          invariant wait ==> !RefsBefore(design, path, i) && !MentionsFillUp(path[0])
          decreases |c.refs| - k, !wait
        {
          if c.refs[k] != "" && c.refs[k] !in path[..i] && !MentionsFillUp(path[0]) {
            wait := true;
          } else {
            k := k + 1;
          }
        }
      }
    }

    // The scan in _run_batch: pops entries that must wait.
    method Scan(f: nat)
      requires f <= |path| && AllIn(path, design.comps)
      modifies `path
      ensures path == Prune(design, old(path), f, |old(path)|)
    {
      hide Prune, Admitted;
      var i, t := f, |path|;
      while i < t
        invariant f <= i <= t == |path| && AllIn(path, design.comps)
        invariant Prune(design, path, i, t) == Prune(design, old(path), f, |old(path)|)
        decreases t - i
      {
        var wait := MustWait(i);
        PruneStep(design, path, i);
        if wait {
          path := path[..i] + path[i + 1..];
          t := t - 1;
        } else {
          i := i + 1;
        }
      }
      PruneEnds(design, path);
    }

    // The invocations of a batch, awaited together.
    method Gather(f: nat, env: Replies)
      requires WellFormed(design) && f <= |path| && AllIn(path, design.comps)
      modifies `counters
      ensures counters == Invoke(design, path, f, |path|, old(counters), env)
    {
      var i := f;
      while i < |path|
        invariant f <= i <= |path|
        invariant Invoke(design, path, i, |path|, counters, env) == Invoke(design, path, f, |path|, old(counters), env)
      {
        var id := path[i];
        if IsItem(design.comps[id].kind) {
          counters := counters[id := InvokedCounter(design, counters, id, env(i))];
        }
        i := i + 1;
      }
    }

    method Drain(live: set<Id>)
      modifies `partials, `events
      ensures var n := Drained(old(partials), live);
              partials == old(partials)[n..] && events == old(events) + LateEvents(old(partials)[..n])
    {
      ghost var n := 0;
      while partials != [] && partials[0] !in live
        invariant n <= |old(partials)| && partials == old(partials)[n..]
        invariant n + Drained(partials, live) == Drained(old(partials), live)
        invariant events == old(events) + LateEvents(old(partials)[..n])
        decreases |partials|
      {
        events := events + [Finished(partials[0], true)];
        assert old(partials)[..n + 1] == old(partials)[..n] + [partials[0]];
        partials := partials[1..];
        n := n + 1;
      }
    }

    method ExtendThePath(ids: seq<Id>)
      requires path != []
      modifies `path
      ensures path == ExtendPath(old(path), ids)
    {
      var k := 0;
      while k < |ids|
        invariant k <= |ids| && path != []
        invariant ExtendPath(path, ids[k..]) == ExtendPath(old(path), ids)
      {
        assert ids[k..][1..] == ids[k + 1..];
        if path[|path| - 1] != ids[k] {
          path := path + [ids[k]];
        }
        k := k + 1;
      }
    }

    // A Message reports its content and then lets deferred nodes finish.
    method AnnounceMessage(id: Id, r: Reply)
      requires id in design.comps
      modifies this
      ensures View() == Announce(design, old(View()), id, r)
    {
      hide Drained, LateEvents;
      if design.comps[id].kind == Message {
        events := events + [MessageSent(id), MessageEnd(id)];
        Drain(r.live);
      }
    }

    method TakeError(id: Id, r: Reply) returns (otherBranch: bool)
      requires Valid() && id in design.comps
      modifies this
      ensures View() == HandleError(design, old(View()), id, r)
      ensures otherBranch == Diverted(design.comps[id], r)
    {
      var c := design.comps[id];
      otherBranch := false;
      if r.error != "" {
        if c.handler.Handler? && c.handler.goto != [] {
          path := path + c.handler.goto;
          otherBranch := true;
        } else if c.handler.Handler? && c.handler.hasDefault {
          events := events + [MessageSent(id), MessageEnd(id)];
        } else {
          error := r.error;
        }
      }
    }

    method ReportNode(id: Id, r: Reply)
      requires id in design.comps
      modifies this
      ensures View() == Report(design, old(View()), id, r)
    {
      var c := design.comps[id];
      if !IsContainer(c.kind) {
        if StillStreams(c, id, r) && error == "" {
          partials := partials + [id];
          deferred := deferred + [id];
        } else {
          events := events + [Finished(id, false)];
        }
      }
    }

    method AppendSuccessors(id: Id, r: Reply, otherBranch: bool)
      requires Valid() && id in design.comps && path != [] && otherBranch == Diverted(design.comps[id], r)
      modifies this
      ensures View() == Advance(design, old(View()), id, r)
    {
      hide Successors, ExtendPath, Diverted;
      var c := design.comps[id];
      assert WellFormedComponent(design, id);
      var ended := IsItem(c.kind) && ItemEnds(c, Counter(counters, id), r);
      if ended {
        counters := counters[id := -1];
        events := events + [Finished(c.parent.value, false)];
      }
      if !otherBranch {
        ExtendThePath(Successors(design, id, r, ended));
      }
    }

    // The body of the post-processing loop for position i.
    method PostProcess(i: nat, r: Reply)
      requires Valid() && i < |path|
      modifies this
      ensures Valid() && View() == Post(design, old(View()), i, r)
    {
      hide Announce, HandleError, Report, Advance, Diverted, AllIn, WellFormed;
      var id := path[i];
      assert id in design.comps by { assert AllIn(path, design.comps); KnownAt(i); }
      AnnounceMessage(id, r);
      var otherBranch := TakeError(id, r);
      ReportNode(id, r);
      AppendSuccessors(id, r, otherBranch);
      visits := visits + [i];
    }

    lemma KnownAt(i: nat)
      requires AllIn(path, design.comps) && i < |path|
      ensures path[i] in design.comps
    {
    }

    // The node_started events and _run_batch.
    method Collect(env: Replies)
      requires Valid()
      modifies this
      ensures Valid() && View() == Gathered(design, old(View()), env)
    {
      hide Prune, Invoke;
      events := events + StartedEvents(path[idx..]);
      Scan(idx);
      Gather(idx, env);
      mark := |path|;
    }

    method PostProcessAll(env: Replies)
      requires Valid() && mark == |path|
      modifies this
      ensures Valid() && View() == PostAll(design, old(View()), old(idx), old(mark), env)
    {
      hide Post;
      var i, to := idx, mark;
      while i < to
        invariant old(idx) <= i <= to <= |path| && Valid() && SameBounds(old(View()), View())
        invariant PostAll(design, View(), i, to, env) == PostAll(design, old(View()), old(idx), to, env)
      {
        PostProcess(i, env(i));
        i := i + 1;
      }
    }

    // One iteration of the outer loop.
    method RunBatch(env: Replies)
      requires Valid() && CanStep(View())
      modifies this
      ensures Valid() && View() == Batch(design, old(View()), env)
    {
      hide PostAll, Gathered, AwaitsInput;
      Collect(env);
      PostProcessAll(env);
      if error != "" {
        status := Failed;
      } else {
        idx := mark;
        if AwaitsInput(design, path[idx..]) {
          status := Paused;
        }
      }
    }

    // What is left in self.path when the loop is over.
    method Close()
      requires Valid()
      modifies `path
      ensures path == FinalPath(design, old(View()))
    {
      hide FillUps, NonFillUps;
      if status == Paused {
        path := FillUps(design, path[idx..]) + NonFillUps(design, path[idx..]);
      } else {
        path := path[..idx];
      }
    }

    // The outer loop, for at most `fuel` batches; `finished` when it came to its own end.
    method Run(env: Replies, fuel: nat) returns (finished: bool)
      requires Valid()
      modifies this
      ensures var end := Scheduler.Run(design, old(View()), env, fuel);
              && finished == !CanStep(end)
              && View() == if finished then end.(path := FinalPath(design, end)) else end
    {
      hide Batch, FillUps, NonFillUps;
      var n := fuel;
      while n > 0 && status == Running && idx < |path|
        invariant Valid()
        invariant Scheduler.Run(design, View(), env, n) == Scheduler.Run(design, old(View()), env, fuel)
        decreases n
      {
        RunBatch(env);
        n := n - 1;
      }
      finished := !(status == Running && idx < |path|);
      if finished {
        Close();
      }
    }
  }

  lemma PruneStep(d: Design, path: seq<Id>, i: nat)
    requires i < |path| && AllIn(path, d.comps)
    ensures AllIn(path[..i] + path[i + 1..], d.comps)
    ensures Prune(d, path, i, |path|) == if Admitted(d, path, i) then Prune(d, path, i + 1, |path|)
                                         else Prune(d, path[..i] + path[i + 1..], i, |path| - 1)
  {
    hide Admitted;
  }

  lemma PruneEnds(d: Design, path: seq<Id>)
    requires AllIn(path, d.comps)
    ensures Prune(d, path, |path|, |path|) == path
  {
  }
}
