/** What holds at every point of every run of the scheduler, for all replies. */
module CanvasRuns {
  import opened Design
  import opened Scheduler

  // Between batches of a run that began at position `start`.
  ghost predicate Between(d: Design, start: nat, s: State)
  {
    Pending(d, s) && start <= s.idx && (s.status != Failed ==> s.idx == s.mark)
  }

  // The state after post-processing, before the batch is settled.
  function Posted(d: Design, s: State, env: Replies): (p: State)
    requires WellFormed(d) && Pending(d, s)
    ensures SameBounds(Gathered(d, s, env), p)
    ensures Gathered(d, s, env).path <= p.path && AllIn(p.path, d.comps)
  {
    hide Gathered, Post;
    var g := Gathered(d, s, env);
    PostAll(d, g, g.idx, g.mark, env)
  }

  lemma BatchSettles(d: Design, s: State, env: Replies)
    requires WellFormed(d) && Pending(d, s)
    ensures Batch(d, s, env) == Settle(d, Posted(d, s, env))
  {
    hide Settle, Gathered, Post, PostAll;
  }

  lemma BatchIsBetween(d: Design, start: nat, s: State, env: Replies)
    requires WellFormed(d) && Between(d, start, s) && CanStep(s)
    ensures Between(d, start, Batch(d, s, env))
  {
    BatchSettles(d, s, env);
    hide Batch, Posted, Post, PostAll;
  }

  lemma {:induction false} RunSplits(d: Design, s: State, env: Replies, n: nat, m: nat)
    requires WellFormed(d) && Pending(d, s)
    ensures Run(d, s, env, n + m) == Run(d, Run(d, s, env, n), env, m)
    decreases n
  {
    hide Batch;
    if n > 0 && CanStep(s) {
      RunSplits(d, Batch(d, s, env), env, n - 1, m);
    }
  }

  // The states of a run are what the batches make of its first state.
  lemma {:induction false} RunStates(d: Design, path: seq<Id>, counters: map<Id, int>, env: Replies, run: seq<State>, k: nat)
    requires WellFormed(d) && IsRun(d, path, counters, env, run) && k < |run|
    ensures run[k] == Run(d, run[0], env, k) && Between(d, run[0].idx, run[k])
    ensures k + 1 < |run| ==> CanStep(run[k]) && run[k + 1] == Batch(d, run[k], env)
    decreases k
  {
    hide Batch, WellFormed, Pending;
    if k + 1 < |run| {
      assert NextAt(d, env, run, k);
    }
    if k > 0 {
      RunStates(d, path, counters, env, run, k - 1);
      assert NextAt(d, env, run, k - 1);
      RunSplits(d, run[0], env, k - 1, 1);
      assert Run(d, run[k], env, 0) == run[k];
      BatchIsBetween(d, run[0].idx, run[k - 1], env);
    } else {
      StartIsBetween(d, path, counters, run[0]);
    }
  }

  lemma StartIsBetween(d: Design, path: seq<Id>, counters: map<Id, int>, s: State)
    requires Pending(d, s) && s == StartState(path, counters)
    ensures Between(d, s.idx, s)
  {
  }

  // Every state that the batches reach is the last one of a run.
  lemma {:induction false} RunHasStates(d: Design, path: seq<Id>, counters: map<Id, int>, env: Replies, fuel: nat)
      returns (run: seq<State>)
    requires WellFormed(d) && AllIn(StartPath(path), d.comps)
    ensures IsRun(d, path, counters, env, run) && run[|run| - 1] == Run(d, StartState(path, counters), env, fuel)
    decreases fuel
  {
    hide Batch, WellFormed;
    var s0 := StartState(path, counters);
    if fuel == 0 {
      run := [s0];
    } else {
      var before := RunHasStates(d, path, counters, env, fuel - 1);
      var last := before[|before| - 1];
      RunSplits(d, s0, env, fuel - 1, 1);
      if CanStep(last) {
        run := before + [Batch(d, last, env)];
        assert Run(d, Batch(d, last, env), env, 0) == Batch(d, last, env);
        forall k | 0 <= k < |run| - 1 ensures NextAt(d, env, run, k) {
          if k < |before| - 1 {
            assert NextAt(d, env, before, k);
          }
        }
      } else {
        run := before;
      }
    }
  }

  /* ---------- inputs come first ---------- */

  lemma AdmittedIsStable(d: Design, p: seq<Id>, q: seq<Id>, i: nat)
    requires i < |p| && i < |q| && p[..i + 1] == q[..i + 1] && AllIn(p, d.comps) && AllIn(q, d.comps)
    ensures Admitted(d, p, i) <==> Admitted(d, q, i)
  {
    assert p[i] == p[..i + 1][i] == q[i] && p[0] == p[..i + 1][0] == q[0];
    assert p[..i] == p[..i + 1][..i] == q[..i + 1][..i] == q[..i];
  }

  ghost predicate AllAdmitted(d: Design, path: seq<Id>, start: nat, mark: nat)
    requires mark <= |path| && AllIn(path, d.comps)
  {
    forall i :: start <= i < mark ==> Admitted(d, path, i)
  }

  lemma {:induction false} PruneAdmits(d: Design, path: seq<Id>, i: nat)
    requires i <= |path| && AllIn(path, d.comps)
    ensures var r := Prune(d, path, i, |path|); AllAdmitted(d, r, i, |r|)
    decreases |path| - i
  {
    if i == |path| {
    } else if Admitted(d, path, i) {
      var r := Prune(d, path, i + 1, |path|);
      PruneAdmits(d, path, i + 1);
      AdmittedIsStable(d, path, r, i);
      assert Prune(d, path, i, |path|) == r;
      assert Admitted(d, r, i);
    } else {
      PruneAdmits(d, path[..i] + path[i + 1..], i);
    }
  }

  lemma BatchAdmits(d: Design, start: nat, s: State, env: Replies)
    requires WellFormed(d) && Between(d, start, s) && CanStep(s)
    requires AllAdmitted(d, s.path, start, s.mark)
    ensures var s' := Batch(d, s, env); AllAdmitted(d, s'.path, start, s'.mark)
  {
    hide Batch, Posted, Post, PostAll, Prune, Invoke, Admitted;
    var g := Gathered(d, s, env);
    var p := Posted(d, s, env);
    BatchSettles(d, s, env);
    PruneAdmits(d, s.path, s.idx);
    forall i | start <= i < g.mark ensures Admitted(d, p.path, i) {
      if i < s.idx {
        assert s.path[..i + 1] == s.path[..s.idx][..i + 1] == g.path[..s.idx][..i + 1] == g.path[..i + 1];
        AdmittedIsStable(d, s.path, g.path, i);
      }
      AdmittedIsStable(d, g.path, p.path, i);
    }
  }

  lemma {:induction false} RunAdmits(d: Design, start: nat, s: State, env: Replies, fuel: nat)
    requires WellFormed(d) && Between(d, start, s) && AllAdmitted(d, s.path, start, s.mark)
    ensures var s' := Run(d, s, env, fuel); AllAdmitted(d, s'.path, start, s'.mark)
    decreases fuel
  {
    hide Batch, Admitted;
    if fuel > 0 && CanStep(s) {
      BatchAdmits(d, start, s, env);
      BatchIsBetween(d, start, s, env);
      RunAdmits(d, start, Batch(d, s, env), env, fuel - 1);
    }
  }

  // Every executed entry finds every component it refers to earlier in the path, unless it is a Begin or a UserFillUp
  // or the path begins at a UserFillUp.
  lemma InputsComeFirst(d: Design, path: seq<Id>, counters: map<Id, int>, env: Replies, run: seq<State>, k: nat, i: nat, ref: Id)
      returns (j: nat)
    requires WellFormed(d) && IsRun(d, path, counters, env, run) && k < |run|
    requires run[0].idx <= i < run[k].mark
    requires d.comps[run[k].path[i]].kind != Begin && d.comps[run[k].path[i]].kind != UserFillUp
    requires !MentionsFillUp(run[k].path[0])
    requires ref in d.comps[run[k].path[i]].refs && ref != ""
    ensures j < i && run[k].path[j] == ref
  {
    assert run[k].path[i] in d.comps;
    hide Batch, Run, IsRun, WellFormed, MentionsFillUp, RefsBefore;
    RunStates(d, path, counters, env, run, 0);
    RunStates(d, path, counters, env, run, k);
    StartIsTheMark(d, path, counters, env, run);
    RunAdmits(d, run[0].idx, run[0], env, k);
    assert Admitted(d, run[k].path, i);
    j := RefIsBefore(d, run[k].path, i, ref);
  }

  lemma RefIsBefore(d: Design, path: seq<Id>, i: nat, ref: Id) returns (j: nat)
    requires i < |path| && path[i] in d.comps && RefsBefore(d, path, i) && ref in d.comps[path[i]].refs && ref != ""
    ensures j < i && path[j] == ref
  {
    j :| 0 <= j < i && path[..i][j] == ref;
  }

  lemma StartIsTheMark(d: Design, path: seq<Id>, counters: map<Id, int>, env: Replies, run: seq<State>)
    requires WellFormed(d) && IsRun(d, path, counters, env, run)
    ensures run != [] && run[0].status == Running
    ensures AllIn(run[0].path, d.comps) && run[0].idx == run[0].mark == |run[0].path| - 1
    ensures run[0].visits == [] && run[0].events == [] && run[0].partials == [] && run[0].deferred == []
    ensures run[0].path == StartPath(path) && run[0].counters == counters
  {
  }

  /* ---------- pruning drops as little as it can ---------- */

  // `kept` are the ids an entry may already refer to; `q` could run, in order, after them.
  ghost predicate Runnable(d: Design, kept: set<Id>, q: seq<Id>)
    requires AllIn(q, d.comps)
    decreases |q|
  {
    q == [] ||
    ((d.comps[q[0]].kind == Begin || d.comps[q[0]].kind == UserFillUp
      || forall ref :: ref in d.comps[q[0]].refs ==> ref == "" || ref in kept)
     && Runnable(d, kept + {q[0]}, q[1..]))
  }

  function Ids(p: seq<Id>): set<Id> { set x | x in p }

  ghost predicate Subsequence(q: seq<Id>, p: seq<Id>)
    decreases |p|
  {
    q == [] || (p != [] && ((q[0] == p[0] && Subsequence(q[1..], p[1..])) || Subsequence(q, p[1..])))
  }

  lemma {:induction false} RunnableIsMonotone(d: Design, kept: set<Id>, more: set<Id>, q: seq<Id>)
    requires AllIn(q, d.comps) && kept <= more && Runnable(d, kept, q)
    ensures Runnable(d, more, q)
    decreases |q|
  {
    if q != [] {
      RunnableIsMonotone(d, kept + {q[0]}, more + {q[0]}, q[1..]);
    }
  }

  // However one picks entries of the batch that could run in that order, pruning keeps them all: an
  // entry is popped only when no choice could have given it its inputs.
  lemma {:induction false} PruneIsMaximal(d: Design, path: seq<Id>, i: nat, q: seq<Id>)
    requires i <= |path| && AllIn(path, d.comps) && AllIn(q, d.comps)
    requires Subsequence(q, path[i..]) && Runnable(d, Ids(path[..i]), q)
    ensures Subsequence(q, Prune(d, path, i, |path|)[i..])
    decreases |path| - i
  {
    if q == [] || i == |path| {
    } else {
      var r := Prune(d, path, i, |path|);
      var kept := Ids(path[..i]);
      var rest := path[i + 1..];
      assert path[i..][1..] == rest;
      if Admitted(d, path, i) {
        assert path[..i + 1] == path[..i] + [path[i]];
        var kept' := Ids(path[..i + 1]);
        assert r[..i + 1][i] == path[..i + 1][i];
        assert r[i..] == [r[i]] + r[i + 1..];
        if q[0] == path[i] && Subsequence(q[1..], rest) {
          assert kept' == kept + {q[0]};
          PruneIsMaximal(d, path, i + 1, q[1..]);
          assert q == [q[0]] + q[1..];
        } else {
          RunnableIsMonotone(d, kept, kept', q);
          PruneIsMaximal(d, path, i + 1, q);
        }
      } else {
        var shorter := path[..i] + rest;
        assert shorter[..i] == path[..i] && shorter[i..] == rest;
        assert q[0] != path[i];
        PruneIsMaximal(d, shorter, i, q);
      }
    }
  }

  // In a path that begins at a UserFillUp nothing waits.
  lemma {:induction false} NothingIsPopped(d: Design, path: seq<Id>, i: nat)
    requires i <= |path| && AllIn(path, d.comps) && path != [] && MentionsFillUp(path[0])
    ensures Prune(d, path, i, |path|) == path
    decreases |path| - i
  {
    hide MentionsFillUp;
    if i < |path| {
      NothingIsPopped(d, path, i + 1);
    }
  }

  /* ---------- every entry is there on account of an earlier one ---------- */

  ghost predicate Edge(d: Design, a: Id, b: Id)
    requires a in d.comps
  {
    var c := d.comps[a];
    || b in c.downstream
    || (c.handler.Handler? && b in c.handler.goto)
    || (exists k :: 0 <= k < |c.routes| && b in c.routes[k])
    || (IsContainer(c.kind) && IsStartOf(d, a, b))
    || (c.parent.Some? && c.parent.value in d.comps
        && (((IsItem(c.kind) || c.kind == ExitLoop) && b in d.comps[c.parent.value].downstream)
            || (c.downstream == [] && IsStartOf(d, c.parent.value, b))))
  }

  lemma SuccessorsAreEdges(d: Design, id: Id, r: Reply, ended: bool)
    requires WellFormed(d) && id in d.comps && (ended ==> IsItem(d.comps[id].kind))
    ensures forall x :: x in Successors(d, id, r, ended) ==> Edge(d, id, x)
  {
    assert WellFormedComponent(d, id);
    var c := d.comps[id];
    forall x | x in Successors(d, id, r, ended) ensures Edge(d, id, x) {
      if x in Route(c, r) {
        assert x in c.routes[r.route];
      }
    }
  }

  // Every entry of `path` from position `from` on has a cause among the executed positions before it.
  ghost predicate Caused(d: Design, path: seq<Id>, start: nat, mark: nat, from: nat)
    requires mark <= |path| && AllIn(path, d.comps)
  {
    forall j :: from <= j < |path| ==> HasCause(d, path, start, mark, j)
  }

  ghost predicate HasCause(d: Design, path: seq<Id>, start: nat, mark: nat, j: nat)
    requires mark <= |path| && j < |path| && AllIn(path, d.comps)
  {
    exists k :: start <= k < mark && k < j && Edge(d, path[k], path[j])
  }

  ghost predicate AddsEdges(d: Design, id: Id, p: seq<Id>, q: seq<Id>)
    requires id in d.comps
  {
    p <= q && forall j :: |p| <= j < |q| ==> Edge(d, id, q[j])
  }

  lemma HandleErrorAddsEdges(d: Design, s: State, id: Id, r: Reply)
    requires WellFormed(d) && id in d.comps && AllIn(s.path, d.comps)
    ensures AddsEdges(d, id, s.path, HandleError(d, s, id, r).path)
  {
    assert WellFormedComponent(d, id);
  }

  lemma {:induction false} ExtendAddsEdges(d: Design, id: Id, path: seq<Id>, ids: seq<Id>)
    requires id in d.comps && path != [] && forall x :: x in ids ==> Edge(d, id, x)
    ensures AddsEdges(d, id, path, ExtendPath(path, ids))
    decreases |ids|
  {
    hide Edge;
    if ids != [] {
      ExtendAddsEdges(d, id, AppendPath(path, ids[0]), ids[1..]);
    }
  }

  lemma AdvanceAddsEdges(d: Design, s: State, id: Id, r: Reply)
    requires WellFormed(d) && id in d.comps && s.path != [] && AllIn(s.path, d.comps)
    ensures AddsEdges(d, id, s.path, Advance(d, s, id, r).path)
  {
    hide Edge, Successors, ExtendPath, Diverted;
    var c := d.comps[id];
    assert WellFormedComponent(d, id);
    var ended := IsItem(c.kind) && ItemEnds(c, Counter(s.counters, id), r);
    SuccessorsAreEdges(d, id, r, ended);
    ExtendAddsEdges(d, id, s.path, Successors(d, id, r, ended));
  }

  lemma PostAddsEdges(d: Design, s: State, i: nat, r: Reply)
    requires WellFormed(d) && i < |s.path| && AllIn(s.path, d.comps)
    ensures AddsEdges(d, s.path[i], s.path, Post(d, s, i, r).path)
  {
    hide Announce, HandleError, Report, Advance, Edge;
    var id := s.path[i];
    var s1 := Announce(d, s, id, r);
    var s2 := HandleError(d, s1, id, r);
    var s3 := Report(d, s2, id, r);
    HandleErrorAddsEdges(d, s1, id, r);
    AdvanceAddsEdges(d, s3, id, r);
  }

  lemma {:induction false} PostAllAddsEdges(d: Design, start: nat, s: State, i: nat, t: nat, env: Replies)
    requires WellFormed(d) && start <= i <= t <= |s.path| && AllIn(s.path, d.comps)
    requires Caused(d, s.path, start, t, start + 1)
    ensures Caused(d, PostAll(d, s, i, t, env).path, start, t, start + 1)
    decreases t - i
  {
    hide Post, Edge;
    if i < t {
      var s1 := Post(d, s, i, env(i));
      PostAddsEdges(d, s, i, env(i));
      forall j | start + 1 <= j < |s1.path| ensures HasCause(d, s1.path, start, t, j) {
        if j < |s.path| {
          assert HasCause(d, s.path, start, t, j);
          var k :| start <= k < t && k < j && Edge(d, s.path[k], s.path[j]);
          assert Edge(d, s1.path[k], s1.path[j]);
        } else {
          assert Edge(d, s1.path[i], s1.path[j]);
        }
      }
      PostAllAddsEdges(d, start, s1, i + 1, t, env);
    }
  }

  // Where the entry at `j` of the pruned path stood before.
  lemma {:induction false} PruneSelects(d: Design, path: seq<Id>, i: nat, j: nat) returns (j': nat)
    requires i <= |path| && AllIn(path, d.comps) && i <= j < |Prune(d, path, i, |path|)|
    ensures j <= j' < |path| && path[j'] == Prune(d, path, i, |path|)[j]
    decreases |path| - i
  {
    var r := Prune(d, path, i, |path|);
    if Admitted(d, path, i) {
      if j == i {
        j' := i;
        assert r[i] == r[..i + 1][i];
      } else {
        j' := PruneSelects(d, path, i + 1, j);
      }
    } else {
      j' := PruneSelects(d, path[..i] + path[i + 1..], i, j);
      j' := j' + 1;
    }
  }

  lemma BatchIsCaused(d: Design, start: nat, s: State, env: Replies)
    requires WellFormed(d) && Between(d, start, s) && CanStep(s)
    requires Caused(d, s.path, start, s.mark, start + 1)
    ensures var s' := Batch(d, s, env); Caused(d, s'.path, start, s'.mark, start + 1)
  {
    hide Batch, Post, Edge, Prune, Invoke;
    var g := Gathered(d, s, env);
    BatchSettles(d, s, env);
    forall j | start + 1 <= j < |g.path| ensures HasCause(d, g.path, start, g.mark, j) {
      var j' := j;
      if s.idx <= j {
        j' := PruneSelects(d, s.path, s.idx, j);
      }
      assert HasCause(d, s.path, start, s.mark, j');
      var k :| start <= k < s.mark && k < j' && Edge(d, s.path[k], s.path[j']);
      assert s.path[k] == s.path[..s.idx][k] == g.path[..s.idx][k] == g.path[k];
      if j < s.idx {
        assert s.path[j] == s.path[..s.idx][j] == g.path[..s.idx][j];
      }
      assert Edge(d, g.path[k], g.path[j]);
    }
    PostAllAddsEdges(d, start, g, g.idx, g.mark, env);
  }

  lemma {:induction false} RunIsCaused(d: Design, start: nat, s: State, env: Replies, fuel: nat)
    requires WellFormed(d) && Between(d, start, s) && Caused(d, s.path, start, s.mark, start + 1)
    ensures var s' := Run(d, s, env, fuel); Caused(d, s'.path, start, s'.mark, start + 1)
    decreases fuel
  {
    hide Batch, HasCause;
    if fuel > 0 && CanStep(s) {
      BatchIsCaused(d, start, s, env);
      BatchIsBetween(d, start, s, env);
      RunIsCaused(d, start, Batch(d, s, env), env, fuel - 1);
    }
  }

  // A walk along edges of the canvas.
  ghost predicate Walk(d: Design, w: seq<Id>)
  {
    w != [] && AllIn(w, d.comps) && forall k :: 0 <= k < |w| - 1 ==> Edge(d, w[k], w[k + 1])
  }

  lemma {:induction false} CausesGiveWalk(d: Design, path: seq<Id>, start: nat, mark: nat, j: nat) returns (w: seq<Id>)
    requires mark <= |path| && AllIn(path, d.comps) && Caused(d, path, start, mark, start + 1)
    requires start <= j < |path|
    ensures Walk(d, w) && w[0] == path[start] && w[|w| - 1] == path[j]
    decreases j
  {
    hide Edge;
    if j == start {
      w := [path[start]];
    } else {
      assert HasCause(d, path, start, mark, j);
      var k :| start <= k < mark && k < j && Edge(d, path[k], path[j]);
      var v := CausesGiveWalk(d, path, start, mark, k);
      w := v + [path[j]];
    }
  }

  lemma BatchKeepsItsStart(d: Design, start: nat, s: State, env: Replies)
    requires WellFormed(d) && Between(d, start, s) && CanStep(s) && RunsUnchecked(d.comps[s.path[start]].kind)
    ensures var b := Batch(d, s, env); start < |b.path| && b.path[..start + 1] == s.path[..start + 1]
  {
    hide Batch, Posted, Invoke;
    var g := Gathered(d, s, env);
    BatchSettles(d, s, env);
    assert start < |g.path| && g.path[..start + 1] == s.path[..start + 1] by {
      if s.idx == start {
        var r := Prune(d, s.path, start + 1, |s.path|);
        assert g.path == r;
      } else {
        assert g.path[..start + 1] == g.path[..s.idx][..start + 1] == s.path[..s.idx][..start + 1];
      }
    }
    assert Posted(d, s, env).path[..start + 1] == g.path[..start + 1];
  }

  // An entry that runs unchecked is never popped: a run keeps its own first entry and all before it.
  lemma {:induction false} RunKeepsItsStart(d: Design, start: nat, s: State, env: Replies, fuel: nat)
    requires WellFormed(d) && Between(d, start, s) && start < |s.path| && RunsUnchecked(d.comps[s.path[start]].kind)
    ensures var s' := Run(d, s, env, fuel); start < |s'.path| && s'.path[..start + 1] == s.path[..start + 1]
    decreases fuel
  {
    hide Batch;
    if fuel > 0 && CanStep(s) {
      var b := Batch(d, s, env);
      BatchKeepsItsStart(d, start, s, env);
      BatchIsBetween(d, start, s, env);
      assert s.path[start] == s.path[..start + 1][start] == b.path[..start + 1][start] == b.path[start];
      RunKeepsItsStart(d, start, b, env, fuel - 1);
    }
  }

  // Everything a run schedules is reachable in the canvas from the entry the run began at.
  lemma ScheduledIsReachable(d: Design, path: seq<Id>, counters: map<Id, int>, env: Replies, run: seq<State>, k: nat, j: nat)
      returns (w: seq<Id>)
    requires WellFormed(d) && IsRun(d, path, counters, env, run) && k < |run|
    requires run[0].idx <= j < |run[k].path|
    ensures Walk(d, w) && w[0] == run[k].path[run[0].idx] && w[|w| - 1] == run[k].path[j]
    ensures path == [] || !MentionsFillUp(path[|path| - 1]) ==> w[0] == "begin"
  {
    hide Batch, Run, IsRun, Edge, HasCause, MentionsFillUp;
    var start := run[0].idx;
    RunStates(d, path, counters, env, run, 0);
    RunStates(d, path, counters, env, run, k);
    StartIsTheMark(d, path, counters, env, run);
    RunIsCaused(d, start, run[0], env, k);
    if run[0].path[start] == "begin" {
      RunKeepsItsStart(d, start, run[0], env, k);
      assert run[k].path[start] == run[k].path[..start + 1][start] == run[0].path[..start + 1][start];
    }
    w := CausesGiveWalk(d, run[k].path, start, run[k].mark, j);
  }
}
