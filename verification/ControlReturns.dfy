/** Where control goes inside a container: which wiring keeps a run from coming to an end in the middle of a
    body, so that it can only leave the container by the container's downstream. */
module ControlReturns {
  import opened Design
  import opened LoopRuns
  import opened Options
  import opened Scheduler
  import opened StructuredCanvas

  // Appending `ids` after x appends something.
  predicate LeadsOn(ids: seq<Id>, x: Id)
  {
    exists y :: y in ids && y != x
  }

  // A Categorize or Switch has put one of its routes in its `_next` output.
  predicate Routed(c: Component, r: Reply)
  {
    c.kind == Categorize || c.kind == Switch ==> r.route < |c.routes|
  }

  // The step that leaves container `box` from inside.
  predicate Leaves(d: Design, box: Id, x: Id, ended: bool)
    requires x in d.comps
  {
    var c := d.comps[x];
    c.parent == Some(box) && (ended || (c.kind == ExitLoop && box in d.comps && d.comps[box].kind == Loop))
  }

  // The wiring of x, inside a container, always has a next entry until `box` is left: no route is empty, an item has
  // a body, and a container that ends inside `box` names a next step. A component with no next step of its own goes
  // back to its item; only a container does not.
  ghost predicate KeepsGoing(d: Design, box: Id, x: Id)
    requires WellFormed(d) && x in d.comps && d.comps[x].parent.Some?
  {
    assert WellFormedComponent(d, x);
    var c := d.comps[x];
    var p := c.parent.value;
    && (c.kind == Categorize || c.kind == Switch ==> forall k :: 0 <= k < |c.routes| ==> LeadsOn(c.routes[k], x))
    && (IsItem(c.kind) ==>
          && (if c.downstream == [] then GetStart(d, p) != x else LeadsOn(c.downstream, x))
          && (p == box || LeadsOn(d.comps[p].downstream, x)))
    && (c.kind == ExitLoop && d.comps[p].kind == Loop ==> p == box || LeadsOn(d.comps[p].downstream, x))
    && (c.downstream != [] && IsPlain(d, x) ==> LeadsOn(c.downstream, x))
  }

  // Neither an item, a router, a container nor the exit of a loop.
  predicate IsPlain(d: Design, x: Id)
    requires x in d.comps
  {
    var c := d.comps[x];
    && !IsItem(c.kind) && !IsContainer(c.kind) && c.kind != Categorize && c.kind != Switch
    && !(c.kind == ExitLoop && c.parent.Some? && c.parent.value in d.comps && d.comps[c.parent.value].kind == Loop)
  }

  ghost predicate GoesOn(d: Design, box: Id, x: Id, r: Reply, ended: bool)
    requires WellFormed(d) && x in d.comps && (ended ==> IsItem(d.comps[x].kind))
  {
    Routed(d.comps[x], r) && !Leaves(d, box, x, ended) ==> LeadsOn(Successors(d, x, r, ended), x)
  }

  lemma OnlyItself(x: Id)
    ensures !LeadsOn([x], x) && forall y :: y != x ==> LeadsOn([y], x)
  {
    forall y | y != x ensures LeadsOn([y], x) {
      assert y in [y];
    }
  }

  // The condition on the wiring is exact: it holds if and only if no reply and no visit that ends leaves x without a
  // next entry, other than by leaving `box`.
  lemma KeepsGoingMeans(d: Design, box: Id, x: Id)
    requires WellFormed(d) && x in d.comps && d.comps[x].parent.Some?
    ensures KeepsGoing(d, box, x) <==>
              forall r, ended {:trigger GoesOn(d, box, x, r, ended)} :: (ended ==> IsItem(d.comps[x].kind)) ==> GoesOn(d, box, x, r, ended)
  {
    hide LeadsOn;
    var c := d.comps[x];
    assert WellFormedComponent(d, x);
    OnlyItself(x);
    assert IsContainer(c.kind) ==> GetStart(d, x) != x;
    if KeepsGoing(d, box, x) {
      forall r, ended | ended ==> IsItem(c.kind) ensures GoesOn(d, box, x, r, ended) {
      }
    } else {
      var r := Reply("", {}, 0, None, false);
      if k :| 0 <= k < |c.routes| && !LeadsOn(c.routes[k], x) && (c.kind == Categorize || c.kind == Switch) {
        assert !GoesOn(d, box, x, r.(route := k), false);
      } else if IsItem(c.kind) && c.parent.value != box && !LeadsOn(d.comps[c.parent.value].downstream, x) {
        assert !GoesOn(d, box, x, r, true);
      } else {
        assert !GoesOn(d, box, x, r, false);
      }
    }
  }

  lemma LeadsOnFirst(ids: seq<Id>, x: Id)
    requires ids != []
    ensures LeadsOn(ids, x) <==> ids[0] != x || LeadsOn(ids[1..], x)
  {
    assert ids == [ids[0]] + ids[1..];
    assert ids[0] in ids && forall y :: y in ids <==> y == ids[0] || y in ids[1..];
  }

  lemma {:induction false} ExtendMeans(path: seq<Id>, ids: seq<Id>)
    requires path != []
    ensures |ExtendPath(path, ids)| > |path| <==> LeadsOn(ids, path[|path| - 1])
    decreases |ids|
  {
    if ids == [] {
      assert ExtendPath(path, ids) == path;
    } else {
      var next := AppendPath(path, ids[0]);
      assert ExtendPath(path, ids) == ExtendPath(next, ids[1..]);
      hide LeadsOn, ExtendPath;
      LeadsOnFirst(ids, path[|path| - 1]);
      if ids[0] == path[|path| - 1] {
        ExtendMeans(path, ids[1..]);
      } else {
        assert next <= ExtendPath(next, ids[1..]);
      }
    }
  }

  // The counters after the visit decide whether an item ends.
  predicate EndsHere(d: Design, s: State, r: Reply)
    requires WellFormed(d) && s.idx < |s.path| && s.path[s.idx] in d.comps
  {
    var x := s.path[s.idx];
    IsItem(d.comps[x].kind) && ItemEnds(d.comps[x], Counter(Stepped(d, s, r), x), r)
  }

  // A batch of one entry without an error is the last of the run if and only if it has no other entry to go on to.
  lemma LastBatch(d: Design, s: State, env: Replies)
    requires WellFormed(d) && AtOne(d, s) && env(s.idx).error == ""
    ensures var b := Batch(d, s, env);
            b.idx == |b.path| <==> !LeadsOn(Successors(d, s.path[s.idx], env(s.idx), EndsHere(d, s, env(s.idx))), s.path[s.idx])
  {
    hide Batch, Successors, LeadsOn, ExtendPath, Stepped, ItemEnds, Admitted, AwaitsInput;
    OneStep(d, s, env);
    ExtendMeans(s.path, Successors(d, s.path[s.idx], env(s.idx), EndsHere(d, s, env(s.idx))));
  }

  /* ---------- a container inside a body ---------- */

  // When an inner container ends, the item around it is visited next exactly if the container names it, and the run is
  // over exactly if it names nothing: the way back that other components have by themselves is not there.
  lemma OuterItemIsNext(d: Design, rank: map<Id, nat>, inner: Id, s: State, env: Replies)
    requires WellFormed(d) && Structured(d, rank) && AtOne(d, s) && env(s.idx).error == "" && EndsHere(d, s, env(s.idx))
    requires inner in d.comps && d.comps[s.path[s.idx]].parent == Some(inner) && d.comps[inner].parent.Some?
    ensures d.comps[inner].parent.value in d.comps && IsContainer(d.comps[d.comps[inner].parent.value].kind)
    ensures var b, outer := Batch(d, s, env), d.comps[inner].parent.value;
            && (b.path == s.path + [GetStart(d, outer)] <==> d.comps[inner].downstream == [GetStart(d, outer)])
            && (b.idx == |b.path| <==> d.comps[inner].downstream == [])
  {
    hide Batch, ExtendPath, ItemEnds, Admitted, AwaitsInput, Structured, Stepped, GetStart, Successors, WellFormed, Targets;
    var x, next := s.path[s.idx], d.comps[inner].downstream;
    assert x in d.comps;
    hide Pending;
    StructuredGives(d, rank, x);
    StructuredGives(d, rank, inner);
    EndedGoesTo(d, x, inner, env(s.idx));
    OneStep(d, s, env);
    if next == [] {
      NothingNext(s.path);
    } else {
      OwnTargets(d.comps[inner], next);
      TargetIs(d, rank, inner, next[0]);
      assert next == [next[0]] && next[0] != x;
      AppendNext(s.path, next[0]);
    }
  }

  lemma EndedGoesTo(d: Design, x: Id, box: Id, r: Reply)
    requires WellFormed(d) && x in d.comps && IsItem(d.comps[x].kind) && d.comps[x].parent == Some(box) && box in d.comps
    ensures Successors(d, x, r, true) == d.comps[box].downstream
  {
  }

  lemma NothingNext(path: seq<Id>)
    requires path != []
    ensures ExtendPath(path, []) == path
  {
  }

  /* ---------- runs inside a container ---------- */

  // x lies in `box`, at whatever depth.
  ghost predicate Inside(d: Design, rank: map<Id, nat>, high: nat, box: Id, x: Id)
    requires WellFormed(d) && Structured(d, rank) && HighRank(rank, high) && x in d.comps
    decreases high - rank[x]
  {
    assert StructuredAt(d, rank, x);
    d.comps[x].parent.Some? && (d.comps[x].parent.value == box || Inside(d, rank, high, box, d.comps[x].parent.value))
  }

  // The wiring of everything in `box` keeps going.
  ghost predicate BodyKeepsGoing(d: Design, rank: map<Id, nat>, high: nat, box: Id)
    requires WellFormed(d) && Structured(d, rank) && HighRank(rank, high)
  {
    forall x {:trigger Inside(d, rank, high, box, x)} :: x in d.comps && Inside(d, rank, high, box, x) ==> KeepsGoing(d, box, x)
  }

  lemma StartIsInside(d: Design, rank: map<Id, nat>, high: nat, box: Id, y: Id)
    requires WellFormed(d) && Structured(d, rank) && HighRank(rank, high) && y in d.comps && IsContainer(d.comps[y].kind)
    requires y == box || Inside(d, rank, high, box, y)
    ensures GetStart(d, y) in d.comps && Inside(d, rank, high, box, GetStart(d, y))
  {
  }

  lemma SameLevelIsInside(d: Design, rank: map<Id, nat>, high: nat, box: Id, x: Id, y: Id)
    requires WellFormed(d) && Structured(d, rank) && HighRank(rank, high) && x in d.comps && y in Targets(d.comps[x])
    requires Inside(d, rank, high, box, x)
    ensures y in d.comps && Inside(d, rank, high, box, y)
  {
    hide Targets, WellFormed;
    TargetIs(d, rank, x, y);
  }

  lemma OwnListIsInside(d: Design, rank: map<Id, nat>, high: nat, box: Id, x: Id, ids: seq<Id>)
    requires WellFormed(d) && Structured(d, rank) && HighRank(rank, high) && x in d.comps && OwnList(d.comps[x], ids)
    requires Inside(d, rank, high, box, x)
    ensures |ids| <= 1 && AllIn(ids, d.comps) && forall y :: y in ids ==> Inside(d, rank, high, box, y)
  {
    hide Targets, WellFormed;
    StructuredGives(d, rank, x);
    OwnTargets(d.comps[x], ids);
    forall y | y in ids ensures y in d.comps && Inside(d, rank, high, box, y) {
      SameLevelIsInside(d, rank, high, box, x, y);
    }
  }

  // A step from inside that does not leave appends one entry at most, inside again.
  lemma StepStaysInside(d: Design, rank: map<Id, nat>, high: nat, box: Id, x: Id, r: Reply, ended: bool)
    requires WellFormed(d) && Structured(d, rank) && HighRank(rank, high) && x in d.comps && (ended ==> IsItem(d.comps[x].kind))
    requires Inside(d, rank, high, box, x) && !Leaves(d, box, x, ended)
    ensures var ids := Successors(d, x, r, ended); |ids| <= 1 && forall y :: y in ids ==> Inside(d, rank, high, box, y)
  {
    hide Structured, OwnList, GetStart, Targets, Inside, Successors, WellFormed;
    var ids, c := Successors(d, x, r, ended), d.comps[x];
    WhatFollows(d, x, r, ended);
    InsideParent(d, rank, high, box, x);
    if OwnList(c, ids) {
      OwnListIsInside(d, rank, high, box, x, ids);
    } else if IsContainer(c.kind) && ids == [GetStart(d, x)] {
      StartIsInside(d, rank, high, box, x);
    } else if ids == [GetStart(d, c.parent.value)] {
      StartIsInside(d, rank, high, box, c.parent.value);
    } else {
      OwnListIsInside(d, rank, high, box, c.parent.value, ids);
    }
  }

  lemma WhatFollows(d: Design, x: Id, r: Reply, ended: bool)
    requires WellFormed(d) && x in d.comps && (ended ==> IsItem(d.comps[x].kind))
    ensures var ids, c := Successors(d, x, r, ended), d.comps[x];
            || OwnList(c, ids)
            || (IsContainer(c.kind) && ids == [GetStart(d, x)])
            || (c.parent.Some? && c.parent.value in d.comps && IsContainer(d.comps[c.parent.value].kind)
                && (ids == [GetStart(d, c.parent.value)]
                    || (!IsContainer(c.kind) && Leaves(d, c.parent.value, x, ended) && OwnList(d.comps[c.parent.value], ids))))
  {
    assert WellFormedComponent(d, x);
    hide WellFormed, GetStart;
  }

  lemma InsideParent(d: Design, rank: map<Id, nat>, high: nat, box: Id, x: Id)
    requires WellFormed(d) && Structured(d, rank) && HighRank(rank, high) && x in d.comps && Inside(d, rank, high, box, x)
    ensures d.comps[x].parent.Some? && d.comps[x].parent.value in d.comps && IsContainer(d.comps[d.comps[x].parent.value].kind)
    ensures d.comps[x].parent.value == box || Inside(d, rank, high, box, d.comps[x].parent.value)
  {
    StructuredGives(d, rank, x);
  }

  // The run stands in `box`, at one entry.
  ghost predicate StandsInside(d: Design, rank: map<Id, nat>, high: nat, box: Id, s: State)
    requires WellFormed(d) && Structured(d, rank) && HighRank(rank, high)
  {
    && Pending(d, s) && s.status != Failed && s.error == "" && s.idx == s.mark == |s.path| - 1
    && Inside(d, rank, high, box, s.path[s.idx])
  }

  // The batch of this state leaves `box`.
  ghost predicate LeavesNow(d: Design, box: Id, env: Replies, s: State)
    requires WellFormed(d)
  {
    && AtOne(d, s) && env(s.idx).error == ""
    && Leaves(d, box, s.path[s.idx], EndsHere(d, s, env(s.idx)))
  }

  // No component reports an error or picks a route that is not there, and no entry waits for an input.
  ghost predicate Undisturbed(d: Design, env: Replies, s: State)
    requires Pending(d, s)
  {
    s.idx == |s.path| - 1 ==> env(s.idx).error == "" && Routed(d.comps[s.path[s.idx]], env(s.idx)) && Admitted(d, s.path, s.idx)
  }

  lemma OnlyOther(ids: seq<Id>, x: Id)
    requires |ids| <= 1 && LeadsOn(ids, x)
    ensures |ids| == 1 && ids[0] != x && ids == [ids[0]]
  {
  }

  lemma NextIsInside(d: Design, rank: map<Id, nat>, high: nat, box: Id, x: Id, r: Reply, ended: bool) returns (y: Id)
    requires WellFormed(d) && Structured(d, rank) && HighRank(rank, high) && BodyKeepsGoing(d, rank, high, box)
    requires x in d.comps && Inside(d, rank, high, box, x) && (ended ==> IsItem(d.comps[x].kind))
    requires Routed(d.comps[x], r) && !Leaves(d, box, x, ended)
    ensures y in d.comps && y != x && Successors(d, x, r, ended) == [y] && Inside(d, rank, high, box, y)
  {
    InsideParent(d, rank, high, box, x);
    assert KeepsGoing(d, box, x);
    hide Structured, Successors, WellFormed, KeepsGoing, LeadsOn, Leaves, Routed, Inside, BodyKeepsGoing;
    KeepsGoingMeans(d, box, x);
    assert GoesOn(d, box, x, r, ended);
    StepStaysInside(d, rank, high, box, x, r, ended);
    OnlyOther(Successors(d, x, r, ended), x);
    y := Successors(d, x, r, ended)[0];
  }

  // A batch of one entry with one successor.
  lemma BatchTo(d: Design, s: State, env: Replies, y: Id)
    requires WellFormed(d) && AtOne(d, s) && env(s.idx).error == "" && y != s.path[s.idx]
    requires Successors(d, s.path[s.idx], env(s.idx), EndsHere(d, s, env(s.idx))) == [y]
    ensures var b := Batch(d, s, env);
            && b.path == s.path + [y] && b.idx == b.mark == |s.path| && b.error == "" && b.status != Failed
  {
    hide Batch, ExtendPath, ItemEnds, Admitted, AwaitsInput, Stepped, WellFormed, Successors;
    OneStep(d, s, env);
    AppendNext(s.path, y);
  }

  lemma AtOneInside(d: Design, rank: map<Id, nat>, high: nat, box: Id, env: Replies, s: State)
    requires WellFormed(d) && Structured(d, rank) && HighRank(rank, high)
    requires StandsInside(d, rank, high, box, s) && CanStep(s) && Undisturbed(d, env, s)
    ensures AtOne(d, s) && env(s.idx).error == "" && s.path[s.idx] in d.comps
    ensures Routed(d.comps[s.path[s.idx]], env(s.idx)) && Inside(d, rank, high, box, s.path[s.idx])
  {
    hide Inside, WellFormed, Structured, HighRank, Routed, Admitted;
  }

  // A batch from inside that does not leave stands inside again.
  lemma BatchStaysInside(d: Design, rank: map<Id, nat>, high: nat, box: Id, s: State, env: Replies)
    requires WellFormed(d) && Structured(d, rank) && HighRank(rank, high) && BodyKeepsGoing(d, rank, high, box)
    requires StandsInside(d, rank, high, box, s) && CanStep(s) && Undisturbed(d, env, s) && !LeavesNow(d, box, env, s)
    ensures StandsInside(d, rank, high, box, Batch(d, s, env))
  {
    AtOneInside(d, rank, high, box, env, s);
    hide Batch, ItemEnds, Structured, HighRank, Stepped, Successors, WellFormed, Leaves, BodyKeepsGoing, Inside, Admitted, Routed;
    var y := NextIsInside(d, rank, high, box, s.path[s.idx], env(s.idx), EndsHere(d, s, env(s.idx)));
    BatchTo(d, s, env, y);
  }

  lemma {:induction false} RunStaysInside(d: Design, rank: map<Id, nat>, high: nat, box: Id, path: seq<Id>, counters: map<Id, int>,
                                          env: Replies, run: seq<State>, m: nat, k: nat)
    requires WellFormed(d) && Structured(d, rank) && HighRank(rank, high) && BodyKeepsGoing(d, rank, high, box)
    requires IsRun(d, path, counters, env, run) && m <= k < |run| && StandsInside(d, rank, high, box, run[m])
    requires forall j :: 0 <= j < |run| ==> Undisturbed(d, env, run[j])
    requires forall j :: m <= j < k ==> !LeavesNow(d, box, env, run[j])
    ensures StandsInside(d, rank, high, box, run[k])
    decreases k
  {
    hide WellFormed, Structured, HighRank, BodyKeepsGoing, StandsInside, Undisturbed, LeavesNow, Batch;
    if m < k {
      RunStaysInside(d, rank, high, box, path, counters, env, run, m, k - 1);
      assert NextAt(d, env, run, k - 1);
      BatchStaysInside(d, rank, high, box, run[k - 1], env);
    }
  }

  // Control is not lost in a body whose wiring keeps going: a run that was inside `box` and has come to its end,
  // without waiting for a user, has left `box` in some batch, and went on with the container's downstream.
  lemma ControlIsNotLost(d: Design, rank: map<Id, nat>, high: nat, box: Id, path: seq<Id>, counters: map<Id, int>,
                         env: Replies, run: seq<State>, m: nat) returns (k: nat)
    requires WellFormed(d) && Structured(d, rank) && HighRank(rank, high) && BodyKeepsGoing(d, rank, high, box)
    requires IsRun(d, path, counters, env, run) && m < |run| && StandsInside(d, rank, high, box, run[m])
    requires forall j :: 0 <= j < |run| ==> Undisturbed(d, env, run[j])
    requires !CanStep(run[|run| - 1]) && run[|run| - 1].status != Paused
    ensures m <= k < |run| - 1 && LeavesNow(d, box, env, run[k]) && box in d.comps
    ensures run[k + 1].path == ExtendPath(run[k].path, d.comps[box].downstream)
  {
    hide Structured, HighRank, BodyKeepsGoing, Undisturbed, LeavesNow, Batch, ExtendPath, Inside;
    if k' :| m <= k' < |run| && LeavesNow(d, box, env, run[k']) {
      k := k';
    } else {
      RunStaysInside(d, rank, high, box, path, counters, env, run, m, |run| - 1);
      assert false;
    }
    LeavingGoesTo(d, box, run[k], env);
    assert NextAt(d, env, run, k);
  }

  lemma LeavingGoesTo(d: Design, box: Id, s: State, env: Replies)
    requires WellFormed(d) && LeavesNow(d, box, env, s)
    ensures box in d.comps && Pending(d, s) && CanStep(s) && Batch(d, s, env).path == ExtendPath(s.path, d.comps[box].downstream)
  {
    var x := s.path[s.idx];
    LeavingFollows(d, box, x, env(s.idx), EndsHere(d, s, env(s.idx)));
    hide Batch, ExtendPath, ItemEnds, Admitted, AwaitsInput, Stepped, WellFormed, Successors, Leaves;
    OneStep(d, s, env);
  }

  lemma LeavingFollows(d: Design, box: Id, x: Id, r: Reply, ended: bool)
    requires WellFormed(d) && x in d.comps && (ended ==> IsItem(d.comps[x].kind)) && Leaves(d, box, x, ended)
    ensures box in d.comps && Successors(d, x, r, ended) == d.comps[box].downstream
  {
    assert WellFormedComponent(d, x);
  }
}
