/** Forks that stay apart: when no container can be reached from two entries of the same fork, no batch
    ever visits an item twice, whatever the replies. So a structured canvas of that wiring always stops. */
module ForkedCanvas {
  import opened Design
  import opened Scheduler
  import opened CanvasRuns
  import opened Termination
  import opened StructuredCanvas

  /* ---------- the condition on the wiring ---------- */

  // Each component names the next as a possible next step.
  ghost predicate TargetWalk(d: Design, w: seq<Id>)
  {
    w != [] && AllIn(w, d.comps) && forall k :: 0 <= k < |w| - 1 ==> w[k + 1] in Targets(d.comps[w[k]])
  }

  ghost predicate Reaches(d: Design, x: Id, box: Id)
  {
    exists w :: TargetWalk(d, w) && w[0] == x && w[|w| - 1] == box
  }

  // Some container can be reached from both.
  ghost predicate Meet(d: Design, x: Id, y: Id)
  {
    exists box :: box in d.comps && IsContainer(d.comps[box].kind) && Reaches(d, x, box) && Reaches(d, y, box)
  }

  ghost predicate Apart(d: Design, ids: seq<Id>)
  {
    forall i, j :: 0 <= i < j < |ids| ==> !Meet(d, ids[i], ids[j])
  }

  // No list of next steps outside the containers has two entries that can reach one container.
  ghost predicate ForksApart(d: Design)
  {
    forall x {:trigger d.comps[x]} :: x in d.comps && d.comps[x].parent.None? ==>
      var c := d.comps[x];
      Apart(d, c.downstream) && Apart(d, Goto(c)) && forall k :: 0 <= k < |c.routes| ==> Apart(d, c.routes[k])
  }

  lemma MeetFromBelow(d: Design, x: Id, y: Id, z: Id)
    requires x in d.comps && y in Targets(d.comps[x]) && Meet(d, y, z)
    ensures Meet(d, x, z)
  {
    var box :| box in d.comps && IsContainer(d.comps[box].kind) && Reaches(d, y, box) && Reaches(d, z, box);
    var w :| TargetWalk(d, w) && w[0] == y && w[|w| - 1] == box;
    var longer := [x] + w;
    forall k | 0 <= k < |longer| - 1 ensures longer[k + 1] in Targets(d.comps[longer[k]]) {
      if k > 0 {
        assert w[k] in Targets(d.comps[w[k - 1]]);
      }
    }
    assert TargetWalk(d, longer);
    assert Reaches(d, x, box);
  }

  lemma MeetIsSymmetric(d: Design, x: Id, y: Id)
    requires Meet(d, x, y)
    ensures Meet(d, y, x)
  {
    var box :| box in d.comps && IsContainer(d.comps[box].kind) && Reaches(d, x, box) && Reaches(d, y, box);
  }

  lemma ContainerMeetsItself(d: Design, box: Id)
    requires box in d.comps && IsContainer(d.comps[box].kind)
    ensures Meet(d, box, box)
  {
    assert TargetWalk(d, [box]);
    assert Reaches(d, box, box);
  }

  /* ---------- where an entry belongs ---------- */

  // The container around everything x lies in, or x itself.
  ghost function Outermost(d: Design, rank: map<Id, nat>, high: nat, x: Id): (r: Id)
    requires WellFormed(d) && Structured(d, rank) && HighRank(rank, high) && x in d.comps
    ensures r in d.comps && d.comps[r].parent.None?
    ensures d.comps[x].parent.None? ==> r == x
    ensures d.comps[x].parent.Some? ==> IsContainer(d.comps[r].kind)
    decreases high - rank[x]
  {
    assert StructuredAt(d, rank, x);
    if d.comps[x].parent.None? then x else Outermost(d, rank, high, d.comps[x].parent.value)
  }

  ghost predicate MeetAt(d: Design, rank: map<Id, nat>, high: nat, x: Id, y: Id)
    requires WellFormed(d) && Structured(d, rank) && HighRank(rank, high) && x in d.comps && y in d.comps
  {
    Meet(d, Outermost(d, rank, high, x), Outermost(d, rank, high, y))
  }

  // No two entries from `from` on can come to one container.
  ghost predicate Scattered(d: Design, rank: map<Id, nat>, high: nat, path: seq<Id>, from: nat)
    requires WellFormed(d) && Structured(d, rank) && HighRank(rank, high) && AllIn(path, d.comps)
  {
    forall i, j :: from <= i < j < |path| ==> !MeetAt(d, rank, high, path[i], path[j])
  }

  // `ids` can be appended to such a path.
  ghost predicate Fits(d: Design, rank: map<Id, nat>, high: nat, path: seq<Id>, from: nat, ids: seq<Id>)
    requires WellFormed(d) && Structured(d, rank) && HighRank(rank, high) && AllIn(path, d.comps) && AllIn(ids, d.comps)
  {
    && (forall i, j :: from <= i < |path| && 0 <= j < |ids| ==> !MeetAt(d, rank, high, path[i], ids[j]))
    && forall i, j :: 0 <= i < j < |ids| ==> !MeetAt(d, rank, high, ids[i], ids[j])
  }

  // `ids` stay in x's outermost container, or are next steps of it, and are apart.
  ghost predicate Spread(d: Design, rank: map<Id, nat>, high: nat, x: Id, ids: seq<Id>)
    requires WellFormed(d) && Structured(d, rank) && HighRank(rank, high) && x in d.comps && AllIn(ids, d.comps)
  {
    var box := Outermost(d, rank, high, x);
    && (forall y :: y in ids ==> Outermost(d, rank, high, y) == box
                                 || (Outermost(d, rank, high, y) == y && y in Targets(d.comps[box])))
    && forall i, j :: 0 <= i < j < |ids| ==> !MeetAt(d, rank, high, ids[i], ids[j])
  }

  // y lies in a container, and outermost in the same one as x.
  ghost predicate Beside(d: Design, rank: map<Id, nat>, high: nat, x: Id, y: Id)
    requires WellFormed(d) && Structured(d, rank) && HighRank(rank, high) && x in d.comps && y in d.comps
  {
    var parent := d.comps[y].parent;
    parent.Some? && parent.value in d.comps && Outermost(d, rank, high, parent.value) == Outermost(d, rank, high, x)
  }

  lemma StayingSpreads(d: Design, rank: map<Id, nat>, high: nat, x: Id, ids: seq<Id>)
    requires WellFormed(d) && Structured(d, rank) && HighRank(rank, high) && x in d.comps && AllIn(ids, d.comps)
    requires |ids| <= 1 && forall y :: y in ids ==> Beside(d, rank, high, x, y)
    ensures Spread(d, rank, high, x, ids)
  {
    hide WellFormed, Structured, Meet;
  }

  lemma ForkSpreads(d: Design, rank: map<Id, nat>, high: nat, x: Id, box: Id, ids: seq<Id>)
    requires WellFormed(d) && Structured(d, rank) && HighRank(rank, high) && x in d.comps && AllIn(ids, d.comps)
    requires box == Outermost(d, rank, high, x) && Apart(d, ids) && forall y :: y in ids ==> y in Targets(d.comps[box])
    ensures Spread(d, rank, high, x, ids)
  {
    hide WellFormed, Meet, Targets;
    assert StructuredAt(d, rank, box);
  }

  lemma ParentOf(d: Design, rank: map<Id, nat>, high: nat, x: Id)
    requires WellFormed(d) && Structured(d, rank) && HighRank(rank, high) && x in d.comps && d.comps[x].parent.Some?
    ensures d.comps[x].parent.value in d.comps
    ensures Outermost(d, rank, high, d.comps[x].parent.value) == Outermost(d, rank, high, x)
  {
    assert StructuredAt(d, rank, x);
  }

  // An entry appends one entry that belongs where it does, or a fork of its outermost component.
  lemma OwnListSpreads(d: Design, rank: map<Id, nat>, high: nat, x: Id, y: Id, ids: seq<Id>)
    requires WellFormed(d) && Structured(d, rank) && HighRank(rank, high) && ForksApart(d)
    requires x in d.comps && y in d.comps && Outermost(d, rank, high, x) == Outermost(d, rank, high, y)
    requires OwnList(d.comps[y], ids) && AllIn(ids, d.comps)
    ensures Spread(d, rank, high, x, ids)
  {
    hide WellFormed, Meet, Structured;
    var c := d.comps[y];
    StructuredGives(d, rank, y);
    OwnTargets(c, ids);
    if c.parent.Some? {
      ParentOf(d, rank, high, y);
      StayingSpreads(d, rank, high, x, ids);
    } else {
      ForkSpreads(d, rank, high, x, y, ids);
    }
  }

  lemma StartSpreads(d: Design, rank: map<Id, nat>, high: nat, x: Id, box: Id)
    requires WellFormed(d) && Structured(d, rank) && HighRank(rank, high) && x in d.comps
    requires box in d.comps && IsContainer(d.comps[box].kind) && Outermost(d, rank, high, x) == Outermost(d, rank, high, box)
    ensures Spread(d, rank, high, x, [GetStart(d, box)])
  {
    hide WellFormed, Meet, Structured;
    StayingSpreads(d, rank, high, x, [GetStart(d, box)]);
  }

  // Which list a step appends: one of its own, its container's when it leaves it, or a start item.
  lemma WhatIsAppended(d: Design, x: Id, r: Reply, ended: bool)
    requires WellFormed(d) && x in d.comps && (ended ==> IsItem(d.comps[x].kind))
    ensures var ids, c := Appended(d, x, r, ended), d.comps[x];
            || OwnList(c, ids)
            || (c.parent.Some? && c.parent.value in d.comps && OwnList(d.comps[c.parent.value], ids))
            || (IsContainer(c.kind) && ids == [GetStart(d, x)])
            || (c.parent.Some? && c.parent.value in d.comps && IsContainer(d.comps[c.parent.value].kind)
                && ids == [GetStart(d, c.parent.value)])
  {
    assert WellFormedComponent(d, x);
    hide WellFormed, GetStart;
  }

  lemma AppendedSpreads(d: Design, rank: map<Id, nat>, high: nat, x: Id, r: Reply, ended: bool)
    requires WellFormed(d) && Structured(d, rank) && HighRank(rank, high) && ForksApart(d)
    requires x in d.comps && (ended ==> IsItem(d.comps[x].kind))
    ensures Spread(d, rank, high, x, Appended(d, x, r, ended))
  {
    hide WellFormed, Structured, Appended, OwnList, Spread, ForksApart;
    var ids, c := Appended(d, x, r, ended), d.comps[x];
    WhatIsAppended(d, x, r, ended);
    if c.parent.Some? {
      ParentOf(d, rank, high, x);
    }
    if OwnList(c, ids) {
      OwnListSpreads(d, rank, high, x, x, ids);
    } else if IsContainer(c.kind) && ids == [GetStart(d, x)] {
      StartSpreads(d, rank, high, x, x);
    } else if OwnList(d.comps[c.parent.value], ids) {
      OwnListSpreads(d, rank, high, x, c.parent.value, ids);
    } else {
      StartSpreads(d, rank, high, x, c.parent.value);
    }
  }

  /* ---------- every step keeps the entries apart ---------- */

  lemma SpreadFits(d: Design, rank: map<Id, nat>, high: nat, path: seq<Id>, i: nat, ids: seq<Id>)
    requires WellFormed(d) && Structured(d, rank) && HighRank(rank, high) && AllIn(path, d.comps) && AllIn(ids, d.comps)
    requires i < |path| && Scattered(d, rank, high, path, i) && Spread(d, rank, high, path[i], ids)
    ensures Scattered(d, rank, high, path, i + 1) && Fits(d, rank, high, path, i + 1, ids)
  {
    hide WellFormed, Structured, Meet, Targets, Outermost;
    var box := Outermost(d, rank, high, path[i]);
    forall a, b | i + 1 <= a < |path| && 0 <= b < |ids| ensures !MeetAt(d, rank, high, path[a], ids[b]) {
      assert !MeetAt(d, rank, high, path[i], path[a]);
      if MeetAt(d, rank, high, path[a], ids[b]) {
        var other, out := Outermost(d, rank, high, path[a]), Outermost(d, rank, high, ids[b]);
        MeetIsSymmetric(d, other, out);
        if out != box {
          MeetFromBelow(d, box, ids[b], other);
        }
      }
    }
  }

  lemma AppendOneFits(d: Design, rank: map<Id, nat>, high: nat, path: seq<Id>, from: nat, ids: seq<Id>)
    requires WellFormed(d) && Structured(d, rank) && HighRank(rank, high) && AllIn(path, d.comps) && AllIn(ids, d.comps)
    requires ids != [] && path != [] && Scattered(d, rank, high, path, from) && Fits(d, rank, high, path, from, ids)
    ensures AllIn(ids[1..], d.comps) && AllIn(AppendPath(path, ids[0]), d.comps)
    ensures Scattered(d, rank, high, AppendPath(path, ids[0]), from)
    ensures Fits(d, rank, high, AppendPath(path, ids[0]), from, ids[1..])
  {
    hide WellFormed, Structured, MeetAt;
  }

  lemma {:induction false} ExtendScatters(d: Design, rank: map<Id, nat>, high: nat, path: seq<Id>, from: nat, ids: seq<Id>)
    requires WellFormed(d) && Structured(d, rank) && HighRank(rank, high) && AllIn(path, d.comps) && AllIn(ids, d.comps)
    requires path != [] && Scattered(d, rank, high, path, from) && Fits(d, rank, high, path, from, ids)
    ensures AllIn(ExtendPath(path, ids), d.comps) && Scattered(d, rank, high, ExtendPath(path, ids), from)
    decreases |ids|
  {
    hide WellFormed, Structured, Scattered, Fits, HighRank, AppendPath;
    if ids != [] {
      AppendOneFits(d, rank, high, path, from, ids);
      ExtendScatters(d, rank, high, AppendPath(path, ids[0]), from, ids[1..]);
    }
  }

  lemma GotoScatters(d: Design, rank: map<Id, nat>, high: nat, path: seq<Id>, from: nat, ids: seq<Id>)
    requires WellFormed(d) && Structured(d, rank) && HighRank(rank, high) && AllIn(path, d.comps) && AllIn(ids, d.comps)
    requires Scattered(d, rank, high, path, from) && Fits(d, rank, high, path, from, ids)
    ensures AllIn(path + ids, d.comps) && Scattered(d, rank, high, path + ids, from)
  {
    hide WellFormed, Structured, MeetAt;
  }

  lemma PostScatters(d: Design, rank: map<Id, nat>, high: nat, s: State, i: nat, r: Reply)
    requires WellFormed(d) && Structured(d, rank) && HighRank(rank, high) && ForksApart(d)
    requires i < |s.path| && AllIn(s.path, d.comps) && Scattered(d, rank, high, s.path, i)
    ensures Scattered(d, rank, high, Post(d, s, i, r).path, i + 1)
  {
    hide WellFormed, Structured, HighRank, ForksApart, Post, Scattered, Spread, Fits, Appended, ExtendPath, Diverted;
    var id := s.path[i];
    PostEffect(d, s, i, r);
    EndsOnlyForItems(d, s, id, r);
    var ids := Appended(d, id, r, Ends(d, s, id, r));
    AppendedSpreads(d, rank, high, id, r, Ends(d, s, id, r));
    SpreadFits(d, rank, high, s.path, i, ids);
    if Diverted(d.comps[id], r) {
      GotoScatters(d, rank, high, s.path, i + 1, ids);
    } else {
      ExtendScatters(d, rank, high, s.path, i + 1, ids);
    }
  }

  lemma {:induction false} PostAllScatters(d: Design, rank: map<Id, nat>, high: nat, s: State, i: nat, t: nat, env: Replies)
    requires WellFormed(d) && Structured(d, rank) && HighRank(rank, high) && ForksApart(d)
    requires i <= t <= |s.path| && AllIn(s.path, d.comps) && Scattered(d, rank, high, s.path, i)
    ensures Scattered(d, rank, high, PostAll(d, s, i, t, env).path, t)
    decreases t - i
  {
    hide WellFormed, Structured, HighRank, ForksApart, Post, Scattered;
    if i < t {
      PostScatters(d, rank, high, s, i, env(i));
      PostAllScatters(d, rank, high, Post(d, s, i, env(i)), i + 1, t, env);
    }
  }

  lemma RemovalScatters(d: Design, rank: map<Id, nat>, high: nat, path: seq<Id>, from: nat, i: nat)
    requires WellFormed(d) && Structured(d, rank) && HighRank(rank, high) && AllIn(path, d.comps)
    requires i < |path| && Scattered(d, rank, high, path, from)
    ensures AllIn(path[..i] + path[i + 1..], d.comps) && Scattered(d, rank, high, path[..i] + path[i + 1..], from)
  {
    hide WellFormed, Structured, MeetAt;
    var q := path[..i] + path[i + 1..];
    forall a, b | from <= a < b < |q| ensures !MeetAt(d, rank, high, q[a], q[b]) {
      var a', b' := if a < i then a else a + 1, if b < i then b else b + 1;
      assert q[a] == path[a'] && q[b] == path[b'];
    }
  }

  lemma {:induction false} PruneScatters(d: Design, rank: map<Id, nat>, high: nat, path: seq<Id>, from: nat, i: nat)
    requires WellFormed(d) && Structured(d, rank) && HighRank(rank, high) && AllIn(path, d.comps)
    requires i <= |path| && Scattered(d, rank, high, path, from)
    ensures Scattered(d, rank, high, Prune(d, path, i, |path|), from)
    decreases |path| - i
  {
    hide WellFormed, Structured, HighRank, Scattered, Admitted;
    if i < |path| {
      if Admitted(d, path, i) {
        PruneScatters(d, rank, high, path, from, i + 1);
      } else {
        RemovalScatters(d, rank, high, path, from, i);
        PruneScatters(d, rank, high, path[..i] + path[i + 1..], from, i);
      }
    }
  }

  // Entries that are apart hold no item twice.
  lemma ScatteredIsOrderly(d: Design, rank: map<Id, nat>, high: nat, path: seq<Id>, from: nat)
    requires WellFormed(d) && Structured(d, rank) && HighRank(rank, high) && AllIn(path, d.comps)
    requires from <= |path| && Scattered(d, rank, high, path, from)
    ensures ItemsOnce(d, path, from, |path|)
  {
    hide WellFormed, Meet, Outermost;
    forall j, k | from <= j < k < |path| && path[j] == path[k] ensures !IsItem(d.comps[path[j]].kind) {
      assert !MeetAt(d, rank, high, path[j], path[k]);
      if IsItem(d.comps[path[j]].kind) {
        assert StructuredAt(d, rank, path[j]);
        ContainerMeetsItself(d, Outermost(d, rank, high, path[j]));
      }
    }
  }

  lemma BatchScatters(d: Design, rank: map<Id, nat>, high: nat, start: nat, s: State, env: Replies)
    requires WellFormed(d) && Structured(d, rank) && HighRank(rank, high) && ForksApart(d)
    requires Between(d, start, s) && CanStep(s) && Scattered(d, rank, high, s.path, s.mark)
    ensures OrderlyBatch(d, s)
    ensures var b := Batch(d, s, env); b.mark <= |b.path| && AllIn(b.path, d.comps) && Scattered(d, rank, high, b.path, b.mark)
  {
    hide WellFormed, Structured, HighRank, ForksApart, Batch, Post, Scattered, Prune, Invoke, ItemsOnce;
    var g := Gathered(d, s, env);
    BatchSettles(d, s, env);
    PruneScatters(d, rank, high, s.path, s.idx, s.idx);
    ScatteredIsOrderly(d, rank, high, g.path, s.idx);
    PostAllScatters(d, rank, high, g, g.idx, g.mark, env);
  }

  /* ---------- every run ---------- */

  lemma {:induction false} RunScatters(d: Design, rank: map<Id, nat>, high: nat, path: seq<Id>, counters: map<Id, int>,
                                       env: Replies, run: seq<State>, k: nat)
    requires WellFormed(d) && Structured(d, rank) && HighRank(rank, high) && ForksApart(d)
    requires IsRun(d, path, counters, env, run) && k < |run|
    ensures run[k].mark <= |run[k].path| && AllIn(run[k].path, d.comps) && Scattered(d, rank, high, run[k].path, run[k].mark)
    decreases k
  {
    hide WellFormed, Structured, HighRank, ForksApart, Batch, IsRun, MeetAt;
    RunStates(d, path, counters, env, run, k);
    if k == 0 {
      StartIsTheMark(d, path, counters, env, run);
    } else {
      hide Scattered;
      RunStates(d, path, counters, env, run, k - 1);
      RunScatters(d, rank, high, path, counters, env, run, k - 1);
      BatchScatters(d, rank, high, run[0].idx, run[k - 1], env);
    }
  }

  lemma ForksAreOrderly(d: Design, rank: map<Id, nat>, path: seq<Id>, counters: map<Id, int>, env: Replies, run: seq<State>)
    requires WellFormed(d) && Structured(d, rank) && ForksApart(d) && IsRun(d, path, counters, env, run)
    ensures OrderlyRun(d, run)
  {
    hide WellFormed, Structured, HighRank, ForksApart, Batch, IsRun, Scattered, OrderlyBatch;
    var high := Highest(rank);
    forall k | 0 <= k < |run| - 1 ensures Pending(d, run[k]) && OrderlyBatch(d, run[k]) {
      RunStates(d, path, counters, env, run, k);
      RunScatters(d, rank, high, path, counters, env, run, k);
      BatchScatters(d, rank, high, run[0].idx, run[k], env);
    }
  }

  // One bound, fixed before the replies are known, ends every run, forks and nested loops included.
  lemma ForkedRunsStop(d: Design, rank: map<Id, nat>, cap: nat, path: seq<Id>, counters: map<Id, int>) returns (bound: nat)
    requires WellFormed(d) && Structured(d, rank) && ForksApart(d) && AllIn(StartPath(path), d.comps) && InRange(d, cap, counters)
    ensures forall env, run {:trigger IsRun(d, path, counters, env, run)} ::
              IsRun(d, path, counters, env, run) && Bounded(env, cap) ==> |run| <= bound
  {
    hide Structured, IsRun, OrderlyRun, InRange, ForksApart, WellFormed;
    bound := StructuredRunsStop(d, rank, cap, path, counters);
    forall env, run | IsRun(d, path, counters, env, run) && Bounded(env, cap) ensures |run| <= bound {
      ForksAreOrderly(d, rank, path, counters, env, run);
    }
  }

  // Where no step forks, the condition holds, whatever joins there are.
  lemma SequentialIsApart(d: Design)
    requires WellFormed(d) && Sequential(d)
    ensures ForksApart(d)
  {
    hide WellFormed, Meet;
  }
}
