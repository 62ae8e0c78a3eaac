/** Loops and iterations on the canvas: when the body is a chain, the scheduler visits the item and the
    whole body in turn, exactly as often as the item's counter and the termination conditions allow. */
module LoopRuns {
  import opened Options
  import opened Design
  import opened Scheduler
  import opened CanvasAccounts
  import opened CanvasRuns
  import opened Termination
  import L = LoopItems

  /* ---------- one batch with a single entry ---------- */

  // The counters once the entry at s.idx has been invoked.
  function Stepped(d: Design, s: State, r: Reply): map<Id, int>
    requires WellFormed(d) && s.idx < |s.path| && s.path[s.idx] in d.comps
  {
    var x := s.path[s.idx];
    if IsItem(d.comps[x].kind) then s.counters[x := InvokedCounter(d, s.counters, x, r)] else s.counters
  }

  // One entry is pending, it may run, and nothing has failed.
  ghost predicate AtOne(d: Design, s: State)
  {
    Pending(d, s) && CanStep(s) && s.idx == s.mark == |s.path| - 1 && s.error == "" && Admitted(d, s.path, s.idx)
  }

  lemma GatherOne(d: Design, s: State, env: Replies)
    requires WellFormed(d) && AtOne(d, s)
    ensures var g := Gathered(d, s, env);
            g.path == s.path && g.mark == |s.path| && g.counters == Stepped(d, s, env(s.idx))
            && g.error == "" && g.idx == s.idx && g.status == s.status
  {
    hide InvokedCounter, Admitted;
    assert Prune(d, s.path, s.idx + 1, |s.path|) == s.path;
    var next := Stepped(d, s, env(s.idx));
    assert Invoke(d, s.path, s.idx + 1, |s.path|, next, env) == next;
  }

  // A batch of one entry that reports no error.
  lemma OneStep(d: Design, s: State, env: Replies)
    requires WellFormed(d) && AtOne(d, s) && env(s.idx).error == ""
    ensures var x, r := s.path[s.idx], env(s.idx);
            var c := Stepped(d, s, r);
            var ended := IsItem(d.comps[x].kind) && ItemEnds(d.comps[x], Counter(c, x), r);
            var b := Batch(d, s, env);
            && b.path == ExtendPath(s.path, Successors(d, x, r, ended))
            && b.counters == (if ended then c[x := -1] else c)
            && b.idx == b.mark == |s.path| && b.error == ""
            && b.status == if AwaitsInput(d, b.path[|s.path|..]) then Paused else s.status
  {
    hide Batch, Gathered, Post, Successors, ExtendPath, InvokedCounter, Admitted, ItemEnds, AwaitsInput, Stepped;
    var g := Gathered(d, s, env);
    var r := env(s.idx);
    GatherOne(d, s, env);
    BatchSettles(d, s, env);
    PostOne(d, g, env);
    PostEffect(d, g, s.idx, r);
    PostTakesError(d, g, s.idx, r);
  }

  lemma PostOne(d: Design, g: State, env: Replies)
    requires WellFormed(d) && g.idx + 1 == g.mark == |g.path| && AllIn(g.path, d.comps)
    ensures PostAll(d, g, g.idx, g.mark, env) == Post(d, g, g.idx, env(g.idx))
  {
    hide Post;
  }

  /* ---------- the ring of a loop ---------- */

  // A component that just passes control on.
  predicate PassesOn(k: Kind)
  {
    k == Message || k == Other
  }

  predicate LinkAt(d: Design, box: Id, item: Id, body: seq<Id>, j: nat)
    requires AllIn(body, d.comps) && j < |body|
  {
    var c := d.comps[body[j]];
    && PassesOn(c.kind) && c.parent == Some(box)
    && if j + 1 < |body| then c.downstream == [body[j + 1]] else c.downstream == [] || c.downstream == [item]
  }

  // `box` is a loop or an iteration whose item leads into the chain `body`; the last of the chain names no
  // next step, or the item.
  ghost predicate ChainLoop(d: Design, box: Id, item: Id, body: seq<Id>)
    requires WellFormed(d)
  {
    && box in d.comps && IsContainer(d.comps[box].kind) && item == GetStart(d, box)
    && body != [] && AllIn(body, d.comps) && d.comps[item].downstream == [body[0]]
    && forall j :: 0 <= j < |body| ==> LinkAt(d, box, item, body, j)
  }

  // What the item counts up to: the loop's maximum, or the length of the list it reads.
  predicate CountsTo(d: Design, box: Id, limit: int, r: Reply)
  {
    box in d.comps && if d.comps[box].kind == Loop then limit == d.comps[box].maxLoop else r.items.Some? && r.items.value == limit
  }

  // The counter after a visit; an iteration over nothing that has ended stays so.
  function Visited(d: Design, box: Id, counter: int, limit: int): int
  {
    if box in d.comps && d.comps[box].kind == Iteration && counter == -1 && limit == 0 then -1 else StepCounter(counter, limit)
  }

  function Downstream(d: Design, box: Id): seq<Id>
  {
    if box in d.comps then d.comps[box].downstream else []
  }

  // Whether a visit is the last, once it has stepped the counter.
  predicate Over(d: Design, box: Id, counter: int, r: Reply)
  {
    counter == -1 || (box in d.comps && d.comps[box].kind == Loop && r.ends)
  }

  // An id does not follow itself: the chain would have no end.
  lemma {:induction false} NoRepeat(d: Design, box: Id, item: Id, body: seq<Id>, j: nat)
    requires WellFormed(d) && ChainLoop(d, box, item, body) && j + 1 < |body|
    ensures body[j] != body[j + 1]
    decreases |body| - j
  {
    hide WellFormed;
    assert LinkAt(d, box, item, body, j) && LinkAt(d, box, item, body, j + 1);
    if j + 2 < |body| {
      NoRepeat(d, box, item, body, j + 1);
    }
  }

  // The item leads into the chain.
  lemma ItemLeads(d: Design, box: Id, item: Id, body: seq<Id>, limit: int, r: Reply)
    requires WellFormed(d) && ChainLoop(d, box, item, body) && CountsTo(d, box, limit, r)
    ensures item in d.comps && IsItem(d.comps[item].kind) && body[0] in d.comps && !IsFillUp(d, body[0]) && item != body[0]
    ensures Successors(d, item, r, false) == [body[0]] && Successors(d, item, r, true) == Downstream(d, box)
    ensures forall c :: ItemEnds(d.comps[item], c, r) <==> Over(d, box, c, r)
    ensures forall counters :: InvokedCounter(d, counters, item, r) == Visited(d, box, Counter(counters, item), limit)
  {
    assert LinkAt(d, box, item, body, 0);
    assert WellFormedComponent(d, item);
  }

  // A place of the chain leads to the next one, and the last back to the item.
  lemma ChainLeads(d: Design, box: Id, item: Id, body: seq<Id>, j: nat, r: Reply)
    requires WellFormed(d) && ChainLoop(d, box, item, body) && j < |body|
    ensures var next := if j + 1 < |body| then body[j + 1] else item;
            && body[j] in d.comps && !IsItem(d.comps[body[j]].kind)
            && next in d.comps && !IsFillUp(d, next) && body[j] != next && Successors(d, body[j], r, false) == [next]
  {
    assert LinkAt(d, box, item, body, j);
    assert WellFormedComponent(d, body[j]);
    if j + 1 < |body| {
      assert LinkAt(d, box, item, body, j + 1);
      NoRepeat(d, box, item, body, j);
    }
  }

  // The item and the chain after it.
  function Ring(item: Id, body: seq<Id>): (r: seq<Id>)
    ensures |r| == |body| + 1 && r[0] == item && forall j :: 0 <= j < |body| ==> r[j + 1] == body[j]
  {
    [item] + body
  }

  // Every entry of the ring finds its inputs before the loop or earlier in the ring.
  ghost predicate Supplied(d: Design, ring: seq<Id>, before: seq<Id>)
  {
    AllIn(ring, d.comps)
    && forall j, ref :: 0 <= j < |ring| && ref in d.comps[ring[j]].refs ==> ref == "" || ref in before || ref in ring[..j]
  }

  // The run stands at place j of the ring, with the places before it just executed.
  ghost predicate AtPlace(d: Design, ring: seq<Id>, before: seq<Id>, s: State, j: nat)
    requires j < |ring|
  {
    && Pending(d, s) && s.status == Running && s.error == "" && s.idx == s.mark == |s.path| - 1
    && |before| + j <= s.idx && before <= s.path && s.path[s.idx - j..] == ring[..j + 1]
  }

  lemma PlaceIsAdmitted(d: Design, ring: seq<Id>, before: seq<Id>, s: State, j: nat)
    requires j < |ring| && Supplied(d, ring, before) && AtPlace(d, ring, before, s, j)
    ensures s.path[s.idx] == ring[j] && AtOne(d, s)
  {
    hide MentionsFillUp;
    var tail := s.path[s.idx - j..];
    assert tail[j] == ring[..j + 1][j];
    forall ref | ref in d.comps[ring[j]].refs && ref != "" ensures ref in s.path[..s.idx] {
      if ref in before {
        var k :| 0 <= k < |before| && before[k] == ref;
        assert s.path[..s.idx][k] == ref;
      } else {
        var k :| 0 <= k < j && ring[..j][k] == ref;
        assert tail[k] == ring[..j + 1][k] == ref;
        assert s.path[..s.idx][s.idx - j + k] == ref;
      }
    }
  }

  lemma AppendNext(path: seq<Id>, next: Id)
    requires path != [] && path[|path| - 1] != next
    ensures ExtendPath(path, [next]) == path + [next]
  {
    assert [next][1..] == [];
  }

  lemma NoFillUpAhead(d: Design, id: Id)
    requires id in d.comps && !IsFillUp(d, id)
    ensures AllIn([id], d.comps) && !AwaitsInput(d, [id])
  {
  }

  lemma PlaceMoves(d: Design, ring: seq<Id>, before: seq<Id>, s: State, b: State, j: nat, next: nat)
    requires j < |ring| && AllIn(ring, d.comps) && AtPlace(d, ring, before, s, j)
    requires next == (if j == |ring| - 1 then 0 else j + 1) && b.path == s.path + [ring[next]]
    requires b.idx == b.mark == |s.path| && b.error == "" && b.status == Running
    ensures AtPlace(d, ring, before, b, next)
  {
    assert AllIn(b.path, d.comps);
    if next == 0 {
      assert b.path[b.idx..] == ring[..1];
    } else {
      assert b.path[b.idx - next..] == s.path[s.idx - j..] + [ring[next]] == ring[..next + 1];
    }
  }

  lemma PlaceCanStep(d: Design, ring: seq<Id>, before: seq<Id>, s: State, j: nat)
    requires j < |ring| && AtPlace(d, ring, before, s, j)
    ensures Pending(d, s) && CanStep(s) && s.idx == |s.path| - 1
  {
  }

  // A batch at a place that leads on to `next`.
  lemma StepOn(d: Design, ring: seq<Id>, before: seq<Id>, s: State, env: Replies, j: nat, next: nat)
    requires WellFormed(d) && j < |ring| && Supplied(d, ring, before) && AtPlace(d, ring, before, s, j) && env(s.idx).error == ""
    requires next == (if j == |ring| - 1 then 0 else j + 1) && ring[j] in d.comps && ring[next] in d.comps
    requires ring[j] != ring[next] && !IsFillUp(d, ring[next])
    requires IsItem(d.comps[ring[j]].kind) ==>
      !ItemEnds(d.comps[ring[j]], InvokedCounter(d, s.counters, ring[j], env(s.idx)), env(s.idx))
    requires Successors(d, ring[j], env(s.idx), false) == [ring[next]]
    ensures var b := Batch(d, s, env);
            && b.path == s.path + [ring[next]] && b.idx == s.idx + 1 && AtPlace(d, ring, before, b, next)
            && b.counters == if IsItem(d.comps[ring[j]].kind)
                             then s.counters[ring[j] := InvokedCounter(d, s.counters, ring[j], env(s.idx))] else s.counters
  {
    hide Batch, Successors, InvokedCounter, ItemEnds, Admitted, ExtendPath, AwaitsInput, WellFormed, IsFillUp;
    PlaceIsAdmitted(d, ring, before, s, j);
    OneStep(d, s, env);
    AppendNext(s.path, ring[next]);
    NoFillUpAhead(d, ring[next]);
    var b := Batch(d, s, env);
    assert b.path[|s.path|..] == [ring[next]];
    PlaceMoves(d, ring, before, s, b, j, next);
  }

  /* ---------- a lap, and the whole loop ---------- */

  // From place j of the chain through the rest of it and back to the item.
  lemma {:induction false} Lap(d: Design, box: Id, item: Id, body: seq<Id>, before: seq<Id>, s: State, env: Replies, j: nat)
    requires WellFormed(d) && ChainLoop(d, box, item, body) && j < |body| && forall i: nat :: env(i).error == ""
    requires Supplied(d, Ring(item, body), before) && AtPlace(d, Ring(item, body), before, s, j + 1)
    ensures var e := Run(d, s, env, |body| - j);
            e.path == s.path + body[j + 1..] + [item] && e.counters == s.counters && AtPlace(d, Ring(item, body), before, e, 0)
    decreases |body| - j
  {
    hide Batch, Supplied, InvokedCounter, ChainLoop, AtPlace, WellFormed, Successors, ItemEnds, IsFillUp, Ring;
    var ring := Ring(item, body);
    ChainLeads(d, box, item, body, j, env(s.idx));
    PlaceCanStep(d, ring, before, s, j + 1);
    var b := Batch(d, s, env);
    if j + 1 == |body| {
      StepOn(d, ring, before, s, env, j + 1, 0);
      assert Run(d, b, env, 0) == b;
      assert body[j + 1..] == [];
    } else {
      StepOn(d, ring, before, s, env, j + 1, j + 2);
      Lap(d, box, item, body, before, b, env, j + 1);
      assert body[j + 1..] == [body[j + 1]] + body[j + 2..];
    }
    RunOnce(d, s, env, |body| - j - 1);
  }

  lemma RunOnce(d: Design, s: State, env: Replies, n: nat)
    requires WellFormed(d) && Pending(d, s) && CanStep(s)
    ensures Run(d, s, env, n + 1) == Run(d, Batch(d, s, env), env, n)
    ensures Run(d, Batch(d, s, env), env, 0) == Batch(d, s, env)
  {
    hide Batch, WellFormed;
  }

  // What n passes add to the path of a run that stands at the item.
  function Laps(body: seq<Id>, item: Id, n: nat): (r: seq<Id>)
    ensures |r| == n * (|body| + 1)
  {
    if n == 0 then [] else body + [item] + Laps(body, item, n - 1)
  }

  // A visit that ends the loop.
  lemma LoopLeaves(d: Design, box: Id, item: Id, body: seq<Id>, limit: int, before: seq<Id>, s: State, env: Replies)
    requires WellFormed(d) && ChainLoop(d, box, item, body) && env(s.idx).error == "" && CountsTo(d, box, limit, env(s.idx))
    requires Supplied(d, Ring(item, body), before) && AtPlace(d, Ring(item, body), before, s, 0)
    requires Over(d, box, Visited(d, box, Counter(s.counters, item), limit), env(s.idx))
    ensures CanStep(s)
    ensures var b := Batch(d, s, env);
            && b.path == ExtendPath(s.path, Downstream(d, box)) && b.mark == |s.path|
            && Counter(b.counters, item) == -1
            && forall x :: x != item ==> Counter(b.counters, x) == Counter(s.counters, x)
  {
    hide Batch, Supplied, ChainLoop, ExtendPath, Successors, Admitted, InvokedCounter, ItemEnds, WellFormed, Downstream;
    hide AwaitsInput, Visited, Over, CountsTo;
    ItemLeads(d, box, item, body, limit, env(s.idx));
    PlaceIsAdmitted(d, Ring(item, body), before, s, 0);
    OneStep(d, s, env);
  }

  // A visit that goes on, with the lap that follows it.
  lemma LoopGoesOn(d: Design, box: Id, item: Id, body: seq<Id>, limit: int, before: seq<Id>, s: State, env: Replies)
    requires WellFormed(d) && ChainLoop(d, box, item, body) && (forall i: nat :: env(i).error == "") && CountsTo(d, box, limit, env(s.idx))
    requires Supplied(d, Ring(item, body), before) && AtPlace(d, Ring(item, body), before, s, 0)
    requires !Over(d, box, Visited(d, box, Counter(s.counters, item), limit), env(s.idx))
    ensures var back := Run(d, s, env, |body| + 1);
            && back.path == s.path + body + [item] && back.idx == s.idx + |body| + 1
            && back.counters == s.counters[item := Visited(d, box, Counter(s.counters, item), limit)]
            && AtPlace(d, Ring(item, body), before, back, 0)
  {
    hide Batch, Supplied, ChainLoop, AtPlace, InvokedCounter, ItemEnds, WellFormed, Successors, IsFillUp;
    hide Visited, Over, Ring, CountsTo;
    var ring := Ring(item, body);
    ItemLeads(d, box, item, body, limit, env(s.idx));
    ChainIsNotEmpty(d, box, item, body);
    PlaceCanStep(d, ring, before, s, 0);
    StepOn(d, ring, before, s, env, 0, 1);
    var b := Batch(d, s, env);
    Lap(d, box, item, body, before, b, env, 0);
    RunOnce(d, s, env, |body|);
    var back := Run(d, b, env, |body|);
    assert s.path + [body[0]] + body[1..] == s.path + body by {
      assert [body[0]] + body[1..] == body;
    }
    PlaceCanStep(d, ring, before, back, 0);
  }

  lemma ChainIsNotEmpty(d: Design, box: Id, item: Id, body: seq<Id>)
    requires WellFormed(d) && ChainLoop(d, box, item, body)
    ensures body != []
  {
  }

  // The replies a whole loop or iteration gets.
  ghost predicate Steady(d: Design, box: Id, limit: int, env: Replies)
  {
    forall i: nat :: env(i).error == "" && CountsTo(d, box, limit, env(i))
  }

  // The passes from visit k on, when the counter stands at c; visit v is at position first + v * lap.
  function Turns(d: Design, box: Id, limit: int, c: int, env: Replies, first: nat, lap: nat, k: nat): nat
    requires c >= -1
    decreases L.Allowance(c, limit)
  {
    var next := Visited(d, box, c, limit);
    if Over(d, box, next, env(first + k * lap)) then 0 else 1 + Turns(d, box, limit, next, env, first, lap, k + 1)
  }

  lemma TurnsOnce(d: Design, box: Id, limit: int, c: int, env: Replies, first: nat, lap: nat, k: nat)
    requires c >= -1
    ensures var next := Visited(d, box, c, limit);
            && next >= -1
            && Turns(d, box, limit, c, env, first, lap, k)
               == (if Over(d, box, next, env(first + k * lap)) then 0 else 1 + Turns(d, box, limit, next, env, first, lap, k + 1))
            && (!Over(d, box, next, env(first + k * lap)) ==> next == c + 1 && L.Allowance(next, limit) < L.Allowance(c, limit))
  {
  }

  // From state s at the item, state e is reached after n passes of the body and one more visit of the
  // item: the body is on the path n times, and then what comes after the container.
  ghost predicate LeftAfter(d: Design, box: Id, item: Id, body: seq<Id>, s: State, e: State, n: nat)
  {
    && s.path != [] && e.path == ExtendPath(s.path + Laps(body, item, n), Downstream(d, box))
    && e.mark == |s.path| + n * (|body| + 1)
    && Counter(e.counters, item) == -1
    && forall x :: x != item ==> Counter(e.counters, x) == Counter(s.counters, x)
  }

  /**
   * From the item on, the run goes through the whole chain as often as the counter and the conditions
   * allow, and then leaves by the container's downstream with the counter at -1. One theorem for loops and
   * iterations.
   */
  lemma {:induction false} RunsItsTurns(d: Design, box: Id, item: Id, body: seq<Id>, limit: int, before: seq<Id>, s: State,
                                        env: Replies, first: nat, k: nat)
    requires WellFormed(d) && ChainLoop(d, box, item, body) && Steady(d, box, limit, env)
    requires Supplied(d, Ring(item, body), before) && AtPlace(d, Ring(item, body), before, s, 0)
    requires Counter(s.counters, item) >= -1 && s.idx == first + k * (|body| + 1)
    ensures var lap := |body| + 1;
            var n := Turns(d, box, limit, Counter(s.counters, item), env, first, lap, k);
            LeftAfter(d, box, item, body, s, Run(d, s, env, n * lap + 1), n)
    decreases L.Allowance(Counter(s.counters, item), limit)
  {
    hide Batch, Supplied, ChainLoop, AtPlace, ExtendPath, WellFormed, Ring, Downstream;
    hide Run, Laps, Turns, Visited, CountsTo, Counter;
    var lap, c := |body| + 1, Counter(s.counters, item);
    var next := Visited(d, box, c, limit);
    TurnsOnce(d, box, limit, c, env, first, lap, k);
    PlaceCanStep(d, Ring(item, body), before, s, 0);
    if Over(d, box, next, env(s.idx)) {
      LoopLeaves(d, box, item, body, limit, before, s, env);
      RunOnce(d, s, env, 0);
      NoLap(s.path, body, item);
    } else {
      LoopGoesOn(d, box, item, body, limit, before, s, env);
      var back := Run(d, s, env, lap);
      OneCounter(s.counters, item, next);
      NextVisit(first, k, lap);
      RunsItsTurns(d, box, item, body, limit, before, back, env, first, k + 1);
      var m := Turns(d, box, limit, next, env, first, lap, k + 1);
      RunSplits(d, s, env, lap, m * lap + 1);
      OneMoreLap(s.path, body, item, m);
    }
  }

  lemma OneCounter(counters: map<Id, int>, item: Id, v: int)
    ensures Counter(counters[item := v], item) == v
    ensures forall x :: x != item ==> Counter(counters[item := v], x) == Counter(counters, x)
  {
  }

  lemma NextVisit(first: nat, k: nat, lap: nat)
    ensures first + k * lap + lap == first + (k + 1) * lap
  {
  }

  lemma NoLap(path: seq<Id>, body: seq<Id>, item: Id)
    ensures path + Laps(body, item, 0) == path
  {
  }

  lemma OneMoreLap(path: seq<Id>, body: seq<Id>, item: Id, n: nat)
    ensures path + Laps(body, item, n + 1) == path + body + [item] + Laps(body, item, n)
    ensures (n + 1) * (|body| + 1) == |body| + 1 + n * (|body| + 1)
  {
    assert body + [item] + Laps(body, item, n) == body + ([item] + Laps(body, item, n));
  }

  /* ---------- a loop ---------- */

  // The verdict at visit v of an item whose first visit is at position `first`, in laps of length `lap`.
  function Ends(env: Replies, first: nat, lap: nat): L.Verdicts
  {
    (v: nat) => [env(first + v * lap).ends]
  }

  lemma OneVerdict(ends: bool)
    ensures L.ShouldEnd([ends], L.And) <==> ends
  {
    assert false in [false] && false !in [true];
  }

  // The turns of a loop are the passes its item gives by itself.
  lemma {:induction false} LoopTurns(d: Design, box: Id, limit: int, c: int, env: Replies, first: nat, lap: nat, k: nat)
    requires c >= -1 && box in d.comps && d.comps[box].kind == Loop
    ensures Turns(d, box, limit, c, env, first, lap, k) == L.Passes(c, limit, Ends(env, first, lap), L.And, k)
    decreases L.Allowance(c, limit)
  {
    OneVerdict(env(first + k * lap).ends);
    if !Over(d, box, StepCounter(c, limit), env(first + k * lap)) {
      LoopTurns(d, box, limit, StepCounter(c, limit), env, first, lap, k + 1);
    }
  }

  lemma LoopIsSteady(d: Design, box: Id, env: Replies)
    requires box in d.comps && d.comps[box].kind == Loop && forall i: nat :: env(i).error == ""
    ensures Steady(d, box, d.comps[box].maxLoop, env)
  {
  }

  lemma LoopRunsItsPasses(d: Design, box: Id, item: Id, body: seq<Id>, before: seq<Id>, s: State, env: Replies)
    requires WellFormed(d) && ChainLoop(d, box, item, body) && d.comps[box].kind == Loop && forall i: nat :: env(i).error == ""
    requires Supplied(d, Ring(item, body), before) && AtPlace(d, Ring(item, body), before, s, 0)
    requires Counter(s.counters, item) >= -1
    ensures var lap := |body| + 1;
            var n := L.Passes(Counter(s.counters, item), d.comps[box].maxLoop, Ends(env, s.idx, lap), L.And, 0);
            LeftAfter(d, box, item, body, s, Run(d, s, env, n * lap + 1), n)
  {
    hide Supplied, AtPlace, WellFormed, Ring, Run, Turns, L.Passes, Counter, LeftAfter, Ends, CountsTo, Steady, LinkAt;
    var limit := d.comps[box].maxLoop;
    LoopIsSteady(d, box, env);
    hide ChainLoop;
    LoopTurns(d, box, limit, Counter(s.counters, item), env, s.idx, |body| + 1, 0);
    RunsItsTurns(d, box, item, body, limit, before, s, env, s.idx, 0);
  }

  /* ---------- an iteration ---------- */

  // The turns of an iteration are the elements its counter has not shown yet.
  lemma {:induction false} IterationTurns(d: Design, box: Id, length: nat, c: int, env: Replies, first: nat, lap: nat, k: nat)
    requires c >= -1 && box in d.comps && d.comps[box].kind == Iteration
    ensures Turns(d, box, length, c, env, first, lap, k) == if c == -1 && length == 0 then 0 else L.Allowance(c, length)
    decreases L.Allowance(c, length)
  {
    var next := Visited(d, box, c, length);
    if next != -1 {
      IterationTurns(d, box, length, next, env, first, lap, k + 1);
    }
  }

  lemma IterationIsSteady(d: Design, box: Id, length: nat, env: Replies)
    requires box in d.comps && d.comps[box].kind == Iteration
    requires forall i: nat :: env(i).error == "" && env(i).items == Some(length)
    ensures Steady(d, box, length, env)
  {
  }

  // Over a list of the same length at every visit, the run goes through the chain once for every element
  // the counter has not shown yet: as often as the list is long, when the counter is fresh.
  lemma IterationRunsItsElements(d: Design, box: Id, item: Id, body: seq<Id>, length: nat, before: seq<Id>, s: State, env: Replies)
    requires WellFormed(d) && ChainLoop(d, box, item, body) && d.comps[box].kind == Iteration
    requires forall i: nat :: env(i).error == "" && env(i).items == Some(length)
    requires Supplied(d, Ring(item, body), before) && AtPlace(d, Ring(item, body), before, s, 0)
    requires Counter(s.counters, item) >= -1
    ensures var lap, c := |body| + 1, Counter(s.counters, item);
            var n := if c == -1 && length == 0 then 0 else L.Allowance(c, length);
            (c == 0 ==> n == length) && LeftAfter(d, box, item, body, s, Run(d, s, env, n * lap + 1), n)
  {
    hide Supplied, AtPlace, WellFormed, Ring, Run, Turns, Counter, LeftAfter, CountsTo, Steady, LinkAt;
    IterationIsSteady(d, box, length, env);
    hide ChainLoop;
    IterationTurns(d, box, length, Counter(s.counters, item), env, s.idx, |body| + 1, 0);
    RunsItsTurns(d, box, item, body, length, before, s, env, s.idx, 0);
  }

  // Visit v stands at the v-th lap's end, with the counter v further on.
  lemma {:induction false} VisitStands(d: Design, box: Id, item: Id, body: seq<Id>, limit: int, before: seq<Id>, s: State,
                                       env: Replies, first: nat, k: nat, v: nat)
    requires WellFormed(d) && ChainLoop(d, box, item, body) && Steady(d, box, limit, env)
    requires Supplied(d, Ring(item, body), before) && AtPlace(d, Ring(item, body), before, s, 0)
    requires Counter(s.counters, item) >= -1 && s.idx == first + k * (|body| + 1)
    requires v <= Turns(d, box, limit, Counter(s.counters, item), env, first, |body| + 1, k)
    ensures var lap := |body| + 1;
            var e := Run(d, s, env, v * lap);
            && e.path == s.path + Laps(body, item, v) && e.idx == s.idx + v * lap
            && Counter(e.counters, item) == Counter(s.counters, item) + v
            && AtPlace(d, Ring(item, body), before, e, 0)
    decreases v
  {
    hide Batch, Supplied, ChainLoop, AtPlace, WellFormed, Ring, Run, Laps, Turns, Visited, CountsTo, Counter;
    var lap, c := |body| + 1, Counter(s.counters, item);
    NoLap(s.path, body, item);
    if v == 0 {
      NoBatch(d, s, env, Ring(item, body), before);
    } else {
      TurnsOnce(d, box, limit, c, env, first, lap, k);
      PlaceCanStep(d, Ring(item, body), before, s, 0);
      LoopGoesOn(d, box, item, body, limit, before, s, env);
      var back := Run(d, s, env, lap);
      OneCounter(s.counters, item, c + 1);
      NextVisit(first, k, lap);
      VisitStands(d, box, item, body, limit, before, back, env, first, k + 1, v - 1);
      RunSplits(d, s, env, lap, (v - 1) * lap);
      OneMoreLap(s.path, body, item, v - 1);
    }
  }

  lemma NoBatch(d: Design, s: State, env: Replies, ring: seq<Id>, before: seq<Id>)
    requires WellFormed(d) && ring != [] && AtPlace(d, ring, before, s, 0)
    ensures Run(d, s, env, 0) == s
  {
  }
}
