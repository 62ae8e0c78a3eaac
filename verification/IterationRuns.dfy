/** An iteration inside a run: the Canvas object and the IterationItem object together. */
module IterationRuns {
  import opened CanvasObject
  import opened Design
  import opened LoopRuns
  import opened Options
  import opened Scheduler
  import I = IterationItems

  // What the item finds in the children's outputs after each lap, when `outs` tells what they hold at every
  // path position: after lap p it is visited at position first + (p + 1) * lap.
  function AfterLaps<V>(outs: nat -> I.ChildOutputs<V>, first: nat, lap: nat): nat -> I.ChildOutputs<V>
  {
    (p: nat) => outs(first + (p + 1) * lap)
  }

  // The run stands at the item for visit v, and the item object agrees with the canvas.
  ghost predicate AtVisit<V>(c: Canvas, it: I.IterationItem<V>, item: Id, body: seq<Id>, before: seq<Id>, s0: State, v: nat)
    reads c, it
  {
    && c.Valid() && it.Valid() && AtPlace(c.design, Ring(item, body), before, c.View(), 0)
    && c.path == s0.path + Laps(body, item, v) && c.idx == s0.idx + v * (|body| + 1)
    && it.idx == v == Counter(c.counters, item)
    && forall x :: x != item ==> Counter(c.counters, x) == Counter(s0.counters, x)
  }

  ghost predicate ChainIteration(d: Design, box: Id, item: Id, body: seq<Id>)
  {
    WellFormed(d) && ChainLoop(d, box, item, body) && d.comps[box].kind == Iteration
  }

  // Nothing fails, and every visit reads a list of this length.
  ghost predicate Fed(env: Replies, length: nat)
  {
    forall i: nat :: env(i).error == "" && env(i).items == Some(length)
  }

  // The rest of a lap: every batch runs one component of the chain, the last leads back to the item.
  method WalkChain(c: Canvas, box: Id, item: Id, body: seq<Id>, ghost before: seq<Id>, env: Replies)
    requires c.Valid() && ChainLoop(c.design, box, item, body) && forall i: nat :: env(i).error == ""
    requires Supplied(c.design, Ring(item, body), before) && AtPlace(c.design, Ring(item, body), before, c.View(), 1)
    modifies c
    ensures c.Valid() && AtPlace(c.design, Ring(item, body), before, c.View(), 0)
    ensures c.path == old(c.path) + body[1..] + [item] && c.counters == old(c.counters) && c.idx == old(c.idx) + |body|
  {
    hide Batch, Supplied, InvokedCounter, ChainLoop, AtPlace, WellFormed, Successors, ItemEnds, IsFillUp, Ring;
    ghost var d, ring := c.design, Ring(item, body);
    ChainIsNotEmpty(d, box, item, body);
    var j := 0;
    while j < |body|
      invariant j <= |body| && c.Valid() && c.counters == old(c.counters) && c.idx == old(c.idx) + j
      invariant c.path == old(c.path) + if j < |body| then body[1..j + 1] else body[1..] + [item]
      invariant AtPlace(d, ring, before, c.View(), if j < |body| then j + 1 else 0)
    {
      ghost var s, next := c.View(), if j + 1 < |body| then j + 2 else 0;
      ChainLeads(d, box, item, body, j, env(c.idx));
      RingIs(item, body);
      PlaceCanStep(d, ring, before, s, j + 1);
      StepOn(d, ring, before, s, env, j + 1, next);
      c.RunBatch(env);
      j := j + 1;
    }
  }

  lemma RingIs(item: Id, body: seq<Id>)
    ensures |Ring(item, body)| == |body| + 1 && Ring(item, body)[0] == item
    ensures forall j :: 0 <= j < |body| ==> Ring(item, body)[j + 1] == body[j]
  {
  }

  // One visit of an element, and the lap that follows it.
  method ShowAndWalk<V(!new, ==)>(c: Canvas, it: I.IterationItem<V>, box: Id, item: Id, body: seq<Id>, ghost before: seq<Id>,
                                  ghost s0: State, env: Replies, list: seq<V>, out: I.ChildOutputs<V>, ghost v: nat)
      returns (shown: (int, Option<V>))
    requires ChainIteration(c.design, box, item, body)
    requires Supplied(c.design, Ring(item, body), before) && s0.path != []
    requires Fed(env, |list|)
    requires AtVisit(c, it, item, body, before, s0, v) && v < |list|
    modifies c, it
    ensures AtVisit(c, it, item, body, before, s0, v + 1)
    ensures shown == (v, Some(list[v]))
    ensures if v == 0 then it.outputs == old(it.outputs)
            else I.Grown(old(it.outputs), it.outputs, I.RefsTo(it.refs, it.children), out)
  {
    hide Batch, Supplied, InvokedCounter, AtPlace, WellFormed, Successors, ItemEnds, IsFillUp, Ring, I.Grown, LinkAt, Laps;
    ghost var s := c.View();
    IterationIsSteady(c.design, box, |list|, env);
    hide ChainLoop;
    PlaceCanStep(c.design, Ring(item, body), before, s, 0);
    ItemLeads(c.design, box, item, body, |list|, env(c.idx));
    RingIs(item, body);
    StepOn(c.design, Ring(item, body), before, s, env, 0, 1);
    var raised := it.Invoke(Some(list), out);
    shown := (it.index, it.item);
    c.RunBatch(env);
    WalkChain(c, box, item, body, before, env);
    LapAfter(s0.path, s.path, body, item, v);
    OneCounter(s.counters, item, v + 1);
  }

  lemma LapAfter(start: seq<Id>, path: seq<Id>, body: seq<Id>, item: Id, v: nat)
    requires body != [] && path == start + Laps(body, item, v)
    ensures path + [body[0]] + body[1..] + [item] == start + Laps(body, item, v + 1)
    ensures (v + 1) * (|body| + 1) == v * (|body| + 1) + |body| + 1
  {
    LapsAtTheEnd(body, item, v);
    assert [body[0]] + body[1..] == body;
  }

  lemma {:induction false} LapsAtTheEnd(body: seq<Id>, item: Id, v: nat)
    ensures Laps(body, item, v + 1) == Laps(body, item, v) + body + [item]
  {
    if v == 0 {
      assert Laps(body, item, 0) == [];
    } else {
      LapsAtTheEnd(body, item, v - 1);
    }
  }

  // The visit that finds nothing left.
  method LastVisit<V(!new, ==)>(c: Canvas, it: I.IterationItem<V>, box: Id, item: Id, body: seq<Id>, ghost before: seq<Id>,
                                ghost s0: State, env: Replies, list: seq<V>, out: I.ChildOutputs<V>)
    requires ChainIteration(c.design, box, item, body)
    requires Supplied(c.design, Ring(item, body), before) && s0.path != []
    requires Fed(env, |list|)
    requires AtVisit(c, it, item, body, before, s0, |list|)
    modifies c, it
    ensures c.Valid() && LeftAfter(c.design, box, item, body, s0, c.View(), |list|) && it.idx == -1
    ensures if list == [] then it.outputs == old(it.outputs)
            else I.Grown(old(it.outputs), it.outputs, I.RefsTo(it.refs, it.children), out)
  {
    hide Batch, Supplied, InvokedCounter, AtPlace, WellFormed, Successors, ItemEnds, IsFillUp, Ring, I.Grown, LinkAt, ExtendPath;
    ghost var s := c.View();
    IterationIsSteady(c.design, box, |list|, env);
    hide ChainLoop;
    LoopLeaves(c.design, box, item, body, |list|, before, s, env);
    var raised := it.Invoke(Some(list), out);
    c.RunBatch(env);
  }

  lemma StartsAtVisit<V>(c: Canvas, it: I.IterationItem<V>, item: Id, body: seq<Id>, before: seq<Id>)
    requires c.Valid() && it.Valid() && AtPlace(c.design, Ring(item, body), before, c.View(), 0)
    requires it.idx == 0 == Counter(c.counters, item)
    ensures AtVisit(c, it, item, body, before, c.View(), 0) && c.path != []
  {
    assert c.path + Laps(body, item, 0) == c.path;
  }

  lemma VisitIs<V>(c: Canvas, it: I.IterationItem<V>, item: Id, body: seq<Id>, before: seq<Id>, s0: State, v: nat)
    requires AtVisit(c, it, item, body, before, s0, v)
    ensures c.idx == s0.idx + v * (|body| + 1)
  {
  }

  // What the outputs hold before visit v: every visit after the first has collected once.
  ghost predicate SoFar<V(!new)>(was: map<string, seq<V>>, now: map<string, seq<V>>, taken: set<I.OutputRef>,
                                 outs: nat -> I.ChildOutputs<V>, first: nat, lap: nat, v: nat)
  {
    I.CollectedPasses(was, now, taken, AfterLaps(outs, first, lap), if v == 0 then 0 else v - 1)
  }

  lemma NothingCollected<V(!new)>(outputs: map<string, seq<V>>, taken: set<I.OutputRef>, outs: nat -> I.ChildOutputs<V>,
                                  first: nat, lap: nat)
    ensures SoFar(outputs, outputs, taken, outs, first, lap, 0)
  {
  }

  // Visit v collects what lap v - 1 has left.
  lemma VisitCollects<V(!new)>(was: map<string, seq<V>>, middle: map<string, seq<V>>, now: map<string, seq<V>>, taken: set<I.OutputRef>,
                               outs: nat -> I.ChildOutputs<V>, first: nat, lap: nat, v: nat)
    requires SoFar(was, middle, taken, outs, first, lap, v)
    requires if v == 0 then now == middle else I.Grown(middle, now, taken, outs(first + v * lap))
    ensures SoFar(was, now, taken, outs, first, lap, v + 1) && I.CollectedPasses(was, now, taken, AfterLaps(outs, first, lap), v)
  {
    hide I.CollectedPasses, I.Grown;
    if v > 0 {
      assert AfterLaps(outs, first, lap)(v - 1) == outs(first + v * lap);
      I.OneMorePass(was, middle, now, taken, AfterLaps(outs, first, lap), v - 1);
    }
  }

  /**
   * A whole iteration over an unchanged list, on the canvas: from a fresh counter the item is visited once
   * more than the list is long, with the chain run after every visit but the last. It shows the elements in
   * order, every output whose ref names a child collects that child's output after each lap, in order, and
   * the run leaves by the container's downstream with both counters at -1.
   */
  method IterateOnCanvas<V(!new, ==)>(c: Canvas, it: I.IterationItem<V>, box: Id, item: Id, body: seq<Id>,
                                      ghost before: seq<Id>, env: Replies, list: seq<V>, outs: nat -> I.ChildOutputs<V>)
      returns (visits: nat, shown: seq<(int, Option<V>)>)
    requires c.Valid() && ChainIteration(c.design, box, item, body)
    requires Supplied(c.design, Ring(item, body), before) && AtPlace(c.design, Ring(item, body), before, c.View(), 0)
    requires Fed(env, |list|)
    requires it.Valid() && it.idx == 0 == Counter(c.counters, item)
    modifies c, it
    ensures c.Valid() && LeftAfter(c.design, box, item, body, old(c.View()), c.View(), |list|)
    ensures visits == |list| + 1 && it.idx == -1
    ensures |shown| == |list| && forall p :: 0 <= p < |list| ==> shown[p] == (p, Some(list[p]))
    ensures I.CollectedPasses(old(it.outputs), it.outputs, I.RefsTo(it.refs, it.children),
                              AfterLaps(outs, old(c.idx), |body| + 1), |list|)
  {
    hide AtVisit, ChainIteration, Supplied, AtPlace, I.CollectedPasses, I.Grown, LeftAfter, Ring, Fed, WellFormed, SoFar, I.RefsTo;
    ghost var s0, was, taken := c.View(), it.outputs, I.RefsTo(it.refs, it.children);
    ghost var first, lap := c.idx, |body| + 1;
    StartsAtVisit(c, it, item, body, before);
    NothingCollected(was, taken, outs, first, lap);
    visits, shown := 0, [];
    while visits < |list|
      invariant visits == |shown| <= |list| && AtVisit(c, it, item, body, before, s0, visits)
      invariant forall p :: 0 <= p < |shown| ==> shown[p] == (p, Some(list[p]))
      invariant SoFar(was, it.outputs, taken, outs, first, lap, visits)
    {
      ghost var middle := it.outputs;
      VisitIs(c, it, item, body, before, s0, visits);
      var one := ShowAndWalk(c, it, box, item, body, before, s0, env, list, outs(c.idx), visits);
      VisitCollects(was, middle, it.outputs, taken, outs, first, lap, visits);
      shown := shown + [one];
      visits := visits + 1;
    }
    ghost var middle := it.outputs;
    VisitIs(c, it, item, body, before, s0, visits);
    LastVisit(c, it, box, item, body, before, s0, env, list, outs(c.idx));
    VisitCollects(was, middle, it.outputs, taken, outs, first, lap, visits);
    visits := visits + 1;
  }
}
