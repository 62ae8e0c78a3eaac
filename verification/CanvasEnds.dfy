/** The outer loop of Canvas.run without a bound: on a structured canvas whose forks stay apart it comes
    to its own end. */
module CanvasEnds {
  import opened CanvasObject
  import opened CanvasRuns
  import opened Design
  import opened ForkedCanvas
  import opened Scheduler
  import opened StructuredCanvas
  import opened Termination

  // How many batches there were.
  method RunToEnd(c: Canvas, env: Replies, ghost rank: map<Id, nat>, ghost cap: nat) returns (ghost batches: nat)
    requires c.Valid() && c.status == Running && c.idx == c.mark == |c.path| - 1
    requires Structured(c.design, rank) && ForksApart(c.design) && InRange(c.design, cap, c.counters) && Bounded(env, cap)
    modifies c
    ensures var end := Scheduler.Run(c.design, old(c.View()), env, batches);
            !CanStep(end) && c.View() == end.(path := FinalPath(c.design, end))
  {
    hide Structured, ForksApart, InRange, Bounded, Batch, Affordable, Potential, Scattered, WellFormed, FinalPath;
    ghost var d, s := c.design, c.View();
    ghost var high := Highest(rank);
    ghost var prices := StructuredIsAffordable(d, rank, cap);
    AffordableFits(d, prices, cap);
    StartIsScattered(d, rank, high, s);
    batches := 0;
    assert Scheduler.Run(d, s, env, 0) == s;
    while c.status == Running && c.idx < |c.path|
      invariant c.Valid() && c.design == d && Between(d, s.idx, c.View()) && InRange(d, cap, c.counters)
      invariant Scattered(d, rank, high, c.path, c.mark)
      invariant c.View() == Scheduler.Run(d, s, env, batches)
      decreases Potential(d, prices, cap, c.View()), CanStep(c.View())
    {
      BatchGoesOn(d, rank, high, prices, cap, s.idx, c.View(), env);
      OneMoreBatch(d, s, env, batches);
      c.RunBatch(env);
      batches := batches + 1;
    }
    c.Close();
  }

  // A batch keeps all that the loop needs, and spends some of the potential unless it is the last.
  lemma BatchGoesOn(d: Design, rank: map<Id, nat>, high: nat, p: Prices, cap: nat, start: nat, s: State, env: Replies)
    requires WellFormed(d) && Structured(d, rank) && HighRank(rank, high) && ForksApart(d)
    requires Affordable(d, p, cap) && Bounded(env, cap) && InRange(d, cap, s.counters)
    requires Between(d, start, s) && CanStep(s) && Scattered(d, rank, high, s.path, s.mark)
    ensures PricesFit(d, p)
    ensures var b := Batch(d, s, env);
            && Between(d, start, b) && InRange(d, cap, b.counters) && Scattered(d, rank, high, b.path, b.mark)
            && 0 <= Potential(d, p, cap, b) <= Potential(d, p, cap, s)
            && (CanStep(b) ==> Potential(d, p, cap, b) < Potential(d, p, cap, s))
  {
    hide Structured, ForksApart, InRange, Bounded, Batch, Affordable, Potential, Scattered, WellFormed;
    AffordableFits(d, p, cap);
    BatchScatters(d, rank, high, start, s, env);
    BatchPays(d, p, cap, start, s, env);
    BatchIsBetween(d, start, s, env);
    var b := Batch(d, s, env);
    PotentialIsNatural(d, p, cap, b);
    if b.mark == s.mark {
      EmptyBatchIsLast(d, start, s, env);
    }
  }

  lemma StartIsScattered(d: Design, rank: map<Id, nat>, high: nat, s: State)
    requires WellFormed(d) && Structured(d, rank) && HighRank(rank, high) && Pending(d, s) && s.mark == |s.path| - 1
    ensures Scattered(d, rank, high, s.path, s.mark)
  {
  }

  lemma OneMoreBatch(d: Design, s: State, env: Replies, n: nat)
    requires WellFormed(d) && Pending(d, s) && CanStep(Scheduler.Run(d, s, env, n))
    ensures Scheduler.Run(d, s, env, n + 1) == Batch(d, Scheduler.Run(d, s, env, n), env)
  {
    hide Batch, WellFormed;
    var t := Scheduler.Run(d, s, env, n);
    RunSplits(d, s, env, n, 1);
    assert Scheduler.Run(d, Batch(d, t, env), env, 0) == Batch(d, t, env);
  }
}
