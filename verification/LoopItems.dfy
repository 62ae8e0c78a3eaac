/** The counter of a LoopItem: how many passes the body of a loop gets. */
module LoopItems {
  import opened Scheduler

  datatype Logic = And | Or

  // all(conditions) or any(conditions)
  predicate ShouldEnd(conditions: seq<bool>, logic: Logic)
  {
    if logic == And then false !in conditions else true in conditions
  }

  class LoopItem {
    var idx: int

    constructor ()
      ensures idx == 0
    {
      idx := 0;
    }

    method Invoke(maximum: int)
      modifies this
      ensures idx == StepCounter(old(idx), maximum)
    {
      if idx >= maximum {
        idx := -1;
        return;
      }
      idx := idx + 1;
    }

    method End(conditions: seq<bool>, logic: Logic) returns (ended: bool)
      modifies this
      ensures ended == (old(idx) == -1 || ShouldEnd(conditions, logic))
      ensures ended <==>
        || old(idx) == -1
        || (logic == And && forall i :: 0 <= i < |conditions| ==> conditions[i])
        || (logic == Or && exists i :: 0 <= i < |conditions| && conditions[i])
      ensures idx == if ended then -1 else old(idx)
    {
      if idx == -1 {
        return true;
      }
      if ShouldEnd(conditions, logic) {
        idx := -1;
        return true;
      }
      return false;
    }
  }

  // The values of the termination conditions when the item is visited for the k-th time.
  type Verdicts = nat -> seq<bool>

  // The passes the body gets from visit `k` on, when the counter stands at `idx`.
  function Passes(idx: int, maximum: int, verdicts: Verdicts, logic: Logic, k: nat): nat
    requires idx >= -1
    decreases if maximum > idx then maximum - idx else 0
  {
    var next := StepCounter(idx, maximum);
    if next == -1 || ShouldEnd(verdicts(k), logic) then 0
    else 1 + Passes(next, maximum, verdicts, logic, k + 1)
  }

  // Entering the loop: the item is visited, and visited again after every pass of the body, until it
  // ends.
  method RunLoop(item: LoopItem, maximum: int, verdicts: Verdicts, logic: Logic) returns (passes: nat)
    requires item.idx >= -1
    modifies item
    ensures passes == Passes(old(item.idx), maximum, verdicts, logic, 0)
    ensures item.idx == -1
  {
    passes := 0;
    while true
      invariant item.idx >= -1
      invariant passes + Passes(item.idx, maximum, verdicts, logic, passes) == Passes(old(item.idx), maximum, verdicts, logic, 0)
      decreases if maximum > item.idx then maximum - item.idx else 0
    {
      item.Invoke(maximum);
      var ended := item.End(verdicts(passes), logic);
      if ended {
        return;
      }
      passes := passes + 1;
    }
  }

  // The most passes an entry at counter `idx` can give.
  function Allowance(idx: int, maximum: int): nat
    requires idx >= -1
  {
    if maximum > idx then maximum - idx else 0
  }

  // The body runs until the first visit whose conditions ask for the end, or until the allowance is
  // spent, whichever comes first. Without conditions "and" asks for the end at once: all([]) is true.
  lemma {:induction false} PassesCounted(idx: int, maximum: int, verdicts: Verdicts, logic: Logic, k: nat)
    requires idx >= -1
    ensures var n := Passes(idx, maximum, verdicts, logic, k);
            && n <= Allowance(idx, maximum)
            && (forall v :: k <= v < k + n ==> !ShouldEnd(verdicts(v), logic))
            && (n == Allowance(idx, maximum) || ShouldEnd(verdicts(k + n), logic))
            && (verdicts(k) == [] && logic == And ==> n == 0)
    decreases Allowance(idx, maximum)
  {
    var next := StepCounter(idx, maximum);
    if next != -1 && !ShouldEnd(verdicts(k), logic) {
      PassesCounted(next, maximum, verdicts, logic, k + 1);
    }
  }

  // From a fresh counter the body gets at most `maximum` passes; a loop entered again after it ended
  // still holds -1 and can get exactly one more.
  lemma ReentryGivesOneMore(maximum: nat, verdicts: Verdicts, logic: Logic)
    requires forall v :: !ShouldEnd(verdicts(v), logic)
    ensures Passes(0, maximum, verdicts, logic, 0) == maximum
    ensures Passes(-1, maximum, verdicts, logic, 0) == maximum + 1
  {
    PassesCounted(0, maximum, verdicts, logic, 0);
    PassesCounted(-1, maximum, verdicts, logic, 0);
  }
}
