/** The request queue of an MCP session: any number of callers, one worker, and close, interleaved in any
    way. Requests are numbered in the order they are accepted. */
module McpSession {
  datatype Reply = Answer | Failure | Cancellation

  // Where the worker loop stands: about to test `_close`, waiting on the queue, serving a request, or
  // gone.
  datatype Worker = Checking | Waiting | Serving(request: nat) | Gone

  // `mail[i]` is the result queue of request i. `replied`, `drained` and `lost` record, in order, the
  // requests the worker answered, those close cancelled, and those the worker dropped when it was
  // cancelled itself.
  datatype State = State(
    queue: seq<nat>, closing: bool, draining: bool, worker: Worker, mail: seq<seq<Reply>>,
    replied: seq<nat>, drained: seq<nat>, lost: seq<nat>, rejected: nat)

  datatype Action =
    | Call                     // _call_mcp_server: test _close and enqueue
    | Check                    // the head of the worker loop
    | Take                     // a request arrives while the worker waits
    | TimeOut                  // the wait of one second ends
    | StopWaiting              // the wait is cancelled
    | Serve(ok: bool)          // the served request gets its result, or its error
    | StopServing              // the call or the put is cancelled
    | Restart                  // _process_mcp_tasks is entered again to report an error
    | Close                    // the beginning of close
    | DrainOne                 // one round of its drain loop
    | DrainEnd                 // its drain loop finds the queue empty

  const INITIAL := State([], false, false, Checking, [], [], [], [], 0)

  function Send(mail: seq<seq<Reply>>, to: nat, r: Reply): seq<seq<Reply>>
    requires to < |mail|
  {
    mail[to := mail[to] + [r]]
  }

  predicate Enabled(s: State, a: Action)
  {
    match a
    case Call => true
    case Check => s.worker.Checking?
    case Take => s.worker.Waiting? && s.queue != []
    case TimeOut => s.worker.Waiting?
    case StopWaiting => s.worker.Waiting?
    case Serve(_) => s.worker.Serving? && s.worker.request < |s.mail|
    case StopServing => s.worker.Serving?
    case Restart => s.worker.Gone?
    case Close => true
    case DrainOne => s.draining && s.queue != [] && s.queue[0] < |s.mail|
    case DrainEnd => s.draining && s.queue == []
  }

  function Step(s: State, a: Action): State
    requires Enabled(s, a)
  {
    match a
    case Call =>
      if s.closing then s.(rejected := s.rejected + 1)
      else s.(queue := s.queue + [|s.mail|], mail := s.mail + [[]])
    case Check => s.(worker := if s.closing then Gone else Waiting)
    case Take => s.(worker := Serving(s.queue[0]), queue := s.queue[1..])
    case TimeOut => s.(worker := Checking)
    case StopWaiting => s.(worker := Gone)
    case Serve(ok) =>
      s.(worker := Checking,
         mail := Send(s.mail, s.worker.request, if ok then Answer else Failure),
         replied := s.replied + [s.worker.request])
    case StopServing => s.(worker := Gone, lost := s.lost + [s.worker.request])
    case Restart => s.(worker := Checking)
    case Close => if s.closing then s else s.(closing := true, draining := true)
    case DrainOne =>
      s.(queue := s.queue[1..], mail := Send(s.mail, s.queue[0], Cancellation), drained := s.drained + [s.queue[0]])
    case DrainEnd => s.(draining := false)
  }

  // A schedule; an action that is not enabled when its turn comes is passed over.
  function Run(s: State, schedule: seq<Action>): State
  {
    if schedule == [] then s
    else
      var before := Run(s, schedule[..|schedule| - 1]);
      var a := schedule[|schedule| - 1];
      if Enabled(before, a) then Step(before, a) else before
  }

  /* ---------- the invariant ---------- */

  ghost predicate Increasing(ids: seq<nat>, bound: int)
  {
    && (forall i :: 0 <= i < |ids| ==> ids[i] < bound)
    && forall i, j :: 0 <= i < j < |ids| ==> ids[i] < ids[j]
  }

  // The requests that have left the queue are the first ones.
  function Departed(s: State): int
  {
    |s.mail| - |s.queue|
  }

  // The queue holds the latest requests, in order.
  ghost predicate QueueValid(s: State)
  {
    && Departed(s) >= 0
    && (forall i :: 0 <= i < |s.queue| ==> s.queue[i] == Departed(s) + i)
    && (s.draining ==> s.closing)
    && (s.closing && !s.draining ==> s.queue == [])
    && (s.worker.Serving? ==> s.worker.request < Departed(s))
  }

  // Everything the worker has dealt with came before what it serves now.
  ghost predicate OrderValid(s: State)
  {
    var bound := if s.worker.Serving? then s.worker.request else Departed(s);
    && Increasing(s.replied, bound) && Increasing(s.lost, bound) && Increasing(s.drained, Departed(s))
  }

  // How many replies a request has, and of what kind, by what became of it.
  ghost predicate MailAt(s: State, i: nat)
    requires i < |s.mail|
  {
    || (i in s.replied && i !in s.drained && i !in s.lost && (s.mail[i] == [Answer] || s.mail[i] == [Failure]))
    || (i in s.drained && i !in s.replied && i !in s.lost && s.mail[i] == [Cancellation])
    || (i in s.lost && i !in s.replied && i !in s.drained && s.mail[i] == [])
    || (s.worker == Serving(i) && i !in s.replied && i !in s.drained && i !in s.lost && s.mail[i] == [])
    || (Departed(s) <= i && i !in s.replied && i !in s.drained && i !in s.lost && s.mail[i] == [])
  }

  ghost predicate MailValid(s: State)
  {
    && (forall i :: 0 <= i < |s.mail| ==> MailAt(s, i))
    && (s.worker.Serving? ==>
          var r := s.worker.request;
          r < |s.mail| && r !in s.replied && r !in s.drained && r !in s.lost)
    && |s.replied| + |s.drained| + |s.lost| + (if s.worker.Serving? then 1 else 0) == Departed(s)
  }

  ghost predicate Valid(s: State)
  {
    QueueValid(s) && OrderValid(s) && MailValid(s)
  }

  lemma StepKeepsQueue(s: State, a: Action)
    requires QueueValid(s) && Enabled(s, a)
    ensures QueueValid(Step(s, a))
  {
  }

  lemma StepKeepsOrder(s: State, a: Action)
    requires QueueValid(s) && OrderValid(s) && Enabled(s, a)
    ensures OrderValid(Step(s, a))
  {
  }

  lemma StepKeepsMail(s: State, a: Action)
    requires QueueValid(s) && OrderValid(s) && MailValid(s) && Enabled(s, a)
    ensures MailValid(Step(s, a))
  {
    var t := Step(s, a);
    forall i | 0 <= i < |t.mail| ensures MailAt(t, i) {
      if i < |s.mail| {
        assert MailAt(s, i);
      }
    }
  }

  lemma {:induction false} RunIsValid(schedule: seq<Action>)
    ensures Valid(Run(INITIAL, schedule))
    decreases |schedule|
  {
    hide Step, Enabled, Valid;
    InitialIsValid();
    if schedule != [] {
      var before := Run(INITIAL, schedule[..|schedule| - 1]);
      RunIsValid(schedule[..|schedule| - 1]);
      var a := schedule[|schedule| - 1];
      if Enabled(before, a) {
        StepKeepsValid(before, a);
      }
    }
  }

  lemma InitialIsValid()
    ensures Valid(INITIAL)
  {
  }

  /* ---------- what holds in every interleaving ---------- */

  // No request ever gets a second reply, and the worker's replies follow the order of acceptance.
  lemma AtMostOneReply(schedule: seq<Action>)
    ensures var s := Run(INITIAL, schedule);
            && (forall i :: 0 <= i < |s.mail| ==> |s.mail[i]| <= 1)
            && (forall i, j :: 0 <= i < j < |s.replied| ==> s.replied[i] < s.replied[j])
            && (forall i, j :: 0 <= i < j < |s.drained| ==> s.drained[i] < s.drained[j])
  {
    RunIsValid(schedule);
    var s := Run(INITIAL, schedule);
    forall i | 0 <= i < |s.mail| ensures |s.mail[i]| <= 1 {
      assert MailAt(s, i);
    }
  }

  // Once close has drained, nothing is queued; every request it took got a cancellation; and every
  // request ever accepted was answered, cancelled, dropped by a cancelled worker, or is being served.
  lemma ClosedIsDrained(schedule: seq<Action>, i: nat)
    requires var s := Run(INITIAL, schedule); s.closing && !s.draining && i < |s.mail|
    ensures var s := Run(INITIAL, schedule);
            && s.queue == []
            && (i in s.drained ==> s.mail[i] == [Cancellation])
            && (i in s.replied ==> s.mail[i] == [Answer] || s.mail[i] == [Failure])
            && (i in s.replied || i in s.drained || i in s.lost || s.worker == Serving(i))
            && |s.replied| + |s.drained| + |s.lost| + (if s.worker.Serving? then 1 else 0) == |s.mail|
  {
    RunIsValid(schedule);
    assert MailAt(Run(INITIAL, schedule), i);
  }

  lemma StepAfterClose(s: State, a: Action)
    requires Enabled(s, a) && s.closing
    ensures var t := Step(s, a);
            t.closing && |t.mail| == |s.mail| && s.drained <= t.drained && s.replied <= t.replied && (!s.draining ==> !t.draining)
  {
  }

  // Nothing is accepted after close has begun, and a finished close stays finished.
  lemma {:induction false} NothingAcceptedAfterClose(schedule: seq<Action>, more: seq<Action>)
    requires Run(INITIAL, schedule).closing
    ensures var s, t := Run(INITIAL, schedule), Run(INITIAL, schedule + more);
            t.closing && |t.mail| == |s.mail| && (!s.draining ==> !t.draining)
    decreases |more|
  {
    hide Step, Enabled;
    if more == [] {
      assert schedule + more == schedule;
    } else {
      var front := more[..|more| - 1];
      assert (schedule + more)[..|schedule + more| - 1] == schedule + front;
      NothingAcceptedAfterClose(schedule, front);
      var before := Run(INITIAL, schedule + front);
      if Enabled(before, more[|more| - 1]) {
        StepAfterClose(before, more[|more| - 1]);
      }
    }
  }

  lemma StepKeepsMailboxes(s: State, a: Action, i: nat)
    requires QueueValid(s) && OrderValid(s) && MailValid(s) && Enabled(s, a) && i < |s.mail| && (i in s.lost || s.mail[i] != [])
    ensures var t := Step(s, a); i < |t.mail| && t.mail[i] == s.mail[i] && (i in s.lost ==> i in t.lost)
  {
    assert MailAt(s, i);
  }

  // A reply that was sent is never changed, and a request the worker dropped is never answered.
  lemma {:induction false} FateIsFinal(schedule: seq<Action>, more: seq<Action>, i: nat)
    requires var s := Run(INITIAL, schedule); i < |s.mail| && (i in s.lost || s.mail[i] != [])
    ensures var s, t := Run(INITIAL, schedule), Run(INITIAL, schedule + more);
            i < |t.mail| && t.mail[i] == s.mail[i] && (i in s.lost ==> i in t.lost)
    decreases |more|
  {
    hide Step, Enabled, QueueValid, OrderValid, MailValid;
    if more == [] {
      assert schedule + more == schedule;
    } else {
      var front := more[..|more| - 1];
      assert (schedule + more)[..|schedule + more| - 1] == schedule + front;
      FateIsFinal(schedule, front, i);
      RunIsValid(schedule + front);
      var before := Run(INITIAL, schedule + front);
      if Enabled(before, more[|more| - 1]) {
        StepKeepsMailboxes(before, more[|more| - 1], i);
      }
    }
  }

  /* ---------- the worker lives, and goes on ---------- */

  lemma RunOneMore(schedule: seq<Action>, a: Action)
    ensures Run(INITIAL, schedule + [a]) ==
      var before := Run(INITIAL, schedule); if Enabled(before, a) then Step(before, a) else before
  {
    assert (schedule + [a])[..|schedule|] == schedule;
  }

  // What ends a worker: close, and being cancelled.
  predicate EndsWorker(a: Action)
  {
    a == Close || a == StopWaiting || a == StopServing
  }

  // As long as nobody closes the session or cancels the worker, the worker is there, however long it waits.
  lemma {:induction false} WorkerLives(schedule: seq<Action>)
    requires forall a :: a in schedule ==> !EndsWorker(a)
    ensures var s := Run(INITIAL, schedule); !s.worker.Gone? && !s.closing
    decreases |schedule|
  {
    if schedule != [] {
      var front, a := schedule[..|schedule| - 1], schedule[|schedule| - 1];
      WorkerLives(front);
      assert a in schedule;
    }
  }

  predicate IsTurn(a: Action)
  {
    a == Check || a == Take || a.Serve?
  }

  // The worker is brought to wait by turns of its own, and takes nothing from the queue on the way.
  lemma TurnsToWaiting(schedule: seq<Action>) returns (turns: seq<Action>)
    requires var s := Run(INITIAL, schedule); !s.closing && !s.worker.Gone?
    ensures forall a :: a in turns ==> IsTurn(a)
    ensures var s, t := Run(INITIAL, schedule), Run(INITIAL, schedule + turns);
            t.worker == Waiting && !t.closing && t.queue == s.queue
  {
    var s := Run(INITIAL, schedule);
    RunIsValid(schedule);
    if s.worker.Waiting? {
      turns := [];
      assert schedule + turns == schedule;
    } else if s.worker.Checking? {
      turns := [Check];
      RunOneMore(schedule, Check);
    } else {
      turns := [Serve(true), Check];
      RunOneMore(schedule, Serve(true));
      RunOneMore(schedule + [Serve(true)], Check);
      assert schedule + turns == schedule + [Serve(true)] + [Check];
    }
  }

  // From every state that a schedule leads to, with a living worker and no close, the first request in the queue can be
  // answered, and it can fail, by turns of the worker alone.
  lemma QueuedIsServed(schedule: seq<Action>, ok: bool) returns (turns: seq<Action>)
    requires var s := Run(INITIAL, schedule); !s.closing && !s.worker.Gone? && s.queue != []
    ensures forall a :: a in turns ==> IsTurn(a)
    ensures var s, t := Run(INITIAL, schedule), Run(INITIAL, schedule + turns);
            && s.queue[0] < |t.mail| && t.mail[s.queue[0]] == (if ok then [Answer] else [Failure])
            && t.queue == s.queue[1..] && t.worker == Checking
  {
    var first := TurnsToWaiting(schedule);
    var taken := schedule + first + [Take];
    RunIsValid(schedule + first);
    RunOneMore(schedule + first, Take);
    RunIsValid(taken);
    RunOneMore(taken, Serve(ok));
    turns := first + [Take, Serve(ok)];
    assert schedule + turns == taken + [Serve(ok)];
    var s, request := Run(INITIAL, taken), Run(INITIAL, schedule).queue[0];
    assert MailAt(s, request);
  }

  // A worker that was cancelled is gone, and one that finds the session closing goes. Until it is entered again it
  // answers nothing.
  lemma WorkerLeaves(schedule: seq<Action>, a: Action)
    requires var s := Run(INITIAL, schedule);
             (a == StopWaiting && s.worker.Waiting?) || (a == StopServing && s.worker.Serving?) || (a == Check && s.worker.Checking? && s.closing)
    ensures var s, t := Run(INITIAL, schedule), Run(INITIAL, schedule + [a]);
            && t.worker == Gone && t.mail == s.mail && t.queue == s.queue
            && (a == StopServing ==> s.worker.request in t.lost)
  {
    RunOneMore(schedule, a);
  }

  lemma {:induction false} GoneStaysGone(schedule: seq<Action>, more: seq<Action>)
    requires Run(INITIAL, schedule).worker.Gone? && Restart !in more
    ensures var s, t := Run(INITIAL, schedule), Run(INITIAL, schedule + more);
            t.worker.Gone? && t.replied == s.replied && t.lost == s.lost
    decreases |more|
  {
    if more == [] {
      assert schedule + more == schedule;
    } else {
      var front, a := more[..|more| - 1], more[|more| - 1];
      GoneStaysGone(schedule, front);
      RunOneMore(schedule + front, a);
      assert schedule + more == schedule + front + [a];
      assert a in more;
    }
  }

  // A worker that is entered again serves again.
  lemma RestartedServes(schedule: seq<Action>)
    requires Run(INITIAL, schedule).worker.Gone? && !Run(INITIAL, schedule).closing
    ensures var s, t := Run(INITIAL, schedule), Run(INITIAL, schedule + [Restart]);
            t == s.(worker := Checking)
  {
    RunOneMore(schedule, Restart);
  }

  /* ---------- the session object ---------- */

  class Session {
    var queue: seq<nat>
    var closing: bool
    var draining: bool
    var worker: Worker
    var mail: seq<seq<Reply>>
    ghost var replied: seq<nat>
    ghost var drained: seq<nat>
    ghost var lost: seq<nat>
    ghost var rejected: nat

    ghost function View(): State
      reads this
    {
      State(queue, closing, draining, worker, mail, replied, drained, lost, rejected)
    }

    constructor ()
      ensures View() == INITIAL
    {
      queue, closing, draining, worker, mail := [], false, false, Checking, [];
      replied, drained, lost, rejected := [], [], [], 0;
    }

    // _call_mcp_server up to its wait; `accepted` is false when it raises "Session is closed".
    method Call() returns (accepted: bool, request: nat)
      modifies this
      ensures View() == Step(old(View()), Action.Call)
      ensures accepted == !old(closing) && (accepted ==> request == |old(mail)|)
      ensures queue == old(queue) + (if accepted then [request] else []) && mail == old(mail) + (if accepted then [[]] else [])
      ensures closing == old(closing) && draining == old(draining) && worker == old(worker)
    {
      request := |mail|;
      if closing {
        rejected := rejected + 1;
        return false, request;
      }
      queue := queue + [request];
      mail := mail + [[]];
      accepted := true;
    }

    method Put(request: nat, r: Reply)
      requires request < |mail|
      modifies `mail
      ensures mail == Send(old(mail), request, r)
    {
      mail := mail[request := mail[request] + [r]];
    }

    // One turn of the worker loop, from its test of _close on. `event` is what happens to it while it
    // waits or serves.
    method WorkerTurn(event: Action)
      requires !event.Call? && !event.Close? && !event.DrainOne? && !event.DrainEnd? && Enabled(View(), event)
      modifies this
      ensures View() == Step(old(View()), event)
    {
      match event
      case Check =>
        worker := if closing then Gone else Waiting;
      case Take =>
        worker := Serving(queue[0]);
        queue := queue[1..];
      case TimeOut =>
        worker := Checking;
      case StopWaiting =>
        worker := Gone;
      case Serve(ok) =>
        replied := replied + [worker.request];
        Put(worker.request, if ok then Answer else Failure);
        worker := Checking;
      case StopServing =>
        lost := lost + [worker.request];
        worker := Gone;
      case Restart =>
        worker := Checking;
    }

    // One round of the drain loop in close.
    method DrainRound()
      requires Enabled(View(), DrainOne)
      modifies this
      ensures View() == Step(old(View()), DrainOne)
      ensures queue == old(queue)[1..] && drained == old(drained) + [old(queue[0])]
      ensures mail == Send(old(mail), old(queue[0]), Cancellation)
      ensures closing == old(closing) && draining == old(draining) && worker == old(worker)
      ensures replied == old(replied) && lost == old(lost) && rejected == old(rejected)
    {
      var request := queue[0];
      queue := queue[1..];
      drained := drained + [request];
      Put(request, Cancellation);
    }

    // close, run to its end while nothing else moves.
    method CloseAlone()
      requires Valid(View())
      modifies this
      ensures Valid(View()) && closing
      ensures old(closing) ==> View() == old(View())
      ensures !old(closing) ==> queue == [] && !draining && drained == old(drained) + old(queue)
      ensures !old(closing) ==> worker == old(worker) && replied == old(replied) && lost == old(lost) && rejected == old(rejected)
      ensures !old(closing) ==> Cancelled(old(mail), mail, old(queue))
    {
      hide Valid, Cancelled, Step, Enabled, Send;
      if closing {
        return;
      }
      CloseSteps(View());
      StepKeepsValid(View(), Close);
      closing, draining := true, true;
      ghost var k := 0;
      NothingCancelled(mail);
      while queue != []
        invariant Valid(View()) && closing && draining && worker == old(worker)
        invariant replied == old(replied) && lost == old(lost) && rejected == old(rejected)
        invariant k <= |old(queue)| && queue == old(queue)[k..] && drained == old(drained) + old(queue)[..k]
        invariant Cancelled(old(mail), mail, old(queue)[..k])
        decreases |queue|
      {
        HeadIsAccepted(View());
        DrainSteps(View());
        StepKeepsValid(View(), DrainOne);
        QueueIsIncreasing(old(View()), k);
        assert queue[0] == old(queue)[k] && old(queue)[..k + 1] == old(queue)[..k] + [queue[0]];
        CancelOne(old(mail), mail, old(queue)[..k], queue[0]);
        DrainRound();
        k := k + 1;
      }
      assert old(queue)[..k] == old(queue);
      DrainSteps(View());
      StepKeepsValid(View(), DrainEnd);
      draining := false;
    }
  }

  lemma CloseSteps(s: State)
    requires !s.closing
    ensures Enabled(s, Close) && Step(s, Close) == s.(closing := true, draining := true)
  {
  }

  lemma DrainSteps(s: State)
    requires s.draining
    ensures s.queue == [] ==> Enabled(s, DrainEnd) && Step(s, DrainEnd) == s.(draining := false)
    ensures s.queue != [] && s.queue[0] < |s.mail| ==> Enabled(s, DrainOne)
  {
  }

  // `now` are the mailboxes after each request in `ids` got a cancellation and no other got anything.
  ghost predicate Cancelled(before: seq<seq<Reply>>, now: seq<seq<Reply>>, ids: seq<nat>)
  {
    |now| == |before| && forall i :: 0 <= i < |now| ==> now[i] == if i in ids then before[i] + [Cancellation] else before[i]
  }

  lemma NothingCancelled(mail: seq<seq<Reply>>)
    ensures Cancelled(mail, mail, [])
  {
  }

  lemma CancelOne(before: seq<seq<Reply>>, now: seq<seq<Reply>>, ids: seq<nat>, id: nat)
    requires Cancelled(before, now, ids) && id < |now| && id !in ids
    ensures Cancelled(before, Send(now, id, Cancellation), ids + [id])
  {
  }

  lemma QueueIsIncreasing(s: State, k: nat)
    requires Valid(s) && k < |s.queue|
    ensures s.queue[k] !in s.queue[..k]
  {
  }

  lemma HeadIsAccepted(s: State)
    requires Valid(s) && s.queue != []
    ensures s.queue[0] < |s.mail|
  {
  }

  lemma StepKeepsValid(s: State, a: Action)
    requires Valid(s) && Enabled(s, a)
    ensures Valid(Step(s, a))
  {
    hide Step;
    StepKeepsQueue(s, a);
    StepKeepsOrder(s, a);
    StepKeepsMail(s, a);
  }
}
