/** The execution queue and the workers that drain it.

    The gateway pushes tasks on a Redis list; each worker process pops them in order, starts
    a coroutine per task, and lets the coroutine past its own semaphore before it handles
    the task.  Any number of worker processes share the list. */
module TaskQueue {
  import Runs

  type Ticket = nat    // the n-th task ever pushed
  type WorkerId = nat

  datatype State = State(
    pushed: nat,
    queue: seq<Ticket>,
    waiting: map<Ticket, WorkerId>,   // coroutines before the semaphore
    running: map<Ticket, WorkerId>,   // coroutines past it
    finished: set<Ticket>,
    permits: map<WorkerId, nat>,
    handled: seq<Ticket>)             // every start of a handler, in order

  datatype Step =
    | Push
    | Pop(worker: WorkerId)
    | Admit(ticket: Ticket)
    | Complete(ticket: Ticket)
    | StartWorker(id: WorkerId)

  function Init(): State { State(0, [], map[], map[], {}, map[], []) }

  predicate Enabled(s: State, step: Step) {
    match step
    case Push => true
    case Pop(w) => w in s.permits && s.queue != []
    case Admit(t) => t in s.waiting && s.waiting[t] in s.permits && s.permits[s.waiting[t]] > 0
    case Complete(t) => t in s.running && s.running[t] in s.permits
    case StartWorker(w) => w !in s.permits
  }

  function Apply(max: nat, s: State, step: Step): State
    requires Enabled(s, step)
  {
    match step
    case Push => s.(pushed := s.pushed + 1, queue := s.queue + [s.pushed])
    case Pop(w) => s.(queue := s.queue[1..], waiting := s.waiting[s.queue[0] := w])
    case Admit(t) =>
      var w := s.waiting[t];
      s.(waiting := s.waiting - {t}, running := s.running[t := w],
         permits := s.permits[w := s.permits[w] - 1], handled := s.handled + [t])
    case Complete(t) =>
      var w := s.running[t];
      s.(running := s.running - {t}, finished := s.finished + {t},
         permits := s.permits[w := s.permits[w] + 1])
    case StartWorker(w) => s.(permits := s.permits[w := max])
  }

  ghost function Moves(max: nat): (State, Step, State) -> bool {
    (before, step, after) => Enabled(before, step) && after == Apply(max, before, step)
  }

  ghost predicate Reachable(max: nat, s: State, n: nat) { Runs.LeadsTo(Moves(max), Init(), s, n) }

  /** The tickets whose handler runs in worker w. */
  function HandledBy(running: map<Ticket, WorkerId>, w: WorkerId): set<Ticket> {
    set t | t in running && running[t] == w
  }

  /** The head of the queue: everything before it has been popped. */
  ghost predicate InOrder(s: State) {
    && |s.queue| <= s.pushed
    && forall i :: 0 <= i < |s.queue| ==> s.queue[i] == s.pushed - |s.queue| + i
  }

  ghost predicate Partitioned(s: State) {
    && s.waiting.Keys !! s.running.Keys !! s.finished
    && forall t: Ticket :: t in s.waiting || t in s.running || t in s.finished <==> t < s.pushed - |s.queue|
  }

  ghost predicate HandledOnce(s: State) {
    && (forall i, j :: 0 <= i < j < |s.handled| ==> s.handled[i] != s.handled[j])
    && (forall t: Ticket :: t in s.handled <==> t in s.running || t in s.finished)
  }

  ghost predicate Bounded(max: nat, s: State) {
    && (forall t :: t in s.waiting ==> s.waiting[t] in s.permits)
    && (forall t :: t in s.running ==> s.running[t] in s.permits)
    && (forall w :: w in s.permits ==> |HandledBy(s.running, w)| + s.permits[w] == max)
  }

  ghost predicate Inv(max: nat, s: State) {
    InOrder(s) && Partitioned(s) && HandledOnce(s) && Bounded(max, s)
  }

  lemma StepKeepsPartition(max: nat, s: State, step: Step)
    requires InOrder(s) && Partitioned(s) && Enabled(s, step)
    ensures InOrder(Apply(max, s, step)) && Partitioned(Apply(max, s, step))
  {
  }

  lemma StepKeepsHandledOnce(max: nat, s: State, step: Step)
    requires Partitioned(s) && HandledOnce(s) && Enabled(s, step)
    ensures HandledOnce(Apply(max, s, step))
  {
    var after := Apply(max, s, step);
    if step.Admit? {
      assert step.ticket !in s.handled;
      assert forall t :: t in after.handled <==> t in s.handled || t == step.ticket;
    }
  }

  lemma OneMoreHandled(running: map<Ticket, WorkerId>, t: Ticket, w: WorkerId, v: WorkerId)
    requires t !in running
    ensures |HandledBy(running[t := w], v)| == |HandledBy(running, v)| + if v == w then 1 else 0
  {
    assert HandledBy(running[t := w], v) == HandledBy(running, v) + if v == w then {t} else {};
  }

  lemma OneLessHandled(running: map<Ticket, WorkerId>, t: Ticket, v: WorkerId)
    requires t in running
    ensures |HandledBy(running - {t}, v)| == |HandledBy(running, v)| - if v == running[t] then 1 else 0
  {
    assert HandledBy(running - {t}, v) == HandledBy(running, v) - if v == running[t] then {t} else {};
  }

  lemma NewWorkerIdle(s: State, w: WorkerId)
    requires forall t :: t in s.running ==> s.running[t] in s.permits
    ensures w !in s.permits ==> HandledBy(s.running, w) == {}
  {
  }

  lemma StepKeepsSlots(max: nat, s: State, step: Step, w: WorkerId)
    requires Partitioned(s) && Bounded(max, s) && Enabled(s, step)
    requires w in Apply(max, s, step).permits
    ensures |HandledBy(Apply(max, s, step).running, w)| + Apply(max, s, step).permits[w] == max
  {
    NewWorkerIdle(s, w);
    hide HandledBy;
    match step
    case Admit(t) => OneMoreHandled(s.running, t, s.waiting[t], w);
    case Complete(t) => OneLessHandled(s.running, t, w);
    case _ =>
  }

  lemma StepKeepsBound(max: nat, s: State, step: Step)
    requires Partitioned(s) && Bounded(max, s) && Enabled(s, step)
    ensures Bounded(max, Apply(max, s, step))
  {
    var after := Apply(max, s, step);
    forall w | w in after.permits
      ensures |HandledBy(after.running, w)| + after.permits[w] == max
    {
      StepKeepsSlots(max, s, step, w);
    }
  }

  lemma InitInv(max: nat)
    ensures Inv(max, Init())
  {
  }

  lemma {:induction false} ReachableInv(max: nat, s: State, n: nat)
    requires Reachable(max, s, n)
    ensures Inv(max, s)
    decreases n
  {
    hide Enabled, Apply, InOrder, Partitioned, HandledOnce, Bounded;
    if n == 0 {
      Runs.NoStep(Moves(max), Init(), s);
      InitInv(max);
    } else {
      var before, step := Runs.LastStep(Moves(max), Init(), s, n);
      ReachableInv(max, before, n - 1);
      StepKeepsPartition(max, before, step);
      StepKeepsHandledOnce(max, before, step);
      StepKeepsBound(max, before, step);
    }
  }

  lemma {:induction false} CountBelow(n: nat, ts: set<Ticket>)
    requires forall t: Ticket :: t in ts <==> t < n
    ensures |ts| == n
    decreases n
  {
    if n == 0 {
      assert ts == {};
    } else {
      CountBelow(n - 1, ts - {n - 1});
    }
  }

  /** Nothing pushed is lost or duplicated: every task is queued, before a semaphore, in a
      handler or finished, and in one place only; tasks leave the queue in the order they
      came; no task is handled twice, by any workers; no worker handles more than `max`. */
  lemma Conservation(max: nat, s: State, n: nat)
    requires Reachable(max, s, n)
    ensures s.pushed == |s.queue| + |s.waiting| + |s.running| + |s.finished|
    ensures s.waiting.Keys !! s.running.Keys !! s.finished
    ensures forall i :: 0 <= i < |s.queue| ==> s.queue[i] == s.pushed - |s.queue| + i
    ensures forall i, j :: 0 <= i < j < |s.handled| ==> s.handled[i] != s.handled[j]
    ensures forall t :: t in s.handled <==> t in s.running || t in s.finished
    ensures forall w :: w in s.permits ==> |HandledBy(s.running, w)| <= max
  {
    ReachableInv(max, s, n);
    CountBelow(s.pushed - |s.queue|, s.waiting.Keys + s.running.Keys + s.finished);
  }

  /** Nothing is left lying: as long as some task is not finished and there is a worker, one can be
      popped, admitted or completed. */
  lemma NothingStuck(max: nat, s: State, n: nat)
    requires Reachable(max, s, n) && max > 0 && s.permits.Keys != {} && |s.finished| < s.pushed
    ensures exists step :: Enabled(s, step) && (step.Pop? || step.Admit? || step.Complete?)
  {
    Conservation(max, s, n);
    ReachableInv(max, s, n);
    if s.queue != [] {
      var w :| w in s.permits;
      assert Enabled(s, Pop(w));
    } else if s.running.Keys != {} {
      var t :| t in s.running;
      assert Enabled(s, Complete(t));
    } else {
      var t :| t in s.waiting.Keys;
      assert HandledBy(s.running, s.waiting[t]) == {};
      assert Enabled(s, Admit(t));
    }
  }
}
