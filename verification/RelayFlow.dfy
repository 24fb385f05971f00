/** How an interactive session goes on and ends: the relay stops at the pod's last message, a
    session that is complete needs no timeout, and nobody waits for nothing. */
module RelayFlow {
  import opened Relay
  import Engine = EngineSession

  // ---------- the relay stops ----------

  predicate NoTerminal(ms: seq<Engine.Message>) { forall i :: 0 <= i < |ms| ==> !Engine.Terminal(ms[i]) }

  /** From the announcement until the output task has returned. */
  predicate InSession(w: Worker) { w.Waiting? || w.Cancelling? || w.AwaitingOutput? }

  /** `executing` precedes all messages of the pod. */
  predicate Announced(us: seq<Update>) {
    exists i :: 0 <= i < |us| && us[i] == Executing && forall j :: 0 <= j < i ==> !us[j].Forwarded?
  }

  lemma AnnouncedMore(us: seq<Update>, more: seq<Update>)
    ensures Announced(us) ==> Announced(us + more)
    ensures (forall j :: 0 <= j < |us| ==> !us[j].Forwarded?) ==> Announced(us + [Executing])
  {
    if Announced(us) {
      var i :| 0 <= i < |us| && us[i] == Executing && forall j :: 0 <= j < i ==> !us[j].Forwarded?;
      assert (us + more)[i] == Executing;
    }
    assert (us + [Executing])[|us|] == Executing;
  }

  /** A terminal message is the last one that the relay forwards, and then it is finishing. */
  predicate StopInv(published: seq<Update>, m: Mid) {
    var ms := Forwards(published);
    && (m.completed ==> m.output.Returned?)
    && (InSession(m.worker) ==> !m.output.NotStarted? && Announced(published))
    && (m.output.NotStarted? ==> forall j :: 0 <= j < |published| ==> !published[j].Forwarded?)
    && match m.output
       case Checking(message) => |ms| > 0 && ms[|ms| - 1] == message && NoTerminal(ms[..|ms| - 1])
       case Returned => |ms| > 0 ==> NoTerminal(ms[..|ms| - 1])
       case _ => NoTerminal(ms)
  }

  lemma WorkerKeepsStop(published: seq<Update>, m: Mid, how: How)
    requires StopInv(published, m) && OutInv(published, m)
    ensures StopInv(published + WorkerSays(m, how), WorkerMid(m, how))
  {
    WorkerFacts(m, how);
    NotForwarded(published, WorkerSays(m, how));
    AnnouncedMore(published, WorkerSays(m, how));
    assert m.worker.Announcing? ==> WorkerSays(m, how) == [Executing];
    assert m.worker.Announcing? ==> Early(m.worker);
    SessionBegins(m, how);
    hide Forwards, WorkerGoes, WorkerSays, Early, NoTerminal, Announced, InSession;
  }

  lemma SessionBegins(m: Mid, how: How)
    ensures InSession(WorkerGoes(m, how)) ==> InSession(m.worker) || m.worker.Announcing?
  {
  }

  lemma OutputKeepsStop(published: seq<Update>, m: Mid, clean: bool)
    requires StopInv(published, m) && OutputCan(m)
    ensures StopInv(published + OutputSays(m), OutputMid(m, clean))
  {
    var ms := Forwards(published);
    AnnouncedMore(published, OutputSays(m));
    hide Announced, InSession;
    if m.output.Relaying? {
      ForwardsMore(published, Forwarded(m.output.message));
      hide Forwards, Engine.Terminal;
      assert (ms + [m.output.message])[..|ms|] == ms;
    } else {
      NotForwarded(published, OutputSays(m));
      hide Forwards, Engine.Terminal;
    }
  }

  lemma {:induction false} ReachableStopInv(s: State, n: nat)
    requires Reachable(s, n)
    ensures StopInv(s.up.published, s.mid)
    decreases n
  {
    hide Reachable, StopInv, Can;
    if n == 0 {
      StartStops(s, n);
    } else {
      var before, step := LastStep(s, n);
      ReachableStopInv(before, n - 1);
      ReachableInv(before, n - 1);
      StepKeepsStop(before, step);
    }
  }

  lemma StartStops(s: State, n: nat)
    requires Reachable(s, n) && n == 0
    ensures StopInv(s.up.published, s.mid)
  {
    Runs.NoStep(Moves, START, s);
  }

  lemma StepKeepsStop(s: State, step: Step)
    requires Inv(s) && Can(s, step) && StopInv(s.up.published, s.mid)
    ensures StopInv(Next(s, step).up.published, Next(s, step).mid)
  {
    hide UpInv, LoopInv, PodInv, EarlyInv;
    match step {
      case WorkerStep(how) =>
        hide StopInv, OutInv;
        WorkerKeepsStop(s.up.published, s.mid, how);
      case OutputStep(clean) =>
        hide StopInv, OutInv;
        OutputKeepsStop(s.up.published, s.mid, clean);
      case GatewayStep(sent) => GatewayPublishesNothing(s.up, sent);
      case _ =>
    }
  }

  /** The relay forwards nothing after a terminal message of the pod, and leaves its loop then. */
  lemma RelayStops(s: State, n: nat, i: nat)
    requires Reachable(s, n) && i < |Forwards(s.up.published)| && Engine.Terminal(Forwards(s.up.published)[i])
    ensures i == |Forwards(s.up.published)| - 1
    ensures s.mid.output.Checking? || s.mid.output.Returned?
  {
    hide Reachable, Engine.Terminal, Forwards;
    ReachableStopInv(s, n);
  }

  /** The client is told: in every session `executing` has been published before the pod's first
      message. */
  lemma SessionIsAnnounced(s: State, n: nat)
    requires Reachable(s, n) && InSession(s.mid.worker)
    ensures Announced(s.up.published)
  {
    hide Reachable, Forwards, NoTerminal;
    ReachableStopInv(s, n);
  }

  // ---------- the session ends ----------

  lemma WalksOn(s: State, n: nat) returns (after: State)
    requires Reachable(s, n) && WorkerCan(s)
    ensures Reachable(after, n + 1) && after.mid == WorkerMid(s.mid, Fine)
    ensures after.up.published == s.up.published + WorkerSays(s.mid, Fine)
  {
    hide Reachable, WorkerMid, WorkerDown, WorkerSays, WorkerCan;
    after := Extend(s, n, WorkerStep(Fine));
  }

  /** A complete session needs neither the timeout nor the pod any more: four steps of the worker's
      own lead to its end, and nothing else is published. */
  lemma CompleteSessionEnds(s: State, n: nat) returns (after: State)
    requires Reachable(s, n) && s.mid.worker.Waiting? && s.mid.completed
    ensures Reachable(after, n + 4) && after.mid.worker.Finished? && after.up.published == s.up.published
  {
    ReachableStopInv(s, n);
    hide Reachable, Forwards, NoTerminal;
    after := WalksOn(s, n);
    after := WalksOn(after, n + 1);
    after := WalksOn(after, n + 2);
    after := WalksOn(after, n + 3);
  }

  /** Until it is finished, the worker of a pushed task can move, or its output task can, or both
      wait for a pod that is connected and silent. */
  lemma WorkerNeverStuck(s: State, n: nat)
    requires Reachable(s, n) && s.up.pushed && !s.mid.worker.Finished?
    ensures WorkerCan(s) || OutputCan(s.mid) || Overdue(s.mid)
  {
    ReachableStopInv(s, n);
    ReachableInv(s, n);
    hide Reachable, UpInv, LoopInv, PodInv, EarlyInv, Forwards, NoTerminal;
  }

  /** In a live session whatever the client has typed is on its way: unless everything has arrived,
      the gateway's loop or the relay's stdin task can move. */
  lemma StdinNeverStuck(s: State, n: nat)
    requires Reachable(s, n) && s.mid.worker.Waiting? && !s.mid.completed && !s.mid.podClosed
    ensures Settled(s.down) || Can(s, TakeTyped) || Can(s, PublishTyped) || Can(s, StdinStep)
  {
    ReachableInv(s, n);
    hide Reachable, UpInv, OutInv, EarlyInv, Translated, Stopped;
  }
}
