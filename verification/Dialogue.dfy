/** What goes on between client and child while the child runs, and how it comes to an end: output
    is on its way to the client a round after it was written, a child that writes is not taken
    for idle, an idle or dead one ends with its verdict, messages are read as text or closes as
    they ask, and neither thread is left behind. */
module Dialogue {
  import opened Bytes
  import opened Posix
  import opened ProcessPipe
  import opened EngineSession
  import Life = ProcessLife
  import R = Runs

  /** k more steps lead from s to t. */
  ghost predicate Continues(s: State, t: State, k: nat) { R.LeadsTo(EngineSession.Moves, s, t, k) }

  /** What one call on the process, or one event outside, can do to output and clock. */
  ghost predicate Grows(l: Life.Life, m: Life.Life) {
    && (forall src :: Life.Written(l, src) <= Life.Written(m, src))
    && (forall src :: Life.ReadSoFar(l, src) <= Life.ReadSoFar(m, src))
    && l.p.os.now <= m.p.os.now
    && (m.p.lastIo == l.p.lastIo || m.p.lastIo == l.p.os.now)
    && (forall src :: Life.ReadSoFar(m, src) != Life.ReadSoFar(l, src) ==> m.p.lastIo == l.p.os.now)
    && (l.p.exited ==> m.p.exited)
  }

  lemma ReadGrows(l: Life.Life, src: Source)
    ensures Grows(l, Life.ApplyRead(l, src))
  {
    hide Unread;
  }

  lemma StepGrows(l: Life.Life, st: Life.Step)
    requires Life.Inv(l) && l.p.spawned && Life.Enabled(l, st)
    ensures Grows(l, Life.Apply(l, st))
  {
    hide Life.Accounted, Life.ClockInv, Life.StreamInv, CloseEnd, CloseAll, Unread, Take, Life.ApplyRead;
    match st {
      case Read(src) => ReadGrows(l, src);
      case CloseStdin => Life.CloseTouches(l.p, StdinWrite);
      case Destroy => Life.CloseAllTouches(TerminateDoes(l.p));
      case _ =>
    }
  }

  lemma StepOfRunGrows(s: State, step: Step)
    requires SInv(s) && Can(s, step)
    ensures Grows(s.life, Next(s, step).life)
  {
    var did := LifeMoves(s, step);
    hide Can, Next, EndInv, FlagInv, TraceInv, OutputInv, DrainInv, InputInv;
    if did.Some? {
      hide Life.Apply, Life.Enabled, Life.Inv, Grows;
      StepGrows(s.life, did.step);
    }
  }

  // ---------- output is sent while the child runs ----------

  /** On the way from a poll to the next round: stdout is read first, stderr second. */
  predicate Carrying(s: State, out: Data, err: Data) {
    && out <= Life.Written(s.life, Stdout) && err <= Life.Written(s.life, Stderr)
    && (s.egress.ReadOut? || out <= Life.ReadSoFar(s.life, Stdout))
    && (s.egress.ReadOut? || s.egress.SendOut? || s.egress.ReadErr? || err <= Life.ReadSoFar(s.life, Stderr))
  }

  lemma PrefixTrans(x: Data, y: Data, z: Data)
    requires x <= y && y <= z
    ensures x <= z
  {
  }

  lemma GrowsCarries(l: Life.Life, m: Life.Life, src: Source, data: Data)
    requires Grows(l, m)
    ensures data <= Life.Written(l, src) ==> data <= Life.Written(m, src)
    ensures data <= Life.ReadSoFar(l, src) ==> data <= Life.ReadSoFar(m, src)
  {
    assert Life.Written(l, src) <= Life.Written(m, src) && Life.ReadSoFar(l, src) <= Life.ReadSoFar(m, src);
    hide *;
  }

  /** What the loop does in a round. */
  lemma RoundPc(s: State)
    requires EgressCan(s)
    ensures var pc := EgressDoes(s).egress;
            && (s.egress.ReadOut? ==> pc.SendOut?)
            && (s.egress.ReadErr? ==> pc.SendErr?)
            && (s.egress.SendOut? ==> pc.ReadErr?)
            && (s.egress.SendErr? ==> pc.LoopTest?)
            && (pc.SendOut? ==> s.egress.ReadOut?)
            && (pc.SendErr? ==> s.egress.ReadErr?)
  {
    hide After, Says, ReadGives, RunningTimesOut, ExitedGives;
  }

  lemma EgressReadsAll(s: State, src: Source)
    requires HandlerInv(s) && EgressCan(s) && s.egress == (if src == Stdout then ReadOut else ReadErr)
    ensures Life.ReadSoFar(EgressDoes(s).life, src) == Life.Written(s.life, src)
  {
    EgressDoesLife(s);
    Life.ReadDrains(s.life, src);
    hide EgressDoes, Life.Inv, Life.ApplyRead;
  }

  lemma StepCarries(s: State, step: Step, out: Data, err: Data)
    requires SInv(s) && Can(s, step) && Carrying(s, out, err)
    ensures Carrying(Next(s, step), out, err)
  {
    StepOfRunGrows(s, step);
    GrowsCarries(s.life, Next(s, step).life, Stdout, out);
    GrowsCarries(s.life, Next(s, step).life, Stderr, err);
    hide Grows, Life.Written, Life.ReadSoFar, EndInv, FlagInv, TraceInv, OutputInv, DrainInv, InputInv, HandlerInv;
    if step.EgressStep? {
      RoundPc(s);
      if s.egress.ReadOut? {
        EgressReadsAll(s, Stdout);
      } else if s.egress.ReadErr? {
        EgressReadsAll(s, Stderr);
      }
      hide EgressDoes;
    } else {
      OthersLeavePc(s, step);
      hide Next;
    }
  }

  lemma OthersLeavePc(s: State, step: Step)
    requires Can(s, step) && !step.EgressStep?
    ensures Next(s, step).egress == s.egress
  {
    hide Life.Apply;
  }

  lemma {:induction false} RunCarries(s: State, t: State, k: nat, out: Data, err: Data)
    requires SInv(s) && Continues(s, t, k) && Carrying(s, out, err)
    ensures SInv(t) && Carrying(t, out, err)
    decreases k
  {
    hide SInv, Can, Next, Carrying;
    if k == 0 {
      R.NoStep(EngineSession.Moves, s, t);
    } else {
      var before, step := R.LastStep(EngineSession.Moves, s, t, k);
      RunCarries(s, before, k - 1, out, err);
      StepKeepsSInv(before, step);
      StepCarries(before, step, out, err);
    }
  }

  /** What a child that is still running had written when it was polled has been sent, stream by
      stream, when the thread looks at the clock again -- whatever the others do meanwhile. */
  lemma OutputIsStreamed(orphans: bool, s: State, n: nat, t: State, k: nat, src: Source)
    requires Runs(orphans, s, n) && s.egress.Poll? && s.life.p.os.child.Running? && Can(s, EgressStep)
    requires Continues(Next(s, EgressStep), t, k) && (t.egress.LoopTest? || t.egress.LookAtClock?)
    ensures Life.Written(s.life, src) <= OutOf(t.sent, src)
  {
    hide Continues, SInv;
    RunsSInv(orphans, s, n);
    StreamedTo(s, t, k, src);
  }

  lemma StreamedTo(s: State, t: State, k: nat, src: Source)
    requires SInv(s) && s.egress.Poll? && s.life.p.os.child.Running? && Can(s, EgressStep)
    requires Continues(Next(s, EgressStep), t, k) && (t.egress.LoopTest? || t.egress.LookAtClock?)
    ensures SInv(t) && Life.Written(s.life, src) <= OutOf(t.sent, src) == Life.ReadSoFar(t.life, src)
  {
    hide Continues;
    StepKeepsSInv(s, EgressStep);
    StillRunning(s);
    var out, err := Life.Written(s.life, Stdout), Life.Written(s.life, Stderr);
    RunCarries(Next(s, EgressStep), t, k, out, err);
    hide Next, HandlerInv, EndInv, FlagInv, TraceInv, DrainInv, InputInv;
    NothingInHand(t);
  }

  lemma StillRunning(s: State)
    requires SInv(s) && s.egress.Poll? && s.life.p.os.child.Running? && Can(s, EgressStep)
    ensures var t := Next(s, EgressStep);
            && t.egress.ReadOut? && t.life.p.os.child.Running? && t.life.p == s.life.p
            && Carrying(t, Life.Written(s.life, Stdout), Life.Written(s.life, Stderr))
  {
    hide EndInv, FlagInv, TraceInv, DrainInv, InputInv, OutputInv, Life.Accounted, Life.ClockInv, Life.StreamInv;
  }

  lemma NothingInHand(s: State)
    requires OutputInv(s) && (s.egress.LoopTest? || s.egress.LookAtClock?)
    ensures forall src :: OutOf(s.sent, src) == Life.ReadSoFar(s.life, src)
  {
    assert OutOf(s.sent, Stdout) + Pending(s.egress, Stdout) == Life.ReadSoFar(s.life, Stdout);
    assert OutOf(s.sent, Stderr) + Pending(s.egress, Stderr) == Life.ReadSoFar(s.life, Stderr);
    assert Pending(s.egress, Stdout) == Pending(s.egress, Stderr) == [];
    hide *;
    forall src
      ensures OutOf(s.sent, src) == Life.ReadSoFar(s.life, src)
    {
      assert OutOf(s.sent, src) + [] == OutOf(s.sent, src);
    }
  }

  /** And the thread does get there: five steps of its own after the poll. */
  lemma RoundEnds(orphans: bool, s: State, n: nat) returns (t: State)
    requires Runs(orphans, s, n) && s.egress.Poll? && s.life.p.os.child.Running? && Can(s, EgressStep)
    ensures Continues(Next(s, EgressStep), t, 4) && t.egress.LoopTest?
    ensures forall src :: Life.Written(s.life, src) <= OutOf(t.sent, src)
  {
    hide SInv, Next, Runs, Can, Life.Written, OutOf, Carrying, Continues;
    RunsSInv(orphans, s, n);
    StepKeepsSInv(s, EgressStep);
    StillRunning(s);
    t := FourSteps(Next(s, EgressStep));
    forall src
      ensures Life.Written(s.life, src) <= OutOf(t.sent, src)
    {
      OutputIsStreamed(orphans, s, n, t, 4, src);
    }
  }

  lemma FourSteps(s: State) returns (t: State)
    requires SInv(s) && s.egress.ReadOut?
    ensures Continues(s, t, 4) && t.egress.LoopTest?
  {
    hide SInv, Continues, EgressDoes;
    NoneYet(s);
    t := InTheRound(s, s, 0);
    t := InTheRound(s, t, 1);
    t := InTheRound(s, t, 2);
    t := InTheRound(s, t, 3);
  }

  lemma InTheRound(from: State, s: State, k: nat) returns (t: State)
    requires Continues(from, s, k) && SInv(s)
    requires s.egress.ReadOut? || s.egress.SendOut? || s.egress.ReadErr? || s.egress.SendErr?
    ensures Continues(from, t, k + 1) && SInv(t)
    ensures s.egress.ReadOut? ==> t.egress.SendOut?
    ensures s.egress.SendOut? ==> t.egress.ReadErr?
    ensures s.egress.ReadErr? ==> t.egress.SendErr?
    ensures s.egress.SendErr? ==> t.egress.LoopTest?
  {
    hide SInv, Continues, EgressCan, EgressDoes;
    CanGo(s);
    RoundPc(s);
    t := EgressGoes(from, s, k);
  }

  lemma NoneYet(s: State)
    ensures Continues(s, s, 0)
  {
    R.Stay(EngineSession.Moves, s);
  }

  /** Inside its loop the thread is never held up. */
  lemma EgressGoes(from: State, s: State, k: nat) returns (t: State)
    requires Continues(from, s, k) && SInv(s) && EgressCan(s)
    ensures Continues(from, t, k + 1) && SInv(t) && t == EgressDoes(s)
  {
    StepKeepsSInv(s, EgressStep);
    t := Next(s, EgressStep);
    assert t == EgressDoes(s);
    hide SInv, Next, EgressDoes, EgressCan;
    R.Extend(EngineSession.Moves, from, s, k, EgressStep, t);
  }

  lemma CanGo(s: State)
    requires SInv(s) && !s.egress.Finished?
    ensures EgressCan(s)
  {
    hide EndInv, FlagInv, TraceInv, OutputInv, DrainInv, InputInv, Life.Inv;
  }

  // ---------- who writes is not idle ----------

  /** Nothing of the stream has been read since, or else there was activity. */
  predicate QuietSince(u: State, s: State, src: Source) {
    && u.life.p.os.now <= s.life.p.os.now
    && Life.Written(u.life, src) <= Life.Written(s.life, src)
    && (Life.ReadSoFar(s.life, src) == Life.ReadSoFar(u.life, src) || s.life.p.lastIo >= u.life.p.os.now)
  }

  lemma GrowsQuiet(u: State, s: State, t: State, src: Source)
    requires QuietSince(u, s, src) && Grows(s.life, t.life)
    ensures QuietSince(u, t, src)
  {
    assert Life.Written(s.life, src) <= Life.Written(t.life, src);
    PrefixTrans(Life.Written(u.life, src), Life.Written(s.life, src), Life.Written(t.life, src));
  }

  lemma {:induction false} RunQuiet(u: State, s: State, t: State, k: nat, src: Source)
    requires SInv(s) && QuietSince(u, s, src) && Continues(s, t, k)
    ensures SInv(t) && QuietSince(u, t, src)
    decreases k
  {
    hide SInv, Can, Next, Grows, QuietSince;
    if k == 0 {
      R.NoStep(EngineSession.Moves, s, t);
    } else {
      var before, step := R.LastStep(EngineSession.Moves, s, t, k);
      RunQuiet(u, s, before, k - 1, src);
      StepKeepsSInv(before, step);
      StepOfRunGrows(before, step);
      GrowsQuiet(u, before, t, src);
    }
  }

  /** The clock says "idle" only to a child that has been silent: if the last poll before that found
      it running, then from any moment within the last 15000 ms up to that poll it has written
      nothing, and all it had written before has been sent. */
  lemma SilentBeforeTimeout(orphans: bool, u: State, m: nat, s: State, j: nat, t: State, k: nat, src: Source)
    requires Runs(orphans, u, m) && Continues(u, s, j)
    requires s.egress.Poll? && s.life.p.os.child.Running? && Can(s, EgressStep)
    requires Continues(Next(s, EgressStep), t, k) && t.egress.LookAtClock? && RunningTimesOut(t.life.p)
    requires t.life.p.os.now - u.life.p.os.now <= 15_000 * MILLISECOND
    ensures Life.Written(s.life, src) == Life.Written(u.life, src) == OutOf(t.sent, src)
  {
    hide Continues, SInv, Can, Next;
    RunsSInv(orphans, u, m);
    RunQuiet(u, u, s, j, src);
    StepKeepsSInv(s, EgressStep);
    StepOfRunGrows(s, EgressStep);
    GrowsQuiet(u, s, Next(s, EgressStep), src);
    RunQuiet(u, Next(s, EgressStep), t, k, src);
    StreamedTo(s, t, k, src);
    ReadNoMore(u, src);
    var early, late, read, sent := Life.Written(u.life, src), Life.Written(s.life, src), Life.ReadSoFar(u.life, src),
      OutOf(t.sent, src);
    assert t.life.p.lastIo < u.life.p.os.now by {
      hide QuietSince;
      IdleMeans(t.life.p.os.now, t.life.p.lastIo, u.life.p.os.now);
    }
    assert Life.ReadSoFar(t.life, src) == read;
    assert sent == read && read <= early && early <= late && late <= sent;
    hide *;
    BothPrefixes(early, late);
    BothPrefixes(late, sent);
  }

  lemma BothPrefixes(x: Data, y: Data)
    requires x <= y && |y| <= |x|
    ensures x == y
  {
  }

  lemma IdleMeans(now: nat, lastIo: nat, since: nat)
    requires now >= lastIo && (now - lastIo) / MILLISECOND > IDLE_TIMEOUT_MS
    requires now - since <= IDLE_TIMEOUT_MS * MILLISECOND
    ensures lastIo < since
  {
  }

  lemma ReadNoMore(s: State, src: Source)
    requires SInv(s)
    ensures Life.ReadSoFar(s.life, src) <= Life.Written(s.life, src)
  {
    hide EndInv, FlagInv, TraceInv, DrainInv, InputInv, OutputInv, Life.Accounted, Life.ClockInv, Life.ChildInv;
    ReadIsPrefix(s.life, src);
  }

  // ---------- the verdict comes ----------

  /** The steps from the final test to the verdict. */
  function StepsLeft(e: Egress): nat {
    match e
    case FinalTest => 9
    case FinalReadOut => 8
    case FinalReadErr(_) => 7
    case FinalSendOut(_, _) => 6
    case FinalSendErr(_) => 5
    case AskTimedOut => 4
    case AskCode(_) => 3
    case AskMemory(_) => 2
    case SendVerdict(_) => 1
    case _ => 0
  }

  /** From the final test on, the thread's own steps lead to the verdict. */
  lemma {:induction false} ReachesVerdict(from: State, s: State, k: nat) returns (t: State, m: nat)
    requires Continues(from, s, k) && SInv(s) && StepsLeft(s.egress) > 0 && s.active
    ensures Continues(from, t, m) && SInv(t) && HasVerdict(t.sent) && SameVerdict(s.life, t.life)
    decreases StepsLeft(s.egress)
  {
    assert !s.egress.Finished?;
    CanGo(s);
    NearerToVerdict(s);
    hide SInv, StepsLeft, EgressCan, EgressDoes, HasVerdict, SameVerdict, Continues;
    t := EgressGoes(from, s, k);
    m := k + 1;
    if !s.egress.SendVerdict? {
      ghost var next := t;
      t, m := ReachesVerdict(from, next, k + 1);
      SameVerdictTrans(s.life, next.life, t.life);
    }
  }

  lemma SameVerdictTrans(l: Life.Life, m: Life.Life, o: Life.Life)
    requires SameVerdict(l, m) && SameVerdict(m, o)
    ensures SameVerdict(l, o)
  {
  }

  lemma NearerToVerdict(s: State)
    requires SInv(s) && EgressCan(s) && StepsLeft(s.egress) > 0 && s.active
    ensures var t := EgressDoes(s);
            && SameVerdict(s.life, t.life) && t.active
            && if s.egress.SendVerdict? then HasVerdict(t.sent)
               else 0 < StepsLeft(t.egress) < StepsLeft(s.egress)
  {
    hide OutputInv, DrainInv, InputInv, FlagInv, Life.Inv;
    EgressDoesLife(s);
    EgressAct(s.life, s.egress);
    FinalActs(s.life, s.egress);
    FinalPcs(s);
    hide EgressDoes, After;
    EgressKeepsTrace(s);
    if s.egress.SendVerdict? {
      NextPcTrace(s);
    }
  }

  lemma FinalActs(l: Life.Life, e: Egress)
    requires !l.destroyed && StepsLeft(e) > 0
    ensures Acts(e).None? || Acts(e).step.Read?
  {
  }

  lemma FinalPcs(s: State)
    requires EgressCan(s) && StepsLeft(s.egress) > 0 && s.active
    ensures var t := EgressDoes(s);
            && t.active && (s.egress.SendVerdict? <==> t.egress.ClearActive?)
            && (!s.egress.SendVerdict? ==> 0 < StepsLeft(t.egress) < StepsLeft(s.egress))
  {
    hide After, Says, ReadGives;
  }

  /** At the head of the loop, with a child that has ended by itself or has been idle for too long:
      the thread's own steps lead to the verdict, and to the right one. */
  lemma VerdictComes(orphans: bool, s: State, n: nat) returns (t: State, m: nat)
    requires Runs(orphans, s, n) && s.active && s.egress.LoopTest?
    requires RunningTimesOut(s.life.p) || s.life.p.os.child.Zombie?
    ensures Continues(s, t, m) && HasVerdict(t.sent)
    ensures var verdict := t.sent[|t.sent| - 1];
            if RunningTimesOut(s.life.p) then verdict == Timeout(999)
            else var status := s.life.p.os.child.status;
                 verdict == Completed(CodeOf(status), status == Signaled(SIGKILL))
  {
    RunsSInv(orphans, s, n);
    hide Runs, SInv, EgressCan, EgressDoes, HasVerdict, SameVerdict, Continues, RunningTimesOut;
    NoneYet(s);
    CanGo(s);
    LoopGoesOn(s);
    t := EgressGoes(s, s, 0);
    CanGo(t);
    LooksAtClock(t);
    t := EgressGoes(s, t, 1);
    m := 2;
    CanGo(t);
    if RunningTimesOut(s.life.p) {
      Kills(t);
      t := EgressGoes(s, t, 2);
      m := 3;
      CanGo(t);
    }
    Polls(t);
    ghost var polled := EgressDoes(t);
    t := EgressGoes(s, t, m);
    t, m := ReachesVerdict(s, t, m + 1);
    GivenVerdict(polled.life, t);
  }

  lemma LoopGoesOn(s: State)
    requires EgressCan(s) && s.active && s.egress.LoopTest?
    ensures EgressDoes(s).egress.LookAtClock? && EgressDoes(s).active && EgressDoes(s).life == s.life
  {
  }

  lemma LooksAtClock(s: State)
    requires SInv(s) && EgressCan(s) && s.active && s.egress.LookAtClock?
    ensures var t := EgressDoes(s);
            && t.life.p == s.life.p && t.active && !s.life.p.exited && !s.life.p.memoryLimitExceeded
            && (if RunningTimesOut(s.life.p) then t.egress.KillIdle? && t.life.timedOut
                else t.egress.Poll? && !t.life.timedOut)
  {
    hide FlagInv, TraceInv, OutputInv, DrainInv, InputInv, TimedOut, Life.ClockInv, Life.StreamInv, Life.Accounted;
  }

  lemma Kills(s: State)
    requires SInv(s) && EgressCan(s) && s.active && s.egress.KillIdle? && !s.life.p.exited
    ensures var t := EgressDoes(s);
            && t.egress.Poll? && t.active && t.life.p.exited && t.life.p.exitCode == TERMINATED
            && t.life.timedOut == s.life.timedOut
  {
    hide FlagInv, TraceInv, OutputInv, DrainInv, InputInv, EndInv, Life.ClockInv, Life.StreamInv, Life.Accounted;
  }

  lemma Polls(s: State)
    requires SInv(s) && EgressCan(s) && s.active && s.egress.Poll?
    requires s.life.p.exited || (s.life.p.os.child.Zombie? && !s.life.p.memoryLimitExceeded)
    ensures var t := EgressDoes(s);
            && t.egress.FinalTest? && t.active && t.life.timedOut == s.life.timedOut
            && (s.life.p.exited ==> t.life.p == s.life.p)
            && (!s.life.p.exited ==>
                  var status := s.life.p.os.child.status;
                  && t.life.p.exitCode == CodeOf(status)
                  && (t.life.p.memoryLimitExceeded <==> status == Signaled(SIGKILL)))
  {
    hide FlagInv, TraceInv, OutputInv, DrainInv, InputInv, EndInv, Life.ClockInv, Life.StreamInv, Life.Accounted;
  }

  lemma GivenVerdict(l: Life.Life, s: State)
    requires SInv(s) && HasVerdict(s.sent) && SameVerdict(l, s.life)
    ensures s.sent[|s.sent| - 1] == Verdict(l)
  {
    hide HandlerInv, FlagInv, TraceInv, OutputInv, DrainInv, InputInv;
  }

  /** The child has exited, unnoticed, and has not been idle for long. */
  predicate JustExited(l: Life.Life) {
    && l.p.spawned && l.p.pid > 0 && !l.p.exited && l.p.os.child == Zombie(Exited(0))
    && !l.timedOut && l.p.lastIo == l.p.os.now
  }

  lemma ChildExitsAtOnce(orphans: bool)
    ensures var s, step := Init(orphans), World(ChildExits(Exited(0)));
            && Can(s, step) && JustExited(Next(s, step).life) && !Next(s, step).life.destroyed
            && Next(s, step) == s.(life := Next(s, step).life)
  {
    Life.SpawnTouches(Life.Born(orphans).p.os, 3, true);
    hide SpawnDoes;
  }

  lemma InitLoops(orphans: bool)
    ensures Init(orphans).egress.LoopTest? && Init(orphans).active
  {
    hide Life.Apply;
  }

  /** A child that has exited at once. */
  lemma SomeChildExits(orphans: bool) returns (s: State, n: nat)
    ensures Runs(orphans, s, n) && s.egress.LoopTest? && s.active && JustExited(s.life)
  {
    hide Runs, Init, Next, Can, JustExited, Life.Apply, RunningTimesOut, ExitedGives;
    ChildExitsAtOnce(orphans);
    InitRuns(orphans);
    InitLoops(orphans);
    s := Extend(orphans, Init(orphans), 0, World(ChildExits(Exited(0))));
    n := 1;
  }

  /** Not only are verdicts true and complete: they are given.  Some run ends with `completed`. */
  lemma SomeRunCompletes(orphans: bool) returns (s: State, n: nat)
    ensures Runs(orphans, s, n) && HasVerdict(s.sent) && s.sent[|s.sent| - 1].Completed?
  {
    hide Runs, HasVerdict, Continues, RunningTimesOut, JustExited;
    var before, m := SomeChildExits(orphans);
    NotIdleYet(before.life);
    s, n := VerdictComes(orphans, before, m);
    RunsOn(orphans, before, m, s, n);
    n := m + n;
  }

  lemma NotIdleYet(l: Life.Life)
    requires JustExited(l)
    ensures !RunningTimesOut(l.p) && l.p.os.child.Zombie?
  {
  }

  lemma RunsOn(orphans: bool, s: State, n: nat, t: State, k: nat)
    requires Runs(orphans, s, n) && Continues(s, t, k)
    ensures Runs(orphans, t, n + k)
  {
    hide Init;
    var start: State :| IsInit(orphans, start) && R.LeadsTo(EngineSession.Moves, start, s, n);
    R.Join(EngineSession.Moves, start, s, n, t, k);
  }

  // ---------- the end ----------

  predicate PastTerminate(i: Ingress) { i.Leaving? || i.Joining? || i.Done? }

  /** Once the client is gone, or the verdict has been given, both threads are on their way out. */
  predicate EndingInv(s: State) {
    && (s.gone ==> s.ingress.Failed? || (PastTerminate(s.ingress) && s.life.p.exited))
    && (s.egress.CloseSocket? ==> !s.active)
    && (s.egress.Finished? ==> !s.active && (s.gone || s.closed))
  }

  lemma StepKeepsEnding(s: State, step: Step)
    requires SInv(s) && Can(s, step) && EndingInv(s)
    ensures EndingInv(Next(s, step))
  {
    StepOfRunGrows(s, step);
    hide Grows, EndInv, TraceInv, OutputInv, DrainInv, InputInv, Life.Inv;
    assert s.life.p.exited ==> Next(s, step).life.p.exited by {
      GrowsExited(s.life, Next(s, step).life);
    }
    match step {
      case EgressStep => LastPcs(s);
      case IngressStep(written) => IngressEnds(s, written);
      case _ => hide Life.Apply;
    }
  }

  lemma GrowsExited(l: Life.Life, m: Life.Life)
    requires Grows(l, m)
    ensures l.p.exited ==> m.p.exited
  {
  }

  lemma LastPcs(s: State)
    requires EgressCan(s)
    ensures var t := EgressDoes(s);
            && (t.egress.CloseSocket? ==> s.egress.ClearActive?)
            && (t.egress.Finished? ==> (s.egress.FinalTest? && !s.active) || s.egress.CloseSocket?)
            && t.ingress == s.ingress && t.gone == s.gone && (t.active ==> s.active)
            && (s.egress.ClearActive? ==> !t.active)
            && (s.egress.CloseSocket? ==> t.closed) && (s.closed ==> t.closed)
  {
    hide After, Says, ReadGives, RunningTimesOut, ExitedGives;
  }

  lemma IngressEnds(s: State, written: bool)
    requires HandlerInv(s) && IngressCan(s)
    ensures var t := IngressDoes(s, written);
            && t.egress == s.egress && t.gone == s.gone && t.closed == s.closed && (t.active ==> s.active)
            && (PastTerminate(s.ingress) ==> PastTerminate(t.ingress))
            && (s.ingress.Failed? ==> t.ingress.Leaving? && t.life.p.exited)
            && (!s.ingress.Failed? && !PastTerminate(s.ingress) ==> !t.ingress.Failed?)
  {
    hide CloseEnd, CloseAll, Life.Accounted, Life.ClockInv, Life.StreamInv;
  }

  lemma {:induction false} RunsEnding(orphans: bool, s: State, n: nat)
    requires Runs(orphans, s, n)
    ensures SInv(s) && EndingInv(s)
    decreases n
  {
    hide Runs, SInv, Can, Next, EndingInv;
    if n == 0 {
      NoStep(orphans, s);
      InitSInv(orphans);
      InitEnding(orphans);
    } else {
      var before, step := LastStep(orphans, s, n);
      RunsEnding(orphans, before, n - 1);
      StepKeepsSInv(before, step);
      StepKeepsEnding(before, step);
    }
  }

  lemma InitEnding(orphans: bool)
    ensures EndingInv(Init(orphans))
  {
    hide Life.Apply;
  }

  /** A client that hangs up leaves no process behind: when the ingress loop is past its `terminate`,
      the child is dead and reaped, whatever the egress thread is doing. */
  lemma HangUpKills(orphans: bool, s: State, n: nat)
    requires Runs(orphans, s, n) && s.gone && !s.ingress.Failed?
    ensures s.life.p.os.child.Reaped?
  {
    hide Runs;
    RunsEnding(orphans, s, n);
    hide EndInv, FlagInv, TraceInv, OutputInv, DrainInv, InputInv, Life.Accounted, Life.ClockInv, Life.StreamInv;
  }

  /** The handler never hangs: as long as it is not done one of the two threads can move, or else
      the loop is in a read that fails at once, because the engine has closed the socket. */
  lemma HandlerNeverHangs(orphans: bool, s: State, n: nat)
    requires Runs(orphans, s, n) && !s.ingress.Done?
    ensures EgressCan(s) || IngressCan(s) || (s.ingress.Reading? && s.closed)
    ensures s.egress.Finished? && !s.gone ==> HasVerdict(s.sent) && s.closed
  {
    hide Runs;
    RunsEnding(orphans, s, n);
    hide EndInv, TraceInv, OutputInv, DrainInv, InputInv, Life.Inv;
  }

  // ---------- what the messages ask for ----------

  /** Taken as raw text: not JSON, or a field of the wrong type before anything was done. */
  predicate IsRaw(m: ClientMessage) {
    m.NotJson?
    || (m.Object? && (m.stdinData.IllTyped? || (m.stdinData.Absent? && m.closeStdin.IllTyped?)))
  }

  predicate AllRaw(ms: seq<ClientMessage>) { forall i :: 0 <= i < |ms| ==> IsRaw(ms[i]) }

  /** Each text with its newline. */
  function Lines(ms: seq<ClientMessage>): Data
    requires AllRaw(ms)
  {
    if |ms| == 0 then [] else Lines(ms[..|ms| - 1]) + ms[|ms| - 1].text + [NEWLINE]
  }

  predicate SomeShut(ops: seq<Op>) { exists i :: 0 <= i < |ops| && ops[i].Shut? }

  lemma FedLast(ops: seq<Op>, data: Data)
    ensures AllData(ops + [Feed(data)]) == AllData(ops) + data
    ensures SomeShut(ops + [Feed(data)]) <==> SomeShut(ops)
  {
    var more := ops + [Feed(data)];
    assert more[..|ops|] == ops;
    if SomeShut(ops) {
      var i :| 0 <= i < |ops| && ops[i].Shut?;
      assert more[i].Shut?;
    }
  }

  lemma RawIsFed(m: ClientMessage)
    requires IsRaw(m)
    ensures Ops(m) == [Feed(m.text + [NEWLINE])]
  {
  }

  lemma {:induction false} RawOps(ms: seq<ClientMessage>)
    requires AllRaw(ms)
    ensures AllData(AllOps(ms)) == Lines(ms) && !SomeShut(AllOps(ms))
    decreases |ms|
  {
    if |ms| > 0 {
      var before, m := ms[..|ms| - 1], ms[|ms| - 1];
      RawOps(before);
      FedLast(AllOps(before), m.text + [NEWLINE]);
      RawIsFed(m);
      hide AllData, SomeShut, Ops, IsRaw;
      assert Lines(before) + (m.text + [NEWLINE]) == Lines(ms);
    }
  }

  /** A client that sends plain text: the program reads all of it, line by line. */
  lemma RawLinesArrive(orphans: bool, s: State, n: nat)
    requires Runs(orphans, s, n) && s.ingress.Test? && AllWritten(s.performed) && AllRaw(s.received)
    ensures s.life.p.os.input == Lines(s.received)
  {
    hide Runs, AllData, AllOps, AllWritten, Lines;
    MessagesArriveWhole(orphans, s, n);
    RawOps(s.received);
  }

  /** Asks for the close of stdin, by itself or with its data. */
  predicate AsksToClose(m: ClientMessage) {
    m.Object? && !m.stdinData.IllTyped? && (m.stdinData.Is? || m.closeStdin == Is(true))
  }

  lemma {:induction false} ShutOps(ms: seq<ClientMessage>)
    ensures SomeShut(AllOps(ms)) <==> exists i :: 0 <= i < |ms| && AsksToClose(ms[i])
    decreases |ms|
  {
    if |ms| > 0 {
      var before, m := ms[..|ms| - 1], ms[|ms| - 1];
      ShutOps(before);
      OpsShut(m);
      ShutInEither(AllOps(before), Ops(m));
      hide AsksToClose, SomeShut, Ops;
      assert forall i :: 0 <= i < |before| ==> before[i] == ms[i];
    }
  }

  lemma OpsShut(m: ClientMessage)
    ensures SomeShut(Ops(m)) <==> AsksToClose(m)
  {
    if m.Object? && !m.stdinData.IllTyped? {
      if m.stdinData.Is? {
        assert Ops(m)[1].Shut?;
      } else if m.closeStdin == Is(true) {
        assert Ops(m)[0].Shut?;
      }
    }
  }

  lemma ShutInEither(xs: seq<Op>, ys: seq<Op>)
    ensures SomeShut(xs + ys) <==> SomeShut(xs) || SomeShut(ys)
  {
    var zs := xs + ys;
    if SomeShut(xs) {
      var i :| 0 <= i < |xs| && xs[i].Shut?;
      assert zs[i].Shut?;
    }
    if SomeShut(ys) {
      var i :| 0 <= i < |ys| && ys[i].Shut?;
      assert zs[|xs| + i].Shut?;
    }
  }

  /** The program sees the end of its input if and only if a message has asked for it. */
  lemma InputEndsOnRequest(orphans: bool, s: State, n: nat)
    requires Runs(orphans, s, n) && s.ingress.Test?
    ensures s.life.p.stdin.writeEnd < 0 <==> exists i :: 0 <= i < |s.received| && AsksToClose(s.received[i])
  {
    hide Runs, AllOps, AsksToClose;
    RunsSInv(orphans, s, n);
    ShutOps(s.received);
    hide EndInv, FlagInv, TraceInv, OutputInv, DrainInv, Life.Inv, SomeShut, HasShut, Fed;
    assert AllOps(s.received) == Firsts(s.performed);
    SameShut(s.performed);
  }

  lemma SameShut(ops: seq<(Op, bool)>)
    ensures HasShut(ops) <==> SomeShut(Firsts(ops))
  {
    var firsts := Firsts(ops);
    assert forall i :: 0 <= i < |ops| ==> firsts[i] == ops[i].0;
    if HasShut(ops) {
      var i :| 0 <= i < |ops| && ops[i].0.Shut?;
      assert firsts[i].Shut?;
    }
  }

  /** The ingress loop moves, and the pipe takes what it writes. */
  lemma IngressGoes(orphans: bool, s: State, n: nat) returns (t: State)
    requires Runs(orphans, s, n) && (s.ingress.Test? || s.ingress.Performing?)
    ensures IngressCan(s) && Runs(orphans, t, n + 1) && t == IngressDoes(s, true)
  {
    RunsSInv(orphans, s, n);
    hide Runs, IngressDoes, EgressCan, EndInv, FlagInv, TraceInv, OutputInv, DrainInv, InputInv, Life.Inv;
    t := Extend(orphans, s, n, IngressStep(true));
  }

  lemma {:induction false} PerformsAll(orphans: bool, s: State, n: nat) returns (t: State, m: nat)
    requires Runs(orphans, s, n) && s.ingress.Performing? && s.active && AllWritten(s.performed)
    ensures Runs(orphans, t, m) && t.ingress.Test? && t.active && AllWritten(t.performed) && t.received == s.received
    decreases |s.ingress.ops|
  {
    hide Runs, Life.Apply;
    t := IngressGoes(orphans, s, n);
    m := n + 1;
    if s.ingress.ops != [] {
      t, m := PerformsAll(orphans, t, m);
    }
  }

  /** Whatever a client sends, the engine can take it all: for any messages, in any number, there is
      a run in which the loop has received and performed exactly these. */
  lemma {:induction false} AnyMessagesTaken(orphans: bool, ms: seq<ClientMessage>) returns (s: State, n: nat)
    ensures Runs(orphans, s, n) && s.received == ms
    ensures s.ingress.Test? && s.active && AllWritten(s.performed)
    decreases |ms|
  {
    hide Runs, Life.Apply;
    if ms == [] {
      InitRuns(orphans);
      s, n := Init(orphans), 0;
    } else {
      s, n := AnyMessagesTaken(orphans, ms[..|ms| - 1]);
      s := IngressGoes(orphans, s, n);
      s := Extend(orphans, s, n + 1, Receive(ms[|ms| - 1]));
      s, n := PerformsAll(orphans, s, n + 2);
      assert ms[..|ms| - 1] + [ms[|ms| - 1]] == ms;
    }
  }
}
