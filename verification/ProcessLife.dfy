/** A `ProcessPipe` from construction to destruction: every sequence of calls on it, with
    anything the child and the clock may do in between. */
module ProcessLife {
  import opened Bytes
  import opened Posix
  import opened ProcessPipe
  import Runs

  datatype Step =
    | Outside(event: Event)
    | Spawn(pipes: nat, forked: bool)
    | Write(data: Data, written: bool)
    | CloseStdin
    | Read(src: Source)
    | HasExited
    | CheckIdle                         // is_running's look at the clock
    | Terminate
    | Destroy

  /** When the session decided that the child had timed out, and how many I/O events it had
      seen by then. */
  datatype Firing = NotYet | At(time: nat, events: nat)

  datatype Life = Life(
    p: Proc,
    spawnTried: bool,
    destroyed: bool,
    timedOut: bool,
    readOut: Data,      // everything read_stdout has returned
    readErr: Data,
    io: seq<nat>,       // times of the spawn, of every non-empty read and every accepted write
    fired: Firing)

  function Born(orphans: bool): Life {
    Life(Fresh(BOOT.(orphans := orphans)), false, false, false, [], [], [], NotYet)
  }

  predicate Enabled(l: Life, s: Step) {
    match s
    case Outside(e) => MayHappen(l.p.os, e)
    case Spawn(pipes, _) => !l.destroyed && !l.spawnTried && pipes <= 3
    case _ => !l.destroyed
  }

  function Apply(l: Life, s: Step): Life
    requires Enabled(l, s)
  {
    match s
    case Outside(e) => l.(p := l.p.(os := Happen(l.p.os, e)))
    case Spawn(pipes, forked) =>
      var q := SpawnDoes(l.p, pipes, forked);
      l.(p := q, spawnTried := true, io := if q.spawned then l.io + [q.os.now] else l.io)
    case Write(data, written) =>
      l.(p := WriteDoes(l.p, data, written), io := if Accepts(l.p) then l.io + [l.p.os.now] else l.io)
    case CloseStdin => l.(p := CloseStdinDoes(l.p))
    case Read(src) => ApplyRead(l, src)
    case HasExited => l.(p := HasExitedDoes(l.p))
    case CheckIdle => ApplyCheck(l)
    case Terminate => l.(p := TerminateDoes(l.p))
    case Destroy => l.(p := DestroyDoes(l.p), destroyed := true)
  }

  function ApplyRead(l: Life, src: Source): Life {
    var data := ReadGives(l.p, src);
    l.(p := ReadDoes(l.p, src),
       readOut := if src == Stdout then l.readOut + data else l.readOut,
       readErr := if src == Stderr then l.readErr + data else l.readErr,
       io := if data == [] then l.io else l.io + [l.p.os.now])
  }

  /** The look at the clock alone. */
  function ApplyCheck(l: Life): Life {
    l.(timedOut := l.timedOut || RunningTimesOut(l.p),
       fired := if !l.timedOut && RunningTimesOut(l.p) then At(l.p.os.now, |l.io|) else l.fired)
  }

  /** A whole undisturbed call of `is_running`. */
  function ApplyRunning(l: Life): Life { ApplyCheck(l).(p := RunningDoes(l.p)) }

  ghost predicate Moves(before: Life, s: Step, after: Life) { Enabled(before, s) && after == Apply(before, s) }

  /** n steps lead from one state to another. */
  ghost predicate LeadsTo(from: Life, to: Life, n: nat) { Runs.LeadsTo(Moves, from, to, n) }

  ghost predicate Reachable(orphans: bool, l: Life, n: nat) { LeadsTo(Born(orphans), l, n) }

  // ---------- descriptors ----------

  function Is(end: int, fd: nat): nat { if end == fd then 1 else 0 }

  /** How many of the six fields hold descriptor fd. */
  function Holders(p: Proc, fd: nat): nat {
    Is(p.stdin.readEnd, fd) + Is(p.stdin.writeEnd, fd) + Is(p.stdout.readEnd, fd) + Is(p.stdout.writeEnd, fd)
    + Is(p.stderr.readEnd, fd) + Is(p.stderr.writeEnd, fd)
  }

  /** How often descriptor fd has been closed or is still to be closed. */
  function Uses(p: Proc, fd: nat): nat { multiset(p.os.closes)[fd] + Holders(p, fd) }

  /** Each created descriptor is open in exactly one field, or has been closed exactly once. */
  ghost predicate Accounted(p: Proc) {
    && forall fd: nat :: Uses(p, fd) == if fd < p.os.nextFd then 1 else 0
  }

  lemma CloseKeepsUses(p: Proc, e: End, fd: nat)
    ensures Uses(CloseEnd(p, e), fd) == Uses(p, fd)
    ensures CloseEnd(p, e).os.nextFd == p.os.nextFd
  {
    if EndOf(p, e) >= 0 {
      assert multiset(p.os.closes + [EndOf(p, e)]) == multiset(p.os.closes) + multiset{EndOf(p, e)};
    }
  }

  lemma CloseAccounted(p: Proc, e: End)
    requires Accounted(p)
    ensures Accounted(CloseEnd(p, e))
  {
    hide Uses, CloseEnd;
    forall fd: nat
      ensures Uses(CloseEnd(p, e), fd) == if fd < CloseEnd(p, e).os.nextFd then 1 else 0
    {
      CloseKeepsUses(p, e, fd);
    }
  }

  lemma CloseAllAccounted(p: Proc)
    requires Accounted(p)
    ensures Accounted(CloseAll(p))
  {
    hide CloseEnd, Accounted;
    var a := CloseEnd(p, StdinRead);
    CloseAccounted(p, StdinRead);
    var b := CloseEnd(a, StdinWrite);
    CloseAccounted(a, StdinWrite);
    var c := CloseEnd(b, StdoutRead);
    CloseAccounted(b, StdoutRead);
    var d := CloseEnd(c, StdoutWrite);
    CloseAccounted(c, StdoutWrite);
    var e := CloseEnd(d, StderrRead);
    CloseAccounted(d, StderrRead);
    CloseAccounted(e, StderrWrite);
  }

  lemma OpenPipesAccounted(os: Os, pipes: nat)
    requires pipes <= 3 && Accounted(Fresh(os))
    ensures Accounted(OpenPipes(Fresh(os), pipes))
  {
    var q := OpenPipes(Fresh(os), pipes);
    forall fd: nat
      ensures Uses(q, fd) == if fd < q.os.nextFd then 1 else 0
    {
      assert Uses(Fresh(os), fd) == if fd < os.nextFd then 1 else 0;
    }
  }

  /** The account does not look at the other fields. */
  lemma SameAccount(p: Proc, q: Proc)
    requires p.stdin == q.stdin && p.stdout == q.stdout && p.stderr == q.stderr
    requires p.os.closes == q.os.closes && p.os.nextFd == q.os.nextFd
    ensures Accounted(p) <==> Accounted(q)
  {
    assert forall fd: nat :: Uses(p, fd) == Uses(q, fd);
  }

  lemma SpawnAccounted(os: Os, pipes: nat, forked: bool)
    requires pipes <= 3 && Accounted(Fresh(os))
    ensures Accounted(SpawnDoes(Fresh(os), pipes, forked))
  {
    OpenPipesAccounted(os, pipes);
    var q := OpenPipes(Fresh(os), pipes);
    hide OpenPipes, CloseEnd, CloseAll, Accounted;
    if pipes == 3 {
      if forked {
        var a := q.(os := q.os.(child := Running));
        SameAccount(q, a);
        var b := CloseEnd(a, StdinRead);
        CloseAccounted(a, StdinRead);
        var c := CloseEnd(b, StdoutWrite);
        CloseAccounted(b, StdoutWrite);
        var d := CloseEnd(c, StderrWrite);
        CloseAccounted(c, StderrWrite);
        SameAccount(d, SpawnDoes(Fresh(os), pipes, forked));
      } else {
        SameAccount(q, q.(pid := -1));
        CloseAllAccounted(q.(pid := -1));
      }
    }
  }

  // ---------- child, clock and streams ----------

  ghost predicate ChildInv(p: Proc) {
    && (p.pid > 0 <==> !p.os.child.Unforked?)
    && (p.spawned <==> p.pid > 0)
    && (p.exited <==> p.os.child.Reaped?)
    && p.os.reaps == (if p.exited then 1 else 0)
    && |p.os.kills| <= p.os.reaps
    && (forall i :: 0 <= i < |p.os.kills| ==> p.os.kills[i].was.Running? || p.os.kills[i].was.Zombie?)
    && (p.exited ==> if p.os.kills == [] then Natural(p) else p.exitCode == TERMINATED && !p.memoryLimitExceeded)
    && (!p.exited ==> !p.memoryLimitExceeded)
  }

  /** The child ended by itself and its wait status was recorded. */
  ghost predicate Natural(p: Proc) {
    && p.os.child.Reaped?
    && p.exitCode == CodeOf(p.os.child.status)
    && (p.memoryLimitExceeded <==> p.os.child.status == Signaled(SIGKILL))
  }

  ghost predicate ClockInv(l: Life) {
    && (if l.p.spawned then |l.io| > 0 && l.io[|l.io| - 1] == l.p.lastIo <= l.p.os.now else l.io == [] && !l.timedOut)
    && (forall i :: 0 <= i < |l.io| ==> l.io[i] <= l.p.lastIo)
    && (l.timedOut <==> l.fired.At?)
    && (l.fired.At? ==>
          && 0 < l.fired.events <= |l.io|
          && forall i :: 0 <= i < l.fired.events ==>
               l.fired.time - l.io[i] >= (IDLE_TIMEOUT_MS + 1) * MILLISECOND)
  }

  ghost predicate StreamInv(l: Life) {
    && Sane(l.p.os)
    && l.readOut == l.p.os.out.written[..l.p.os.out.taken]
    && l.readErr == l.p.os.err.written[..l.p.os.err.taken]
    && (!l.p.spawned ==> l.p.os.out.written == l.p.os.err.written == [])
  }

  /** Before the spawn nothing has happened to the object; after the destructor nothing can. */
  ghost predicate PhaseInv(l: Life) {
    && (!l.spawnTried ==> l.p == Fresh(l.p.os))
    && (l.destroyed ==> AllShut(l.p) && (l.p.pid > 0 ==> l.p.exited))
    && (l.p.spawned && !l.destroyed ==> l.p.stdout.readEnd >= 0 && l.p.stderr.readEnd >= 0)
  }

  predicate AllShut(p: Proc) { forall e: End :: EndOf(p, e) < 0 }

  ghost predicate Inv(l: Life) {
    Accounted(l.p) && ChildInv(l.p) && ClockInv(l) && StreamInv(l) && PhaseInv(l)
  }

  // ---------- what one call leaves alone ----------

  lemma CloseTouches(p: Proc, e: End)
    ensures var q := CloseEnd(p, e);
            && q == p.(os := q.os, stdin := q.stdin, stdout := q.stdout, stderr := q.stderr)
            && q.os == p.os.(closes := q.os.closes)
    ensures EndOf(CloseEnd(p, e), e) < 0
    ensures forall d: End :: d != e ==> EndOf(CloseEnd(p, e), d) == EndOf(p, d)
    ensures EndOf(p, e) < 0 ==> CloseEnd(p, e) == p
  {
  }

  lemma CloseAllTouches(p: Proc)
    ensures var q := CloseAll(p);
            && q == p.(os := q.os, stdin := q.stdin, stdout := q.stdout, stderr := q.stderr)
            && q.os == p.os.(closes := q.os.closes)
            && AllShut(q)
            && (AllShut(p) ==> q == p)
  {
    hide CloseEnd, EndOf;
    var a := CloseEnd(p, StdinRead);
    CloseTouches(p, StdinRead);
    var b := CloseEnd(a, StdinWrite);
    CloseTouches(a, StdinWrite);
    var c := CloseEnd(b, StdoutRead);
    CloseTouches(b, StdoutRead);
    var d := CloseEnd(c, StdoutWrite);
    CloseTouches(c, StdoutWrite);
    var e := CloseEnd(d, StderrRead);
    CloseTouches(d, StderrRead);
    CloseTouches(e, StderrWrite);
  }

  /** Reading, polling, killing and the clock do not open or close descriptors. */
  lemma OthersKeepAccount(l: Life, s: Step)
    requires Enabled(l, s) && (s.Outside? || s.Write? || s.Read? || s.HasExited? || s.CheckIdle? || s.Terminate?)
    ensures Accounted(Apply(l, s).p) <==> Accounted(l.p)
  {
    SameAccount(l.p, Apply(l, s).p);
  }

  lemma StepKeepsAccount(l: Life, s: Step)
    requires Accounted(l.p) && PhaseInv(l) && Enabled(l, s)
    ensures Accounted(Apply(l, s).p)
  {
    hide Accounted, SpawnDoes, CloseEnd, CloseAll;
    match s {
      case Spawn(pipes, forked) => SpawnAccounted(l.p.os, pipes, forked);
      case CloseStdin => CloseAccounted(l.p, StdinWrite);
      case Destroy =>
        SameAccount(l.p, TerminateDoes(l.p));
        CloseAllAccounted(TerminateDoes(l.p));
      case _ => OthersKeepAccount(l, s);
    }
  }

  lemma SpawnTouches(os: Os, pipes: nat, forked: bool)
    requires pipes <= 3
    ensures var q := SpawnDoes(Fresh(os), pipes, forked);
            var ok := pipes == 3 && forked;
            && q == Proc(q.os, q.stdin, q.stdout, q.stderr, if ok then 1 else -1, ok, false, -1, false,
                         if ok then os.now else 0)
            && (ok ==> q.stdout.readEnd >= 0 && q.stderr.readEnd >= 0)
            && q.os == os.(child := if ok then Running else os.child, nextFd := q.os.nextFd, closes := q.os.closes)
  {
  }

  lemma StepKeepsChild(l: Life, s: Step)
    requires ChildInv(l.p) && PhaseInv(l) && Enabled(l, s)
    ensures ChildInv(Apply(l, s).p)
  {
    hide SpawnDoes, CloseEnd, CloseAll, Unread, Take;
    match s {
      case Spawn(pipes, forked) => SpawnTouches(l.p.os, pipes, forked);
      case CloseStdin => CloseTouches(l.p, StdinWrite);
      case Destroy => CloseAllTouches(TerminateDoes(l.p));
      case Read(src) => TakeTouches(l.p.os, src, |ReadGives(l.p, src)|);
      case _ =>
    }
  }

  lemma TakeTouches(os: Os, src: Source, n: nat)
    ensures var t := Take(os, src, n); t == os.(out := t.out, err := t.err)
  {
  }

  lemma StepKeepsClock(l: Life, s: Step)
    requires ClockInv(l) && ChildInv(l.p) && StreamInv(l) && PhaseInv(l) && Enabled(l, s)
    ensures ClockInv(Apply(l, s))
  {
    hide SpawnDoes, CloseEnd, CloseAll, Unread, Take, ChildInv, StreamInv;
    match s {
      case Spawn(pipes, forked) => SpawnTouches(l.p.os, pipes, forked);
      case CloseStdin => CloseTouches(l.p, StdinWrite);
      case Destroy => CloseAllTouches(TerminateDoes(l.p));
      case Read(src) =>
        if !l.p.spawned {
          NothingBeforeSpawn(l, src);
        }
        ReadKeepsClock(l, src);
      case _ =>
    }
  }

  lemma NothingBeforeSpawn(l: Life, src: Source)
    requires StreamInv(l) && !l.p.spawned
    ensures ReadGives(l.p, src) == []
  {
  }

  lemma ReadKeepsClock(l: Life, src: Source)
    requires ClockInv(l) && (!l.p.spawned ==> ReadGives(l.p, src) == [])
    ensures ClockInv(ApplyRead(l, src))
  {
    hide Unread, Take, ReadGives;
    if ReadGives(l.p, src) != [] {
      TakeTouches(l.p.os, src, |ReadGives(l.p, src)|);
      assert ApplyRead(l, src).io == l.io + [l.p.os.now];
    }
  }

  lemma StepKeepsStreams(l: Life, s: Step)
    requires StreamInv(l) && ChildInv(l.p) && PhaseInv(l) && Enabled(l, s)
    ensures StreamInv(Apply(l, s))
  {
    hide SpawnDoes, CloseEnd, CloseAll;
    match s {
      case Spawn(pipes, forked) => SpawnTouches(l.p.os, pipes, forked);
      case CloseStdin => CloseTouches(l.p, StdinWrite);
      case Destroy => CloseAllTouches(TerminateDoes(l.p));
      case Outside(e) => OutsideKeepsStreams(l, e);
      case Read(src) => ReadKeepsStreams(l, src);
      case _ =>
    }
  }

  lemma OutsideKeepsStreams(l: Life, e: Event)
    requires StreamInv(l) && MayHappen(l.p.os, e) && (!l.p.spawned ==> l.p.os.child.Unforked?)
    ensures StreamInv(Apply(l, Outside(e)))
  {
  }

  lemma ReadKeepsStreams(l: Life, src: Source)
    requires StreamInv(l)
    ensures StreamInv(ApplyRead(l, src))
  {
    var s := StreamOf(l.p.os, src);
    assert s.written[..s.taken] + s.written[s.taken..] == s.written[..|s.written|];
  }

  lemma StepKeepsPhase(l: Life, s: Step)
    requires ChildInv(l.p) && PhaseInv(l) && Enabled(l, s)
    ensures PhaseInv(Apply(l, s))
  {
    hide SpawnDoes, CloseAll, Unread, Take;
    match s {
      case Spawn(pipes, forked) => SpawnTouches(l.p.os, pipes, forked);
      case Outside(e) => assert forall e: End :: EndOf(Apply(l, s).p, e) == EndOf(l.p, e);
      case Destroy => CloseAllTouches(TerminateDoes(l.p));
      case _ =>
    }
  }

  lemma StepKeepsInv(l: Life, s: Step)
    requires Inv(l) && Enabled(l, s)
    ensures Inv(Apply(l, s)) && Apply(l, s).p.os.orphans == l.p.os.orphans
  {
    StepKeepsOrphans(l, s);
    hide Accounted, ChildInv, ClockInv, StreamInv, PhaseInv, Enabled, Apply;
    StepKeepsAccount(l, s);
    StepKeepsChild(l, s);
    StepKeepsClock(l, s);
    StepKeepsStreams(l, s);
    StepKeepsPhase(l, s);
  }

  lemma StepKeepsOrphans(l: Life, s: Step)
    requires PhaseInv(l) && Enabled(l, s)
    ensures Apply(l, s).p.os.orphans == l.p.os.orphans
  {
    hide SpawnDoes, CloseEnd, CloseAll, Unread, Take;
    match s {
      case Spawn(pipes, forked) => SpawnTouches(l.p.os, pipes, forked);
      case CloseStdin => CloseTouches(l.p, StdinWrite);
      case Destroy => CloseAllTouches(TerminateDoes(l.p));
      case Read(src) => TakeTouches(l.p.os, src, |ReadGives(l.p, src)|);
      case _ =>
    }
  }

  lemma {:induction false} RunKeepsInv(from: Life, to: Life, n: nat)
    requires LeadsTo(from, to, n) && Inv(from)
    ensures Inv(to) && to.p.os.orphans == from.p.os.orphans
    decreases n
  {
    hide Inv, Enabled, Apply;
    if n == 0 {
      Runs.NoStep(Moves, from, to);
    } else {
      var before, s := Runs.LastStep(Moves, from, to, n);
      RunKeepsInv(from, before, n - 1);
      StepKeepsInv(before, s);
    }
  }

  lemma ReachableInv(orphans: bool, l: Life, n: nat)
    requires Reachable(orphans, l, n)
    ensures Inv(l) && l.p.os.orphans == orphans
  {
    BornInv(orphans);
    hide Inv, LeadsTo;
    RunKeepsInv(Born(orphans), l, n);
  }

  lemma BornInv(orphans: bool)
    ensures Inv(Born(orphans))
  {
  }

  // ---------- descriptors and the child, over every life ----------

  /** No descriptor is closed twice, none is closed that was not created, and when the
      destructor is done every one created has been closed -- however many of the pipe(2) calls
      succeeded and whether or not the fork did. */
  lemma DescriptorsClosedOnce(orphans: bool, l: Life, n: nat, fd: nat)
    requires Reachable(orphans, l, n)
    ensures multiset(l.p.os.closes)[fd] <= if fd < l.p.os.nextFd then 1 else 0
    ensures l.destroyed && fd < l.p.os.nextFd ==> multiset(l.p.os.closes)[fd] == 1
    ensures !l.destroyed && fd < l.p.os.nextFd ==> multiset(l.p.os.closes)[fd] + Holders(l.p, fd) == 1
  {
    hide LeadsTo;
    ReachableInv(orphans, l, n);
    hide ChildInv, ClockInv, StreamInv;
    assert Uses(l.p, fd) == if fd < l.p.os.nextFd then 1 else 0;
    if l.destroyed {
      assert forall e: End :: EndOf(l.p, e) < 0;
      assert EndOf(l.p, StdinRead) < 0 && EndOf(l.p, StdinWrite) < 0 && EndOf(l.p, StdoutRead) < 0;
      assert EndOf(l.p, StdoutWrite) < 0 && EndOf(l.p, StderrRead) < 0 && EndOf(l.p, StderrWrite) < 0;
    }
  }

  /** The child is reaped at most once, exactly once by the end of the destructor if there is
      one, and was running or a zombie at every signal sent to it. */
  lemma ChildReapedOnce(orphans: bool, l: Life, n: nat)
    requires Reachable(orphans, l, n)
    ensures l.p.os.reaps <= 1
    ensures l.destroyed ==> l.p.os.reaps == if l.p.spawned then 1 else 0
    ensures l.destroyed && l.p.spawned ==> l.p.os.child.Reaped?
    ensures |l.p.os.kills| <= 1
    ensures forall i :: 0 <= i < |l.p.os.kills| ==> l.p.os.kills[i].was.Running? || l.p.os.kills[i].was.Zombie?
  {
    hide LeadsTo;
    ReachableInv(orphans, l, n);
    hide Accounted, ClockInv, StreamInv;
  }

  /** Once reaped: nothing about the child's end changes any more, and no signal is sent. */
  ghost predicate SameEnd(l: Life, m: Life) {
    && m.p.exited && m.p.exitCode == l.p.exitCode && m.p.memoryLimitExceeded == l.p.memoryLimitExceeded
    && m.p.os.child == l.p.os.child && m.p.os.reaps == l.p.os.reaps && m.p.os.kills == l.p.os.kills
  }

  lemma StepKeepsEnd(l: Life, s: Step)
    requires Inv(l) && Enabled(l, s) && l.p.exited
    ensures SameEnd(l, Apply(l, s))
  {
    hide Accounted, ClockInv, StreamInv, SpawnDoes, CloseEnd, CloseAll, Unread, Take;
    match s {
      case Spawn(pipes, forked) => SpawnTouches(l.p.os, pipes, forked);
      case CloseStdin => CloseTouches(l.p, StdinWrite);
      case Destroy => CloseAllTouches(TerminateDoes(l.p));
      case Read(src) => TakeTouches(l.p.os, src, |ReadGives(l.p, src)|);
      case _ =>
    }
  }

  /** `exit_code_` never changes once `exited_` is set, and the reaped child is never
      signalled or waited for again. */
  lemma {:induction false} ExitCodeFrozen(orphans: bool, l: Life, n: nat, m: Life, k: nat)
    requires Reachable(orphans, l, n) && l.p.exited && LeadsTo(l, m, k)
    ensures SameEnd(l, m)
    decreases k
  {
    hide Enabled, Apply, Inv;
    if k == 0 {
      Runs.NoStep(Moves, l, m);
    } else {
      var before, s := Runs.LastStep(Moves, l, m, k);
      ExitCodeFrozen(orphans, l, n, before, k - 1);
      ReachableInv(orphans, l, n);
      RunKeepsInv(l, before, k - 1);
      StepKeepsEnd(before, s);
    }
  }

  /** Where the exit code comes from: `TERMINATED` if the session killed the child, otherwise
      the wait status of a child that ended by itself. */
  lemma ExitCodeMeans(orphans: bool, l: Life, n: nat)
    requires Reachable(orphans, l, n) && l.p.exited
    ensures l.p.os.child.Reaped?
    ensures l.p.os.kills == [] ==> l.p.exitCode == CodeOf(l.p.os.child.status)
    ensures l.p.os.kills != [] ==> l.p.exitCode == TERMINATED
    ensures l.p.memoryLimitExceeded <==> l.p.os.kills == [] && l.p.os.child.status == Signaled(SIGKILL)
  {
    hide LeadsTo;
    ReachableInv(orphans, l, n);
    hide Accounted, ClockInv, StreamInv;
  }

  // ---------- the idle timeout ----------

  /** `is_running` times the session out exactly when the spawn, every non-empty read and
      every accepted write lie more than 15000 whole milliseconds back. */
  lemma TimesOutWhenIdle(orphans: bool, l: Life, n: nat)
    requires Reachable(orphans, l, n)
    ensures RunningTimesOut(l.p) <==>
            l.p.spawned && forall i :: 0 <= i < |l.io| ==> (l.p.os.now - l.io[i]) / MILLISECOND > 15_000
  {
    hide LeadsTo;
    ReachableInv(orphans, l, n);
    hide Accounted, ChildInv, StreamInv;
    if l.p.spawned {
      assert l.io[|l.io| - 1] == l.p.lastIo;
    }
  }

  /** Over every run: when `timed_out` is set, the call that set it found more than 15000 ms
      since the spawn and since all input and output up to then. */
  lemma IdleTimeoutSound(orphans: bool, l: Life, n: nat)
    requires Reachable(orphans, l, n) && l.timedOut
    ensures l.fired.At? && 0 < l.fired.events <= |l.io|
    ensures forall i :: 0 <= i < l.fired.events ==> l.fired.time - l.io[i] > 15_000 * MILLISECOND
  {
    hide LeadsTo;
    ReachableInv(orphans, l, n);
    hide Accounted, ChildInv, StreamInv;
  }

  // ---------- output ----------

  function ReadSoFar(l: Life, src: Source): Data {
    if src == Stdout then l.readOut else l.readErr
  }

  function Written(l: Life, src: Source): Data { StreamOf(l.p.os, src).written }

  /** Read and unread are all that was written, in order, at every point of every life. */
  lemma NothingLostInPipe(orphans: bool, l: Life, n: nat, src: Source)
    requires Reachable(orphans, l, n)
    ensures ReadSoFar(l, src) + Unread(l.p.os, src) == Written(l, src)
  {
    hide LeadsTo;
    ReachableInv(orphans, l, n);
    hide Accounted, ChildInv, ClockInv, PhaseInv;
    var s := StreamOf(l.p.os, src);
    assert s.written[..s.taken] + s.written[s.taken..] == s.written;
  }

  lemma ReadDrains(l: Life, src: Source)
    requires Inv(l) && l.p.spawned && !l.destroyed
    ensures ReadSoFar(ApplyRead(l, src), src) == Written(l, src)
    ensures Written(ApplyRead(l, src), src) == Written(l, src)
  {
    hide Accounted, ChildInv, ClockInv;
    var s := StreamOf(l.p.os, src);
    assert s.written[..s.taken] + s.written[s.taken..] == s.written;
  }

  lemma StepKeepsDrained(l: Life, s: Step, src: Source)
    requires Inv(l) && Enabled(l, s) && l.p.exited && !l.p.os.orphans && ReadSoFar(l, src) == Written(l, src)
    ensures Written(Apply(l, s), src) == Written(l, src) == ReadSoFar(Apply(l, s), src)
  {
    hide Accounted, ClockInv, SpawnDoes, CloseEnd, CloseAll;
    match s {
      case Spawn(pipes, forked) => SpawnTouches(l.p.os, pipes, forked);
      case CloseStdin => CloseTouches(l.p, StdinWrite);
      case Destroy => CloseAllTouches(TerminateDoes(l.p));
      case _ =>
    }
  }

  lemma {:induction false} StaysDrained(l: Life, m: Life, k: nat, src: Source)
    requires Inv(l) && l.p.exited && !l.p.os.orphans && ReadSoFar(l, src) == Written(l, src) && LeadsTo(l, m, k)
    ensures Inv(m) && m.p.exited && Written(m, src) == Written(l, src) == ReadSoFar(m, src)
    decreases k
  {
    hide Enabled, Apply, Inv, ReadSoFar, Written;
    if k == 0 {
      Runs.NoStep(Moves, l, m);
    } else {
      var before, s := Runs.LastStep(Moves, l, m, k);
      StaysDrained(l, before, k - 1, src);
      RunKeepsInv(l, before, k - 1);
      StepKeepsInv(before, s);
      StepKeepsEnd(before, s);
      StepKeepsDrained(before, s, src);
    }
  }

  /** `is_running` looks at the clock, kills the child if it has been idle, and polls. */
  lemma RunningIsThreeCalls(l: Life)
    requires l.p.spawned && !l.destroyed
    ensures var checked := Apply(l, CheckIdle);
            ApplyRunning(l) == Apply(if RunningTimesOut(l.p) then Apply(checked, Terminate) else checked, HasExited)
  {
  }

  lemma RunningKeepsInv(l: Life)
    requires Inv(l) && l.p.spawned && !l.destroyed
    ensures Inv(ApplyRunning(l)) && ApplyRunning(l).p.os.orphans == l.p.os.orphans
    ensures ApplyRunning(l).p.spawned && !ApplyRunning(l).destroyed
  {
    RunningIsThreeCalls(l);
    var checked := Apply(l, CheckIdle);
    hide Inv, ApplyRunning;
    StepKeepsInv(l, CheckIdle);
    if RunningTimesOut(l.p) {
      StepKeepsInv(checked, Terminate);
      StepKeepsInv(Apply(checked, Terminate), HasExited);
    } else {
      StepKeepsInv(checked, HasExited);
    }
  }

  /** After the spawn, `is_running` answers false if and only if the child has been reaped by
      the time it answers. */
  lemma NotRunningMeansReaped(orphans: bool, l: Life, n: nat)
    requires Reachable(orphans, l, n) && l.p.spawned
    ensures RunningGives(l.p) <==> !RunningDoes(l.p).os.child.Reaped?
    ensures RunningGives(l.p) <==> !RunningDoes(l.p).exited
  {
    hide LeadsTo;
    ReachableInv(orphans, l, n);
    hide Accounted, ClockInv, StreamInv;
  }

  lemma RunningWritesNothing(l: Life, src: Source)
    ensures Written(ApplyRunning(l), src) == Written(l, src)
  {
  }

  lemma StepKeepsWritten(l: Life, s: Step, src: Source)
    requires Inv(l) && Enabled(l, s) && l.p.exited && !l.p.os.orphans
    ensures Written(Apply(l, s), src) == Written(l, src) && Apply(l, s).p.spawned == l.p.spawned
  {
    hide Accounted, ClockInv, SpawnDoes, CloseEnd, CloseAll;
    match s {
      case Spawn(pipes, forked) => SpawnTouches(l.p.os, pipes, forked);
      case CloseStdin => CloseTouches(l.p, StdinWrite);
      case Destroy => CloseAllTouches(TerminateDoes(l.p));
      case _ =>
    }
  }

  /** Nobody is left to write. */
  lemma {:induction false} StaysWritten(l: Life, m: Life, k: nat, src: Source)
    requires Inv(l) && l.p.exited && !l.p.os.orphans && LeadsTo(l, m, k)
    ensures Inv(m) && m.p.exited && !m.p.os.orphans && m.p.spawned == l.p.spawned && Written(m, src) == Written(l, src)
    decreases k
  {
    hide Enabled, Apply, Inv, Written;
    if k == 0 {
      Runs.NoStep(Moves, l, m);
    } else {
      var before, s := Runs.LastStep(Moves, l, m, k);
      StaysWritten(l, before, k - 1, src);
      StepKeepsInv(before, s);
      StepKeepsEnd(before, s);
      StepKeepsWritten(before, s, src);
    }
  }

  /** When no descendant of the child holds its pipes: after `is_running` has answered false,
      one `read_fd`, then or later, returns the last byte there will ever be.  All reads after
      it return nothing, and what has been read is exactly what was written. */
  lemma DrainAfterExit(l: Life, n: nat, src: Source, a: Life, j: nat, m: Life, k: nat)
    requires Reachable(false, l, n) && l.p.spawned && !l.destroyed && !RunningGives(l.p)
    requires LeadsTo(ApplyRunning(l), a, j) && !a.destroyed
    requires LeadsTo(ApplyRead(a, src), m, k)
    ensures ReadSoFar(m, src) == Written(m, src) == Written(l, src)
  {
    hide Inv, LeadsTo, RunningGives, ApplyRunning, RunningDoes;
    ReachableInv(false, l, n);
    NotRunningMeansReaped(false, l, n);
    RunningKeepsInv(l);
    RunningExits(l);
    RunningWritesNothing(l, src);
    StaysWritten(ApplyRunning(l), a, j, src);
    ReadIsAStep(a, src);
    StepKeepsInv(a, Read(src));
    ReadDrains(a, src);
    StepKeepsEnd(a, Read(src));
    StaysDrained(ApplyRead(a, src), m, k, src);
  }

  lemma RunningExits(l: Life)
    ensures ApplyRunning(l).p == RunningDoes(l.p)
  {
  }

  lemma ReadIsAStep(l: Life, src: Source)
    requires !l.destroyed
    ensures Enabled(l, Read(src)) && Apply(l, Read(src)) == ApplyRead(l, src)
  {
  }

  /** The premise is needed: a surviving descendant can always write once more. */
  lemma OrphansWriteLate(l: Life, n: nat, data: Data)
    requires Reachable(true, l, n) && l.p.spawned && data != []
    ensures Enabled(l, Outside(WritesOut(data)))
    ensures ReadSoFar(Apply(l, Outside(WritesOut(data))), Stdout) != Written(Apply(l, Outside(WritesOut(data))), Stdout)
  {
    hide LeadsTo;
    ReachableInv(true, l, n);
    hide Accounted, ClockInv;
  }

  // ---------- input ----------

  lemma StepKeepsInputShut(l: Life, s: Step)
    requires Inv(l) && Enabled(l, s) && l.spawnTried && l.p.stdin.writeEnd < 0
    ensures Apply(l, s).p.os.input == l.p.os.input && Apply(l, s).p.stdin.writeEnd < 0 && Apply(l, s).spawnTried
  {
    hide Accounted, ClockInv, StreamInv, ChildInv, SpawnDoes, CloseEnd, CloseAll, Unread, Take;
    match s {
      case CloseStdin => CloseTouches(l.p, StdinWrite);
      case Destroy =>
        CloseAllTouches(TerminateDoes(l.p));
        assert EndOf(Apply(l, s).p, StdinWrite) < 0;
      case Read(src) => TakeTouches(l.p.os, src, |ReadGives(l.p, src)|);
      case _ =>
    }
  }

  /** After `close_stdin` the child's input is complete: nothing written later reaches it. */
  lemma {:induction false} InputEndsAtClose(orphans: bool, l: Life, n: nat, m: Life, k: nat)
    requires Reachable(orphans, l, n) && l.spawnTried && l.p.stdin.writeEnd < 0 && LeadsTo(l, m, k)
    ensures m.p.os.input == l.p.os.input && m.p.stdin.writeEnd < 0 && m.spawnTried
    decreases k
  {
    hide Enabled, Apply, Inv;
    if k == 0 {
      Runs.NoStep(Moves, l, m);
    } else {
      var before, s := Runs.LastStep(Moves, l, m, k);
      InputEndsAtClose(orphans, l, n, before, k - 1);
      ReachableInv(orphans, l, n);
      RunKeepsInv(l, before, k - 1);
      StepKeepsInputShut(before, s);
    }
  }
}
