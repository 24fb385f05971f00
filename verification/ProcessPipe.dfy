/** `ProcessPipe` and the liveness check of `InteractiveSession`, each method atomic.

    The first half says what one call does to the object and the operating system, as pure
    functions.  The class at the end is the C++ code, proved against them; module ProcessLife
    draws the consequences for every sequence of calls. */
module ProcessPipe {
  import opened Bytes
  import opened Posix

  const READ_BUFFER_SIZE: nat := 4096
  const IDLE_TIMEOUT_MS: nat := 15000
  const TERMINATED := 999

  /** One `int[2]`: read end, write end; -1 when closed. */
  datatype Ends = Ends(readEnd: int, writeEnd: int)

  const SHUT := Ends(-1, -1)

  datatype End = StdinRead | StdinWrite | StdoutRead | StdoutWrite | StderrRead | StderrWrite

  /** The private fields, and the part of the system they refer to. */
  datatype Proc = Proc(
    os: Os,
    stdin: Ends,
    stdout: Ends,
    stderr: Ends,
    pid: int,
    spawned: bool,
    exited: bool,
    exitCode: int,
    memoryLimitExceeded: bool,
    lastIo: nat)

  function Fresh(os: Os): Proc { Proc(os, SHUT, SHUT, SHUT, -1, false, false, -1, false, 0) }

  // ---------- one call at a time ----------

  function EndOf(p: Proc, e: End): int {
    match e
    case StdinRead => p.stdin.readEnd
    case StdinWrite => p.stdin.writeEnd
    case StdoutRead => p.stdout.readEnd
    case StdoutWrite => p.stdout.writeEnd
    case StderrRead => p.stderr.readEnd
    case StderrWrite => p.stderr.writeEnd
  }

  function ShutEnd(p: Proc, e: End): Proc {
    match e
    case StdinRead => p.(stdin := p.stdin.(readEnd := -1))
    case StdinWrite => p.(stdin := p.stdin.(writeEnd := -1))
    case StdoutRead => p.(stdout := p.stdout.(readEnd := -1))
    case StdoutWrite => p.(stdout := p.stdout.(writeEnd := -1))
    case StderrRead => p.(stderr := p.stderr.(readEnd := -1))
    case StderrWrite => p.(stderr := p.stderr.(writeEnd := -1))
  }

  function CloseEnd(p: Proc, e: End): Proc {
    if EndOf(p, e) >= 0 then ShutEnd(p.(os := CloseFd(p.os, EndOf(p, e))), e) else p
  }

  function CloseAll(p: Proc): Proc {
    CloseBoth(CloseBoth(CloseBoth(p, StdinRead, StdinWrite), StdoutRead, StdoutWrite), StderrRead, StderrWrite)
  }

  function CloseBoth(p: Proc, d: End, e: End): Proc { CloseEnd(CloseEnd(p, d), e) }

  function NewEnds(os: Os): Ends { Ends(os.nextFd, os.nextFd + 1) }
  function Piped(os: Os): Os { os.(nextFd := os.nextFd + 2) }

  /** The first `pipes` of the three pipe(2) calls succeed. */
  function OpenPipes(p: Proc, pipes: nat): Proc {
    var a := if pipes > 0 then p.(stdin := NewEnds(p.os), os := Piped(p.os)) else p;
    var b := if pipes > 1 then a.(stdout := NewEnds(a.os), os := Piped(a.os)) else a;
    if pipes > 2 then b.(stderr := NewEnds(b.os), os := Piped(b.os)) else b
  }

  /** How many of the three pipe(2) calls succeed. */
  function Granted(spare: nat): nat { if spare < 3 then spare else 3 }

  function SpawnDoes(p: Proc, pipes: nat, forked: bool): Proc {
    var q := OpenPipes(p, pipes);
    if pipes < 3 then q
    else if !forked then CloseAll(q.(pid := -1))
    else
      var r := CloseEnd(CloseEnd(CloseEnd(q.(os := q.os.(child := Running)), StdinRead), StdoutWrite), StderrWrite);
      r.(pid := 1, spawned := true, lastIo := r.os.now)
  }

  predicate Accepts(p: Proc) { p.spawned && p.stdin.writeEnd >= 0 }

  function WriteDoes(p: Proc, data: Data, written: bool): Proc {
    if !Accepts(p) then p
    else p.(lastIo := p.os.now, os := if written then p.os.(input := p.os.input + data) else p.os)
  }

  function CloseStdinDoes(p: Proc): Proc { CloseEnd(p, StdinWrite) }

  function ReadEndOf(p: Proc, src: Source): int {
    if src == Stdout then p.stdout.readEnd else p.stderr.readEnd
  }

  function ReadGives(p: Proc, src: Source): Data {
    if ReadEndOf(p, src) < 0 then [] else Unread(p.os, src)
  }

  function ReadDoes(p: Proc, src: Source): Proc {
    var data := ReadGives(p, src);
    if data == [] then p else p.(os := Take(p.os, src, |data|), lastIo := p.os.now)
  }

  function CodeOf(status: WaitStatus): int {
    match status
    case Exited(code) => code
    case Signaled(sig) => 128 + sig
  }

  function ExitedGives(p: Proc): bool {
    p.exited || p.pid <= 0 || WaitResult(p.os) != 0
  }

  function HasExitedDoes(p: Proc): Proc {
    if p.exited || p.pid <= 0 || WaitResult(p.os) == 0 then p
    else if p.os.child.Zombie? then
      var status := p.os.child.status;
      p.(os := Reap(p.os), exited := true, exitCode := CodeOf(status),
         memoryLimitExceeded := p.memoryLimitExceeded || status == Signaled(SIGKILL))
    else p.(exited := true, exitCode := -1)
  }

  function TerminateDoes(p: Proc): Proc {
    if p.pid > 0 && !p.exited then p.(os := Reap(KillChild(p.os)), exited := true, exitCode := TERMINATED) else p
  }

  predicate TimedOut(p: Proc, limitMs: nat) {
    p.os.now >= p.lastIo && (p.os.now - p.lastIo) / MILLISECOND > limitMs
  }

  function DestroyDoes(p: Proc): Proc { CloseAll(TerminateDoes(p)) }

  // InteractiveSession::is_running

  function RunningDoes(p: Proc): Proc {
    if !p.spawned then p else HasExitedDoes(if TimedOut(p, IDLE_TIMEOUT_MS) then TerminateDoes(p) else p)
  }

  function RunningGives(p: Proc): bool {
    p.spawned && !ExitedGives(if TimedOut(p, IDLE_TIMEOUT_MS) then TerminateDoes(p) else p)
  }

  predicate RunningTimesOut(p: Proc) { p.spawned && TimedOut(p, IDLE_TIMEOUT_MS) }

  // ---------- the class ----------

  class Pipe {
    const kernel: Kernel
    var stdinPipe: Ends
    var stdoutPipe: Ends
    var stderrPipe: Ends
    var pid: int
    var spawned: bool
    var exited: bool
    var exitCode: int
    var memoryLimitExceeded: bool
    var lastIo: nat

    function View(): Proc
      reads this, kernel
    {
      Proc(kernel.os, stdinPipe, stdoutPipe, stderrPipe, pid, spawned, exited, exitCode, memoryLimitExceeded, lastIo)
    }

    constructor (k: Kernel)
      ensures kernel == k && View() == Fresh(k.os)
    {
      kernel := k;
      stdinPipe, stdoutPipe, stderrPipe := SHUT, SHUT, SHUT;
      pid, spawned, exited, exitCode, memoryLimitExceeded, lastIo := -1, false, false, -1, false, 0;
    }

    /** `spawn`, called once on a new object: it succeeds exactly if the system grants three pipes
        and the fork. */
    method Spawn() returns (ok: bool)
      requires View() == Fresh(kernel.os) && kernel.os.child.Unforked?
      modifies this, kernel
      ensures ok <==> old(kernel.spare) >= 3 && kernel.forks
      ensures View() == SpawnDoes(old(View()), Granted(old(kernel.spare)), kernel.forks)
    {
      ok := CreatePipes();
      if !ok {
        return;
      }
      ok := kernel.Fork();
      if !ok {
        pid := -1;
        CloseAllFds();
        return;
      }
      pid := 1;
      CloseChildEnds();
      spawned := true;
      lastIo := kernel.os.now;
    }

    /** `pipe(stdin_pipe_) < 0 || pipe(stdout_pipe_) < 0 || pipe(stderr_pipe_) < 0`, negated. */
    method CreatePipes() returns (ok: bool)
      modifies this`stdinPipe, this`stdoutPipe, this`stderrPipe, kernel
      ensures ok <==> old(kernel.spare) >= 3
      ensures View() == OpenPipes(old(View()), Granted(old(kernel.spare)))
    {
      var readEnd, writeEnd;
      ok, readEnd, writeEnd := kernel.Pipe();
      if ok {
        stdinPipe := Ends(readEnd, writeEnd);
        ok, readEnd, writeEnd := kernel.Pipe();
      }
      if ok {
        stdoutPipe := Ends(readEnd, writeEnd);
        ok, readEnd, writeEnd := kernel.Pipe();
      }
      if ok {
        stderrPipe := Ends(readEnd, writeEnd);
      }
    }

    /** The parent's half after fork(2): it gives up the child's ends of the pipes. */
    method CloseChildEnds()
      requires stdinPipe.readEnd >= 0 && stdoutPipe.writeEnd >= 0 && stderrPipe.writeEnd >= 0
      modifies this`stdinPipe, this`stdoutPipe, this`stderrPipe, kernel
      ensures View() == CloseEnd(CloseEnd(CloseEnd(old(View()), StdinRead), StdoutWrite), StderrWrite)
    {
      kernel.Close(stdinPipe.readEnd);
      kernel.Close(stdoutPipe.writeEnd);
      kernel.Close(stderrPipe.writeEnd);
      stdinPipe := stdinPipe.(readEnd := -1);
      stdoutPipe := stdoutPipe.(writeEnd := -1);
      stderrPipe := stderrPipe.(writeEnd := -1);
    }

    method WriteStdin(data: Data) returns (result: int)
      modifies this`lastIo, kernel
      ensures View() == WriteDoes(old(View()), data, !kernel.broken(old(kernel.os).now))
      ensures result == if old(Accepts(View())) && !kernel.broken(old(kernel.os).now) then |data| else -1
    {
      if !spawned || stdinPipe.writeEnd < 0 {
        return -1;
      }
      lastIo := kernel.os.now;
      var ok := kernel.Write(data);
      result := if ok then |data| else -1;
    }

    method CloseStdin()
      modifies this`stdinPipe, kernel
      ensures View() == CloseStdinDoes(old(View()))
    {
      if stdinPipe.writeEnd >= 0 {
        kernel.Close(stdinPipe.writeEnd);
        stdinPipe := stdinPipe.(writeEnd := -1);
      }
    }

    /** `read_fd`: nothing from a closed end, otherwise all the pipe holds. */
    method ReadFd(src: Source) returns (result: Data)
      requires Sane(kernel.os)
      modifies this`lastIo, kernel
      ensures result == ReadGives(old(View()), src)
      ensures View() == ReadDoes(old(View()), src)
    {
      var fd := if src == Stdout then stdoutPipe.readEnd else stderrPipe.readEnd;
      if fd < 0 {
        return [];
      }
      TakeNothing(kernel.os, src);
      result := ReadChunks(src);
    }

    /** The loop of `read_fd`: chunks of any size up to the buffer, until the pipe is empty. */
    method ReadChunks(src: Source) returns (result: Data)
      requires Sane(kernel.os)
      modifies this`lastIo, kernel
      ensures result == Unread(old(kernel.os), src)
      ensures kernel.os == Take(old(kernel.os), src, |result|)
      ensures lastIo == if result == [] then old(lastIo) else old(kernel.os).now
    {
      result := [];
      ghost var before := kernel.os;
      TakeNothing(before, src);
      hide Unread, Take, Sane;
      while true
        invariant Sane(kernel.os) && kernel.os.now == before.now
        invariant result + Unread(kernel.os, src) == Unread(before, src)
        invariant kernel.os == Take(before, src, |result|)
        invariant lastIo == if result == [] then old(lastIo) else before.now
        decreases |Unread(kernel.os, src)|
      {
        ghost var now := kernel.os;
        var n, chunk := kernel.Read(src, READ_BUFFER_SIZE);
        if n > 0 {
          TakeMore(before, src, result, now, chunk);
          result := result + chunk;
          lastIo := kernel.os.now;
        } else {
          break;
        }
      }
    }

    method HasExited() returns (answer: bool)
      modifies this`exited, this`exitCode, this`memoryLimitExceeded, kernel
      ensures answer == ExitedGives(old(View())) && View() == HasExitedDoes(old(View()))
    {
      if exited {
        return true;
      }
      if pid <= 0 {
        return true;
      }
      var result, status := kernel.PollChild();
      if result == 0 {
        return false;
      }
      if result > 0 {
        exited := true;
        match status {
          case Exited(code) =>
            exitCode := code;
          case Signaled(sig) =>
            exitCode := 128 + sig;
            if sig == SIGKILL {
              memoryLimitExceeded := true;
            }
        }
        return true;
      }
      exited := true;
      exitCode := -1;
      return true;
    }

    method Terminate()
      requires pid > 0 && !exited ==> kernel.os.child.Running? || kernel.os.child.Zombie?
      modifies this`exited, this`exitCode, kernel
      ensures View() == TerminateDoes(old(View()))
    {
      if pid > 0 && !exited {
        kernel.Kill();
        var status := kernel.WaitChild();
        exited := true;
        exitCode := TERMINATED;
      }
    }

    method CloseAllFds()
      modifies this`stdinPipe, this`stdoutPipe, this`stderrPipe, kernel
      ensures View() == CloseAll(old(View()))
    {
      hide CloseEnd;
      SafeClose(StdinRead);
      SafeClose(StdinWrite);
      SafeClose(StdoutRead);
      SafeClose(StdoutWrite);
      SafeClose(StderrRead);
      SafeClose(StderrWrite);
    }

    /** `safe_close(int &fd)`; the reference is one of the six ends. */
    method SafeClose(e: End)
      modifies this`stdinPipe, this`stdoutPipe, this`stderrPipe, kernel
      ensures View() == CloseEnd(old(View()), e)
    {
      var fd := EndOf(View(), e);
      if fd >= 0 {
        kernel.Close(fd);
        match e {
          case StdinRead => stdinPipe := stdinPipe.(readEnd := -1);
          case StdinWrite => stdinPipe := stdinPipe.(writeEnd := -1);
          case StdoutRead => stdoutPipe := stdoutPipe.(readEnd := -1);
          case StdoutWrite => stdoutPipe := stdoutPipe.(writeEnd := -1);
          case StderrRead => stderrPipe := stderrPipe.(readEnd := -1);
          case StderrWrite => stderrPipe := stderrPipe.(writeEnd := -1);
        }
      }
    }

    /** The destructor. */
    method Destroy()
      requires pid > 0 && !exited ==> kernel.os.child.Running? || kernel.os.child.Zombie?
      modifies this, kernel
      ensures View() == DestroyDoes(old(View()))
    {
      Terminate();
      CloseAllFds();
    }
  }

  /** `InteractiveSession` after `start_execution`. */
  class Session {
    const process: Pipe
    var timedOut: bool

    constructor (process: Pipe)
      ensures this.process == process && !timedOut
    {
      this.process := process;
      timedOut := false;
    }

    /** `is_running`: enforces the idle timeout, then polls. */
    method IsRunning() returns (answer: bool)
      requires process.pid > 0 && !process.exited ==>
                 process.kernel.os.child.Running? || process.kernel.os.child.Zombie?
      requires process.lastIo <= process.kernel.os.now
      modifies this, process, process.kernel
      ensures answer == RunningGives(old(process.View()))
      ensures process.View() == RunningDoes(old(process.View()))
      ensures timedOut == (old(timedOut) || RunningTimesOut(old(process.View())))
    {
      if !process.spawned {
        return false;
      }
      if (process.kernel.os.now - process.lastIo) / MILLISECOND > IDLE_TIMEOUT_MS {
        timedOut := true;
        process.Terminate();
      }
      var exited := process.HasExited();
      return !exited;
    }
  }
}
