/** The operating system as the engine sees it: one child process, its three pipes, the
    descriptors of the parent, and a monotonic clock in nanoseconds. */
module Posix {
  import opened Bytes

  const SIGKILL: nat := 9
  const MILLISECOND: nat := 1_000_000

  datatype WaitStatus = Exited(code: nat) | Signaled(sig: nat)

  datatype Child = Unforked | Running | Zombie(status: WaitStatus) | Reaped(status: WaitStatus)

  /** All that was ever written to a pipe, and how much of it the parent has read. */
  datatype Stream = Stream(written: Data, taken: nat)

  datatype Os = Os(
    now: nat,
    child: Child,
    orphans: bool,         // a descendant of the child may hold its output pipes
    out: Stream,
    err: Stream,
    input: Data,           // all that was written to the child's stdin
    nextFd: nat,           // descriptors are numbered by creation, so that reuse cannot hide a double close
    closes: seq<int>,      // every close(2) by the parent
    reaps: nat,            // every successful waitpid(2)
    kills: seq<Kill>)      // every kill(2)

  /** When a signal was sent, and what the child was at that moment. */
  datatype Kill = Kill(at: nat, was: Child)

  const BOOT: Os := Os(0, Unforked, false, Stream([], 0), Stream([], 0), [], 0, [], 0, [])

  ghost predicate Sane(os: Os) {
    os.out.taken <= |os.out.written| && os.err.taken <= |os.err.written|
  }

  // ---------- what happens on its own ----------

  datatype Event = Pass(ns: nat) | ChildExits(status: WaitStatus) | WritesOut(data: Data) | WritesErr(data: Data)

  predicate MayHappen(os: Os, e: Event) {
    match e
    case Pass(_) => true
    case ChildExits(_) => os.child.Running?
    case WritesOut(_) => os.child.Running? || (os.orphans && !os.child.Unforked?)
    case WritesErr(_) => os.child.Running? || (os.orphans && !os.child.Unforked?)
  }

  function Happen(os: Os, e: Event): Os
    requires MayHappen(os, e)
  {
    match e
    case Pass(ns) => os.(now := os.now + ns)
    case ChildExits(status) => os.(child := Zombie(status))
    case WritesOut(data) => os.(out := os.out.(written := os.out.written + data))
    case WritesErr(data) => os.(err := os.err.(written := os.err.written + data))
  }

  // ---------- system calls ----------

  function CloseFd(os: Os, fd: int): Os { os.(closes := os.closes + [fd]) }

  /** SIGKILL ends a running child; it does nothing to one that is already dead. */
  function KillChild(os: Os): Os {
    os.(kills := os.kills + [Kill(os.now, os.child)],
        child := if os.child.Running? then Zombie(Signaled(SIGKILL)) else os.child)
  }

  /** waitpid: 0 while the child runs, its pid when it is reaped now, -1 when there is none. */
  function WaitResult(os: Os): int {
    match os.child
    case Unforked => -1
    case Running => 0
    case Zombie(_) => 1
    case Reaped(_) => -1
  }

  function Reap(os: Os): Os {
    if os.child.Zombie? then os.(child := Reaped(os.child.status), reaps := os.reaps + 1) else os
  }

  function TakeOut(os: Os, n: nat): Os { os.(out := os.out.(taken := os.out.taken + n)) }
  function TakeErr(os: Os, n: nat): Os { os.(err := os.err.(taken := os.err.taken + n)) }

  datatype Source = Stdout | Stderr

  function StreamOf(os: Os, src: Source): Stream {
    if src == Stdout then os.out else os.err
  }

  /** What the pipe holds. */
  function Unread(os: Os, src: Source): Data {
    var s := StreamOf(os, src);
    if s.taken <= |s.written| then s.written[s.taken..] else []
  }

  function Take(os: Os, src: Source, n: nat): Os {
    if src == Stdout then TakeOut(os, n) else TakeErr(os, n)
  }

  lemma TakeNothing(os: Os, src: Source)
    ensures Take(os, src, 0) == os
  {
  }

  lemma TakeSome(os: Os, src: Source, n: nat)
    requires Sane(os) && n <= |Unread(os, src)|
    ensures Sane(Take(os, src, n)) && Take(os, src, n).now == os.now
    ensures Unread(Take(os, src, n), src) == Unread(os, src)[n..]
  {
  }

  lemma TakeTwice(os: Os, src: Source, m: nat, n: nat)
    ensures Take(Take(os, src, m), src, n) == Take(os, src, m + n)
    ensures Take(os, src, m).now == os.now
  {
  }

  /** Reading on: `got` has been read since `before`, and `chunk` comes next. */
  lemma TakeMore(before: Os, src: Source, got: Data, now: Os, chunk: Data)
    requires Sane(now) && now == Take(before, src, |got|) && got + Unread(now, src) == Unread(before, src)
    requires chunk <= Unread(now, src)
    ensures var after := Take(now, src, |chunk|);
            && Sane(after) && after == Take(before, src, |got + chunk|)
            && got + chunk + Unread(after, src) == Unread(before, src)
            && |Unread(after, src)| == |Unread(now, src)| - |chunk|
            && after.now == before.now
  {
    TakeSome(now, src, |chunk|);
    TakeTwice(before, src, |got|, |chunk|);
    hide Unread, Take;
    var rest := Unread(now, src)[|chunk|..];
    assert Unread(now, src) == chunk + rest;
    assert got + (chunk + rest) == got + chunk + rest;
  }

  /** The kernel as an object: its methods are the calls the C++ makes.  What it grants is laid
      down from the start. */
  class Kernel {
    var os: Os
    var spare: nat                // how many more pipe(2) calls succeed
    const forks: bool             // whether fork(2) does
    const broken: nat -> bool     // the moments at which a write(2) fails

    constructor (initial: Os, spare: nat, forks: bool, broken: nat -> bool)
      ensures os == initial && this.spare == spare && this.forks == forks && this.broken == broken
    {
      os, this.spare, this.forks, this.broken := initial, spare, forks, broken;
    }

    /** pipe(2); leaves everything alone when it fails. */
    method Pipe() returns (ok: bool, readEnd: int, writeEnd: int)
      modifies this
      ensures ok <==> old(spare) > 0
      ensures !ok ==> os == old(os) && spare == old(spare)
      ensures ok ==> readEnd == old(os).nextFd && writeEnd == readEnd + 1
      ensures ok ==> os == old(os).(nextFd := writeEnd + 1) && spare == old(spare) - 1
    {
      ok := spare > 0;
      readEnd, writeEnd := -1, -1;
      if ok {
        readEnd, writeEnd := os.nextFd, os.nextFd + 1;
        os, spare := os.(nextFd := os.nextFd + 2), spare - 1;
      }
    }

    method Close(fd: int)
      modifies this`os
      ensures os == CloseFd(old(os), fd)
    {
      os := CloseFd(os, fd);
    }

    method Fork() returns (ok: bool)
      requires os.child.Unforked?
      modifies this`os
      ensures ok <==> forks
      ensures os == if ok then old(os).(child := Running) else old(os)
    {
      ok := forks;
      if ok {
        os := os.(child := Running);
      }
    }

    method Kill()
      modifies this`os
      ensures os == KillChild(old(os))
    {
      os := KillChild(os);
    }

    /** waitpid with WNOHANG. */
    method PollChild() returns (result: int, status: WaitStatus)
      modifies this`os
      ensures result == WaitResult(old(os)) && os == Reap(old(os))
      ensures result == 1 ==> old(os).child == Zombie(status)
    {
      result := WaitResult(os);
      status := if os.child.Zombie? then os.child.status else Exited(0);
      os := Reap(os);
    }

    /** Blocking waitpid, called when the child has been killed. */
    method WaitChild() returns (status: WaitStatus)
      requires os.child.Zombie?
      modifies this`os
      ensures old(os).child == Zombie(status) && os == Reap(old(os))
    {
      status := os.child.status;
      os := Reap(os);
    }

    /** Non-blocking read(2) of at most `max` bytes; n is 0 at end of file, -1 on EAGAIN. */
    method Read(src: Source, max: nat) returns (n: int, chunk: Data)
      requires Sane(os) && max > 0
      modifies this`os
      ensures n <= 0 <==> Unread(old(os), src) == []
      ensures n > 0 ==> n == |chunk| <= max && chunk <= Unread(old(os), src)
      ensures os == if n > 0 then Take(old(os), src, n) else old(os)
    {
      var pending := Unread(os, src);
      chunk := [];
      if |pending| == 0 {
        var eof: bool := *;
        n := if eof then 0 else -1;
      } else {
        var limit := if |pending| < max then |pending| else max;
        var size: int := *;
        n := if 0 < size <= limit then size else limit;
        chunk := pending[..n];
        os := Take(os, src, n);
      }
    }

    /** write(2) to the child's stdin: all of it, or an error such as EPIPE. */
    method Write(data: Data) returns (ok: bool)
      modifies this`os
      ensures ok <==> !broken(old(os).now)
      ensures os == if ok then old(os).(input := old(os).input + data) else old(os)
    {
      ok := !broken(os.now);
      if ok {
        os := os.(input := os.input + data);
      }
    }

    /** Time passes and the child may end while the parent sleeps or computes. */
    method Elapse(atLeast: nat)
      modifies this`os
      ensures os.now >= old(os).now + atLeast
      ensures os == old(os).(now := os.now, child := os.child)
      ensures os.child == old(os).child || (old(os).child.Running? && os.child.Zombie?)
    {
      var extra: int := *;
      var ends: bool := *;
      var status: WaitStatus := *;
      os := os.(now := os.now + atLeast + if extra > 0 then extra else 0,
                child := if ends && os.child.Running? then Zombie(status) else os.child);
    }
  }
}
