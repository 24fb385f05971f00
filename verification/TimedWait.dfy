/** `smart_waitpid`: wait for the child by polling, kill it when the time is up. */
module TimedWait {
  import opened Posix

  const PERIOD: nat := 10 * MILLISECOND

  /** `duration_cast<milliseconds>`: truncates. */
  function Milliseconds(ns: nat): nat { ns / MILLISECOND }

  /** The bound on the number of polls for a given limit; a negative limit allows one. */
  function MaxPolls(timeoutMs: int): nat {
    if timeoutMs < 0 then 1 else timeoutMs / 10 + 2
  }

  /** Between any two system calls the clock moves and the child may end.  Each sleep lasts
      at least 10 ms.  The child is reaped exactly once, and killed only if it had not been
      reaped when more than `timeoutMs` had passed; `killed` tells that the timeout message
      was appended to /tmp/err.txt. */
  method SmartWaitpid(k: Kernel, timeoutMs: int) returns (status: WaitStatus, killed: bool, polls: nat)
    requires k.os.child.Running? || k.os.child.Zombie?
    modifies k
    ensures k.os.child == Reaped(status) && k.os.reaps == old(k.os).reaps + 1
    ensures polls <= MaxPolls(timeoutMs)
    ensures !killed ==> k.os.kills == old(k.os).kills
    ensures killed ==>
              && |k.os.kills| == |old(k.os).kills| + 1 && k.os.kills[..|old(k.os).kills|] == old(k.os).kills
              && var kill := k.os.kills[|old(k.os).kills|];
                 && kill.at - old(k.os).now > timeoutMs * MILLISECOND && !kill.was.Reaped?
                 && (kill.was.Running? ==> status == Signaled(SIGKILL))
    ensures k.os.now >= old(k.os).now + (polls - 1) * PERIOD
  {
    var start := k.os.now;
    polls, killed := 0, false;
    while true
      invariant k.os.child.Running? || k.os.child.Zombie?
      invariant k.os.reaps == old(k.os).reaps && k.os.kills == old(k.os).kills
      invariant k.os.now >= start + polls * PERIOD
      invariant polls == 0 || (timeoutMs >= 0 && (polls - 1) * 10 <= timeoutMs)
      decreases timeoutMs + 10 - 10 * polls
    {
      var result;
      result, status := k.PollChild();
      polls := polls + 1;
      if result != 0 {
        return;
      }
      k.Elapse(0);
      var elapsed := Milliseconds(k.os.now - start);
      if elapsed > timeoutMs {
        k.Elapse(0);
        killed := true;
        k.Kill();
        status := k.WaitChild();
        return;
      }
      k.Elapse(PERIOD);
    }
  }

  // ---------- batch execution ----------

  datatype ExecutionResult = ExecutionResult(exitCode: int, memoryLimitExceeded: bool, compilationFailed: bool)

  const RUN_LIMIT_MS := 5000

  /** `BaseStrategy::execute`.  A child that was reaped gives its own exit code; a run killed
      by the timed wait is reported like one the kernel killed for its memory. */
  method Execute(k: Kernel, timeoutMs: int) returns (result: ExecutionResult, forked: bool, timedOut: bool)
    requires k.os.child.Unforked?
    modifies k
    ensures forked <==> k.forks
    ensures !forked ==> result == ExecutionResult(-1, false, false) && k.os == old(k.os) && !timedOut
    ensures forked ==>
              && k.os.child.Reaped? && k.os.reaps == old(k.os).reaps + 1
              && result == match k.os.child.status
                           case Exited(code) => ExecutionResult(code, false, false)
                           case Signaled(sig) => ExecutionResult(128 + sig, sig == SIGKILL, false)
    ensures !timedOut ==> k.os.kills == old(k.os).kills
    ensures timedOut ==>
              && |k.os.kills| == |old(k.os).kills| + 1 && k.os.kills[..|old(k.os).kills|] == old(k.os).kills
              && var kill := k.os.kills[|old(k.os).kills|];
                 && kill.at - old(k.os).now > timeoutMs * MILLISECOND
                 && (kill.was.Running? ==> result == ExecutionResult(128 + SIGKILL, true, false))
  {
    timedOut := false;
    result := ExecutionResult(0, false, false);
    forked := k.Fork();
    if forked {
      var status, polls;
      status, timedOut, polls := SmartWaitpid(k, timeoutMs);
      match status {
        case Signaled(sig) =>
          result := result.(exitCode := 128 + sig);
          if sig == SIGKILL {
            result := result.(memoryLimitExceeded := true);
          }
        case Exited(code) =>
          result := result.(exitCode := code);
      }
    } else {
      result := result.(exitCode := -1);
    }
  }

  /** `SandboxOrchestrator::run`: after a failed build nothing is run, and the result says so;
      it never says so otherwise. */
  method Run(k: Kernel, compiled: bool) returns (result: ExecutionResult, forked: bool, timedOut: bool)
    requires k.os.child.Unforked?
    modifies k
    ensures forked <==> compiled && k.forks
    ensures !forked ==> result == ExecutionResult(-1, false, !compiled) && k.os == old(k.os) && !timedOut
    ensures forked ==>
              && k.os.child.Reaped? && k.os.reaps == old(k.os).reaps + 1
              && result == match k.os.child.status
                           case Exited(code) => ExecutionResult(code, false, false)
                           case Signaled(sig) => ExecutionResult(128 + sig, sig == SIGKILL, false)
    ensures !timedOut ==> k.os.kills == old(k.os).kills
    ensures timedOut ==>
              && |k.os.kills| == |old(k.os).kills| + 1
              && var kill := k.os.kills[|old(k.os).kills|];
                 && kill.at - old(k.os).now > 5000 * MILLISECOND
                 && (kill.was.Running? ==> result.memoryLimitExceeded)
  {
    if !compiled {
      return ExecutionResult(-1, false, true), false, false;
    }
    result, forked, timedOut := Execute(k, RUN_LIMIT_MS);
  }
}
