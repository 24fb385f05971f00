/** Any number of worker tasks, interleaved call by call over one cluster, one lease store
    and one clock.

    Tasks are only known to keep the discipline of TaskProtocol.  The store expires a lease
    60 s after it was set, and releases by key, without looking at who set it. */
module LeaseProtocol {
  import opened TaskProtocol
  import Runs

  type Task = nat

  /** Lifetime of a lease, in milliseconds. */
  const TTL := 60_000

  /** What a deployment guarantees beyond the code. */
  datatype Config = Config(
    budget: nat,            // a task asks for the deletion of its leased pod within this many ms of leasing
    reliableDelete: bool,   // a requested deletion leaves the pod gone
    reliableStore: bool,    // the lease store answers every call
    debugMode: bool)        // DEBUG_MODE=true: failed pods are relabelled instead of deleted

  datatype State = State(
    now: nat,
    alive: set<Pod>,
    pool: set<Pod>,              // names of pre-warmed pods, dead or alive
    known: set<Pod>,             // every name ever used
    leases: map<Pod, nat>,       // expiry times; an expired entry stays until it is overwritten or deleted
    tasks: map<Task, Local>,
    leasedAt: map<Task, nat>,
    executed: set<(Task, Pod)>)  // whose code has run where, over the whole past

  datatype Step = Tick(ms: nat) | WarmUp(pod: Pod) | Arrive(task: Task) | Do(task: Task, call: Call)

  const INIT := State(0, {}, {}, {}, map[], map[], map[], {})

  predicate Free(s: State, p: Pod) { p in s.leases ==> s.leases[p] <= s.now }

  predicate Answers(cfg: Config, s: State, c: Call) {
    match c
    case ListPool(ready) => ready <= s.alive * s.pool
    case Acquire(p, granted, stored) =>
      && (granted ==> stored)
      && (stored ==> Free(s, p))
      && (cfg.reliableStore ==> granted == Free(s, p))
    case AcquireOwn(p, stored) => (stored ==> Free(s, p)) && (cfg.reliableStore ==> stored == Free(s, p))
    case Create(p, _, _) => p !in s.known
    case Poll(p, isReady) => isReady ==> p in s.alive
    case GetIp(p, found) => found ==> p in s.alive
    case Delete(p, effective) => cfg.reliableDelete ==> effective
    case KeepAlive(_) => cfg.debugMode
    case Release(p, effective) => cfg.reliableStore ==> effective
    case _ => true
  }

  predicate Enabled(cfg: Config, s: State, step: Step) {
    match step
    case Tick(_) => true
    case WarmUp(p) => p !in s.known
    case Arrive(t) => t !in s.tasks
    case Do(t, c) => t in s.tasks && MayCall(s.tasks[t], c) && Answers(cfg, s, c)
  }

  function Effect(s: State, t: Task, c: Call): State {
    match c
    case Acquire(p, granted, stored) =>
      s.(leases := if stored then s.leases[p := s.now + TTL] else s.leases,
         leasedAt := if granted then s.leasedAt[t := s.now] else s.leasedAt)
    case AcquireOwn(p, stored) => s.(leases := if stored then s.leases[p := s.now + TTL] else s.leases)
    case Create(p, made, _) => s.(alive := if made then s.alive + {p} else s.alive, known := s.known + {p})
    case Run(p, reached, _) => s.(executed := if reached then s.executed + {(t, p)} else s.executed)
    case Delete(p, effective) => s.(alive := if effective then s.alive - {p} else s.alive)
    case Release(p, effective) => s.(leases := if effective then s.leases - {p} else s.leases)
    case _ => s
  }

  function Apply(cfg: Config, s: State, step: Step): State
    requires Enabled(cfg, s, step)
  {
    match step
    case Tick(ms) => s.(now := s.now + ms)
    case WarmUp(p) => s.(alive := s.alive + {p}, pool := s.pool + {p}, known := s.known + {p})
    case Arrive(t) => s.(tasks := s.tasks[t := START])
    case Do(t, c) => Effect(s, t, c).(tasks := s.tasks[t := Advance(s.tasks[t], c)])
  }

  /** The deployment's timing promise, in one state. */
  ghost predicate Timely(cfg: Config, s: State) {
    forall t :: t in s.tasks && s.tasks[t].given.Leased? && !s.tasks[t].deleted ==>
      t in s.leasedAt && s.now < s.leasedAt[t] + cfg.budget
  }

  /** The deployment keeps its promise at every step. */
  ghost function Moves(cfg: Config): (State, Step, State) -> bool {
    (before, step, after) => Enabled(cfg, before, step) && after == Apply(cfg, before, step) && Timely(cfg, after)
  }

  /** States a deployment can be in after n steps. */
  ghost predicate Reachable(cfg: Config, s: State, n: nat) { Runs.LeadsTo(Moves(cfg), INIT, s, n) }

  lemma LastStep(cfg: Config, s: State, n: nat) returns (before: State, step: Step)
    requires Reachable(cfg, s, n) && n > 0
    ensures Reachable(cfg, before, n - 1) && Enabled(cfg, before, step) && s == Apply(cfg, before, step)
    ensures Timely(cfg, before) && Timely(cfg, s)
  {
    hide Enabled, Apply, Timely;
    before, step := Runs.LastStep(Moves(cfg), INIT, s, n);
    ReachableTimely(cfg, before, n - 1);
  }

  lemma ReachableTimely(cfg: Config, s: State, n: nat)
    requires Reachable(cfg, s, n)
    ensures Timely(cfg, s)
  {
    InitTimely(cfg);
    hide Enabled, Apply, Timely;
    if n == 0 {
      Runs.NoStep(Moves(cfg), INIT, s);
    } else {
      var before, step := Runs.LastStep(Moves(cfg), INIT, s, n);
    }
  }

  lemma InitTimely(cfg: Config)
    ensures Timely(cfg, INIT)
  {
  }

  /** At most one task has ever executed code on any given pod. */
  ghost predicate SingleUse(s: State) {
    forall t, u, p :: (t, p) in s.executed && (u, p) in s.executed ==> t == u
  }

  ghost predicate AlwaysSingleUse(cfg: Config) {
    forall s: State, n: nat :: Reachable(cfg, s, n) ==> SingleUse(s)
  }

  predicate SafeDeployment(cfg: Config) {
    cfg.budget <= 60_000 && cfg.reliableDelete && !cfg.debugMode
  }

  /** A task that has made the calls of `log` can make call c if and only if the longer log keeps
      the discipline, whatever the cluster and the store answer. */
  lemma CallsAreDisciplined(cfg: Config, s: State, t: Task, log: seq<Call>, c: Call)
    requires Disciplined(log) && t in s.tasks && s.tasks[t] == Follow(log).local && Answers(cfg, s, c)
    ensures Enabled(cfg, s, Do(t, c)) <==> Disciplined(log + [c])
    ensures Disciplined(log + [c]) ==> Apply(cfg, s, Do(t, c)).tasks[t] == Follow(log + [c]).local
  {
    FollowOneMore(log, c);
  }

  /** Nobody but the task itself changes what it has done. */
  lemma OthersLeaveTask(cfg: Config, s: State, step: Step, t: Task)
    requires Enabled(cfg, s, step) && t in s.tasks && !(step.Do? && step.task == t)
    ensures t in Apply(cfg, s, step).tasks && Apply(cfg, s, step).tasks[t] == s.tasks[t]
  {
  }

  /** The calls of task t in a run. */
  function Spelled(steps: seq<Step>, t: Task): seq<Call> {
    if |steps| == 0 then []
    else
      var last := steps[|steps| - 1];
      Spelled(steps[..|steps| - 1], t) + if last.Do? && last.task == t then [last.call] else []
  }

  ghost predicate IsRun(cfg: Config, states: seq<State>, steps: seq<Step>) {
    Runs.IsRun(Moves(cfg), states, steps) && states[0] == INIT
  }

  /** After any run, whatever the others did in between, a task is where its own calls have
      taken it, and they have kept the discipline. */
  lemma {:induction false} TaskFollowsItsCalls(cfg: Config, states: seq<State>, steps: seq<Step>, t: Task)
    requires IsRun(cfg, states, steps)
    ensures var s, log := states[|steps|], Spelled(steps, t);
            if t in s.tasks then Disciplined(log) && s.tasks[t] == Follow(log).local else log == []
    decreases |steps|
  {
    if |steps| > 0 {
      var n := |steps| - 1;
      var before, step := states[n], steps[n];
      assert Moves(cfg)(before, step, states[n + 1]);
      RunPrefix(cfg, states, steps);
      TaskFollowsItsCalls(cfg, states[..n + 1], steps[..n], t);
      hide Answers, Timely, Effect, Follow, Advance, MayCall;
      if step.Do? && step.task == t {
        CallsAreDisciplined(cfg, before, t, Spelled(steps[..n], t), step.call);
      } else if t in before.tasks {
        OthersLeaveTask(cfg, before, step, t);
        assert Spelled(steps, t) == Spelled(steps[..n], t);
      } else {
        JustArrived(cfg, before, step, t);
        assert Spelled(steps, t) == [];
      }
    }
  }

  lemma RunPrefix(cfg: Config, states: seq<State>, steps: seq<Step>)
    requires IsRun(cfg, states, steps) && |steps| > 0
    ensures IsRun(cfg, states[..|steps|], steps[..|steps| - 1])
  {
    hide Moves;
  }

  lemma JustArrived(cfg: Config, s: State, step: Step, t: Task)
    requires Enabled(cfg, s, step) && t !in s.tasks && !(step.Do? && step.task == t)
    ensures t in Apply(cfg, s, step).tasks ==> Apply(cfg, s, step).tasks[t] == Follow([]).local && Disciplined([])
  {
  }

  /** The step can be made after the run; and if the deployment keeps its promise, the run with
      it is a run. */
  ghost predicate GoesOn(cfg: Config, states: seq<State>, steps: seq<Step>, step: Step)
    requires |states| == |steps| + 1
  {
    && Enabled(cfg, states[|steps|], step)
    && var after := Apply(cfg, states[|steps|], step);
       Timely(cfg, after) ==> IsRun(cfg, states + [after], steps + [step])
  }

  /** No log of module Worker is ever refused.  After a run in which task t has made the first
      calls of a disciplined log, it can make the next one, whatever the answer to it is; and
      if the deployment keeps its promise, the run goes on along the log. */
  lemma LogsAreAdmitted(cfg: Config, states: seq<State>, steps: seq<Step>, t: Task, log: seq<Call>)
    requires IsRun(cfg, states, steps) && t in states[|steps|].tasks
    requires Disciplined(log) && Spelled(steps, t) < log
    requires Answers(cfg, states[|steps|], log[|Spelled(steps, t)|])
    ensures GoesOn(cfg, states, steps, Do(t, log[|Spelled(steps, t)|]))
    ensures Spelled(steps + [Do(t, log[|Spelled(steps, t)|])], t) == log[..|Spelled(steps, t)| + 1]
  {
    hide Enabled, Apply, Timely, Answers, Follow, Disciplined, MayCall, Advance, Spelled, Moves;
    var s, done := states[|steps|], Spelled(steps, t);
    hide Runs.IsRun;
    var c := log[|done|];
    TaskFollowsItsCalls(cfg, states, steps, t);
    PrefixDisciplined(log, |done| + 1);
    assert log[..|done| + 1] == done + [c];
    CallsAreDisciplined(cfg, s, t, done, c);
    SpelledMore(steps, t, c);
    if Timely(cfg, Apply(cfg, s, Do(t, c))) {
      RunGoesOn(cfg, states, steps, Do(t, c));
    }
  }

  lemma SpelledMore(steps: seq<Step>, t: Task, c: Call)
    ensures Spelled(steps + [Do(t, c)], t) == Spelled(steps, t) + [c]
  {
    assert (steps + [Do(t, c)])[..|steps|] == steps;
  }

  lemma RunGoesOn(cfg: Config, states: seq<State>, steps: seq<Step>, step: Step)
    requires IsRun(cfg, states, steps) && Enabled(cfg, states[|steps|], step)
    requires Timely(cfg, Apply(cfg, states[|steps|], step))
    ensures IsRun(cfg, states + [Apply(cfg, states[|steps|], step)], steps + [step])
  {
    hide Enabled, Apply, Timely;
    var after := Apply(cfg, states[|steps|], step);
    var longer, taken := states + [after], steps + [step];
    assert Moves(cfg)(states[|steps|], step, after);
    hide Moves;
    forall i | 0 <= i < |taken|
      ensures Moves(cfg)(longer[i], taken[i], longer[i + 1])
    {
      if i < |steps| {
        assert Moves(cfg)(states[i], steps[i], states[i + 1]);
      }
    }
  }

  // ---------- the inductive invariant ----------

  ghost predicate TaskInv(s: State, t: Task)
    requires t in s.tasks
  {
    var l := s.tasks[t];
    && l.candidates <= s.pool
    && !l.kept
    && match l.given
       case Nothing => !l.deleted && !l.hasIp
       case Leased(p) => p in s.pool && (p in s.alive ==> Guarded(s, t, p))
       case Made(p) => p in s.known && p !in s.pool && (p in s.alive ==> !l.deleted)
  }

  /** While a leased pod lives, the lease its task took is the one in the store. */
  ghost predicate Guarded(s: State, t: Task, p: Pod)
    requires t in s.tasks
  {
    && !s.tasks[t].deleted
    && t in s.leasedAt
    && p in s.leases
    && s.leases[p] == s.leasedAt[t] + TTL
  }

  /** Two tasks hold pod p while it lives, or both have reached it. */
  ghost predicate Share(s: State, t: Task, u: Task, p: Pod) {
    && t in s.tasks && u in s.tasks
    && Holds(s.tasks[t], p) && Holds(s.tasks[u], p)
    && (p in s.alive || (s.tasks[t].hasIp && s.tasks[u].hasIp))
  }

  ghost predicate Exclusive(s: State) {
    forall t, u, p :: Share(s, t, u, p) ==> t == u
  }

  ghost predicate Traced(s: State) {
    forall t, p :: (t, p) in s.executed ==> t in s.tasks && Holds(s.tasks[t], p) && s.tasks[t].hasIp
  }

  ghost predicate Orderly(s: State) {
    && s.alive <= s.known
    && s.pool <= s.known
    && (forall t :: t in s.tasks ==> TaskInv(s, t))
  }

  ghost predicate Inv(s: State) {
    Orderly(s) && Exclusive(s) && Traced(s)
  }

  lemma CallPreservesTaskInv(cfg: Config, s: State, t: Task, c: Call, u: Task)
    requires SafeDeployment(cfg) && Orderly(s) && Timely(cfg, s)
    requires Enabled(cfg, s, Do(t, c)) && u in s.tasks
    ensures TaskInv(Apply(cfg, s, Do(t, c)), u)
  {
    var l := s.tasks[u];
    assert TaskInv(s, t);
    if l.given.Leased? && l.given.pod in s.alive {
      assert Guarded(s, u, l.given.pod);
      assert !Free(s, l.given.pod);
    }
  }

  /** A pod of the pool that a task is about to be given has no other holder while it lives. */
  lemma NoOtherHolder(cfg: Config, s: State, t: Task, p: Pod, u: Task)
    requires SafeDeployment(cfg) && Orderly(s) && Timely(cfg, s)
    requires Enabled(cfg, s, Do(t, Acquire(p, true, true))) && u in s.tasks && Holds(s.tasks[u], p)
    ensures p !in s.alive && !s.tasks[t].hasIp
  {
    assert TaskInv(s, t);
    assert p in s.alive ==> Guarded(s, u, p);
  }

  /** A call never lets two tasks share a pod that they did not share before. */
  lemma BothHeldBefore(cfg: Config, s: State, t: Task, c: Call, x: Task, y: Task, p: Pod)
    requires SafeDeployment(cfg) && Orderly(s) && Timely(cfg, s)
    requires Enabled(cfg, s, Do(t, c)) && x != y
    requires Share(Apply(cfg, s, Do(t, c)), x, y, p)
    ensures Share(s, x, y, p)
  {
    assert TaskInv(s, x) && TaskInv(s, y);
    if c.Acquire? && c.granted && c.pod == p {
      NoOtherHolder(cfg, s, t, p, if x == t then y else x);
    }
  }

  lemma CallPreservesTraced(cfg: Config, s: State, t: Task, c: Call)
    requires Inv(s) && Enabled(cfg, s, Do(t, c))
    ensures Traced(Apply(cfg, s, Do(t, c)))
  {
    assert TaskInv(s, t);
    var after := Apply(cfg, s, Do(t, c));
    forall u, p | (u, p) in after.executed
      ensures u in after.tasks && Holds(after.tasks[u], p) && after.tasks[u].hasIp
    {
      if (u, p) in s.executed {
        assert Holds(s.tasks[u], p) && s.tasks[u].hasIp;
      }
    }
  }

  lemma BoundsAfterCall(cfg: Config, s: State, t: Task, c: Call)
    requires Orderly(s) && Enabled(cfg, s, Do(t, c))
    ensures var after := Apply(cfg, s, Do(t, c));
            after.alive <= after.known && after.pool <= after.known && after.tasks.Keys == s.tasks.Keys
  {
  }

  lemma CallPreservesInv(cfg: Config, s: State, t: Task, c: Call)
    requires SafeDeployment(cfg) && Inv(s) && Timely(cfg, s) && Enabled(cfg, s, Do(t, c))
    ensures Inv(Apply(cfg, s, Do(t, c)))
  {
    hide Advance, MayCall, TaskInv, Exclusive, Traced, Timely, Answers;
    assert Orderly(s);
    BoundsAfterCall(cfg, s, t, c);
    var after := Apply(cfg, s, Do(t, c));
    forall u | u in after.tasks
      ensures TaskInv(after, u)
    {
      CallPreservesTaskInv(cfg, s, t, c, u);
    }
    assert Orderly(after);
    assert Traced(after) by { CallPreservesTraced(cfg, s, t, c); }
    assert Exclusive(after) by { ExclusiveAfterCall(cfg, s, t, c); }
  }

  lemma ExclusiveAfterCall(cfg: Config, s: State, t: Task, c: Call)
    requires SafeDeployment(cfg) && Inv(s) && Timely(cfg, s) && Enabled(cfg, s, Do(t, c))
    ensures Exclusive(Apply(cfg, s, Do(t, c)))
  {
    hide Orderly, Advance, MayCall, Timely, Answers, Effect, Share;
    var after := Apply(cfg, s, Do(t, c));
    forall x, y, p | Share(after, x, y, p) && x != y
      ensures Share(s, x, y, p)
    {
      BothHeldBefore(cfg, s, t, c, x, y, p);
    }
  }

  lemma EnvironmentPreservesInv(cfg: Config, s: State, step: Step)
    requires Inv(s) && !step.Do? && Enabled(cfg, s, step)
    ensures Inv(Apply(cfg, s, step))
  {
    var after := Apply(cfg, s, step);
    forall u | u in after.tasks
      ensures TaskInv(after, u)
    {
      assert u in s.tasks ==> TaskInv(s, u);
    }
    forall x, y, p | Share(after, x, y, p)
      ensures Share(s, x, y, p)
    {
      assert TaskInv(after, x);
      assert x in s.tasks ==> TaskInv(s, x);
    }
  }

  lemma StepPreservesInv(cfg: Config, s: State, step: Step)
    requires SafeDeployment(cfg) && Inv(s) && Timely(cfg, s) && Enabled(cfg, s, step)
    ensures Inv(Apply(cfg, s, step))
  {
    if step.Do? {
      CallPreservesInv(cfg, s, step.task, step.call);
    } else {
      EnvironmentPreservesInv(cfg, s, step);
    }
  }

  lemma InitInv()
    ensures Inv(INIT)
  {
  }

  lemma {:induction false} ReachableInv(cfg: Config, s: State, n: nat)
    requires SafeDeployment(cfg) && Reachable(cfg, s, n)
    ensures Inv(s)
    decreases n
  {
    hide Inv, Enabled, Apply, Timely;
    if n == 0 {
      Runs.NoStep(Moves(cfg), INIT, s);
      InitInv();
    } else {
      var before, step := LastStep(cfg, s, n);
      ReachableInv(cfg, before, n - 1);
      StepPreservesInv(cfg, before, step);
    }
  }

  // ---------- single use ----------

  lemma SafeDeploymentsAreSingleUse(cfg: Config)
    requires SafeDeployment(cfg)
    ensures AlwaysSingleUse(cfg)
  {
    forall s: State, n: nat | Reachable(cfg, s, n)
      ensures SingleUse(s)
    {
      ReachableInv(cfg, s, n);
      forall t, u, p | (t, p) in s.executed && (u, p) in s.executed
        ensures t == u
      {
        assert Share(s, t, u, p);
      }
    }
  }

  // Runs that break the property when one guarantee is missing.

  lemma Extend(cfg: Config, s: State, n: nat, step: Step) returns (after: State)
    requires Reachable(cfg, s, n) && Enabled(cfg, s, step) && Timely(cfg, Apply(cfg, s, step))
    ensures after == Apply(cfg, s, step) && Reachable(cfg, after, n + 1)
  {
    after := Apply(cfg, s, step);
    hide Enabled, Apply, Timely;
    Runs.Extend(Moves(cfg), INIT, s, n, step, after);
  }

  lemma StartReachable(cfg: Config)
    ensures Reachable(cfg, INIT, 0)
  {
    Runs.Stay(Moves(cfg), INIT);
  }

  const P: Pod := 7

  /** Tasks 1 and 2 have listed the pool while pod 7 was in it. */
  lemma TwoListings(cfg: Config) returns (s: State, n: nat)
    ensures Reachable(cfg, s, n)
    ensures s == State(0, {P}, {P}, {P}, map[],
                       map[1 := START.(candidates := {P}), 2 := START.(candidates := {P})], map[], {})
  {
    StartReachable(cfg);
    hide Reachable;
    s := Extend(cfg, INIT, 0, WarmUp(P));
    s := Extend(cfg, s, 1, Arrive(1));
    s := Extend(cfg, s, 2, Arrive(2));
    s := Extend(cfg, s, 3, Do(1, ListPool({P})));
    s := Extend(cfg, s, 4, Do(2, ListPool({P})));
    n := 5;
  }

  const HOLDING: Local := START.(candidates := {P}, given := Leased(P), leaseAsked := true)
  const OCCUPIED: Local := HOLDING.(hasIp := true)

  function WithLocal(s: State, t: Task, l: Local): State {
    s.(tasks := s.tasks[t := l])
  }

  lemma Leases(cfg: Config, before: State, m: nat, t: Task) returns (s: State)
    requires Reachable(cfg, before, m) && Timely(cfg, before) && cfg.budget > 0
    requires Free(before, P) && t in before.tasks && before.tasks[t] == START.(candidates := {P})
    ensures Reachable(cfg, s, m + 1) && Timely(cfg, s)
    ensures s == WithLocal(before.(leases := before.leases[P := before.now + TTL],
                                   leasedAt := before.leasedAt[t := before.now]), t, HOLDING)
  {
    hide Reachable;
    s := Extend(cfg, before, m, Do(t, Acquire(P, true, true)));
  }

  lemma Executes(cfg: Config, before: State, m: nat, t: Task) returns (s: State)
    requires Reachable(cfg, before, m) && Timely(cfg, before)
    requires P in before.alive && t in before.tasks && before.tasks[t] == HOLDING
    ensures Reachable(cfg, s, m + 2)
    ensures s == WithLocal(before.(executed := before.executed + {(t, P)}), t, OCCUPIED)
  {
    hide Reachable;
    s := Extend(cfg, before, m, Do(t, GetIp(P, true)));
    s := Extend(cfg, s, m + 1, Do(t, Run(P, true, Result)));
  }

  /** A task with pod 7 in its listing leases it and runs, whenever the lease is free. */
  lemma TakesOver(cfg: Config, before: State, m: nat, t: Task) returns (s: State, n: nat)
    requires Reachable(cfg, before, m) && cfg.budget > 0
    requires P in before.alive && Free(before, P)
    requires t in before.tasks && before.tasks[t] == START.(candidates := {P})
    ensures Reachable(cfg, s, n)
    ensures s == WithLocal(before.(leases := before.leases[P := before.now + TTL],
                                   leasedAt := before.leasedAt[t := before.now],
                                   executed := before.executed + {(t, P)}), t, OCCUPIED)
  {
    ReachableTimely(cfg, before, m);
    hide Reachable, Timely, Free;
    s := Leases(cfg, before, m, t);
    s := Executes(cfg, s, m + 1, t);
    n := m + 3;
  }

  /** Task 1 has run on pod 7; task 2 still has the pod in a stale listing. */
  lemma FirstTaskRuns(cfg: Config) returns (s: State, n: nat)
    requires cfg.budget > 0
    ensures Reachable(cfg, s, n)
    ensures s == State(0, {P}, {P}, {P}, map[P := TTL],
                       map[1 := OCCUPIED, 2 := START.(candidates := {P})], map[1 := 0], {(1, P)})
  {
    hide Reachable, Timely;
    s, n := TwoListings(cfg);
    s, n := TakesOver(cfg, s, n, 1);
  }

  lemma LateDeletionBreaks(cfg: Config) returns (s: State, n: nat)
    requires cfg.budget > TTL
    ensures Reachable(cfg, s, n) && !SingleUse(s)
  {
    hide Reachable;
    s, n := FirstTaskRuns(cfg);
    s := Extend(cfg, s, n, Tick(TTL));
    s, n := TakesOver(cfg, s, n + 1, 2);
    assert (1, P) in s.executed && (2, P) in s.executed;
  }

  lemma LostDeletionBreaks(cfg: Config) returns (s: State, n: nat)
    requires cfg.budget > 0 && !cfg.reliableDelete
    ensures Reachable(cfg, s, n) && !SingleUse(s)
  {
    hide Reachable;
    s, n := FirstTaskRuns(cfg);
    s := Extend(cfg, s, n, Do(1, Delete(P, false)));
    s := Extend(cfg, s, n + 1, Do(1, Release(P, true)));
    s, n := TakesOver(cfg, s, n + 2, 2);
    assert (1, P) in s.executed && (2, P) in s.executed;
  }

  lemma DebugModeBreaks(cfg: Config) returns (s: State, n: nat)
    requires cfg.budget > 0 && cfg.debugMode
    ensures Reachable(cfg, s, n) && !SingleUse(s)
  {
    hide Reachable;
    s, n := FirstTaskRuns(cfg);
    s := Extend(cfg, s, n, Do(1, KeepAlive(P)));
    s := Extend(cfg, s, n + 1, Do(1, Release(P, true)));
    s, n := TakesOver(cfg, s, n + 2, 2);
    assert (1, P) in s.executed && (2, P) in s.executed;
  }

  /** The main theorem.  Whatever the interleaving, whatever the store and the listings
      answer, no pod ever runs the code of two tasks -- exactly when leased pods are deleted
      within the lifetime of a lease, deletions take effect and DEBUG_MODE is off. */
  lemma SingleUseTheorem(cfg: Config)
    requires cfg.budget > 0
    ensures AlwaysSingleUse(cfg) <==> SafeDeployment(cfg)
  {
    if SafeDeployment(cfg) {
      SafeDeploymentsAreSingleUse(cfg);
    } else if cfg.budget > TTL {
      var s, n := LateDeletionBreaks(cfg);
    } else if !cfg.reliableDelete {
      var s, n := LostDeletionBreaks(cfg);
    } else {
      var s, n := DebugModeBreaks(cfg);
    }
  }

  // ---------- no leaks ----------

  /** Needs neither timeliness nor DEBUG_MODE=false: finishing tasks have asked for the
      deletion even of a pod that was to be kept alive. */
  ghost predicate TaskLeakInv(s: State, l: Local) {
    && l.candidates <= s.pool
    && (l.finished ==> Discharged(l))
    && match l.given
       case Nothing => !l.deleted && !l.released && !l.abandoned && !l.leaseAsked
       case Leased(p) => p in s.pool && !l.abandoned && (l.deleted ==> p !in s.alive)
       case Made(p) =>
         && p in s.known && p !in s.pool
         && (l.deleted <==> p !in s.alive)
         && (l.abandoned ==> !l.deleted && !l.leaseAsked)
  }

  /** A pod that a task has made is its own. */
  ghost predicate MakersDiffer(s: State) {
    forall t, u ::
      t in s.tasks && u in s.tasks && s.tasks[t].given.Made? && s.tasks[t].given == s.tasks[u].given ==> t == u
  }

  /** Task t has asked for the lease of p and not yet for its release. */
  ghost predicate Owes(s: State, t: Task, p: Pod) {
    t in s.tasks && Holds(s.tasks[t], p) && s.tasks[t].leaseAsked && !s.tasks[t].released
  }

  ghost predicate LeakInv(s: State) {
    && s.alive <= s.known
    && s.pool <= s.known
    && (forall t :: t in s.tasks ==> TaskLeakInv(s, s.tasks[t]))
    && MakersDiffer(s)
    && (forall p :: p in s.leases ==> exists t :: Owes(s, t, p))
  }

  lemma CallKeepsDebtors(cfg: Config, s: State, t: Task, c: Call, p: Pod)
    requires cfg.reliableStore && LeakInv(s) && Enabled(cfg, s, Do(t, c))
    requires p in Apply(cfg, s, Do(t, c)).leases
    ensures exists u :: Owes(Apply(cfg, s, Do(t, c)), u, p)
  {
    var after := Apply(cfg, s, Do(t, c));
    if Stores(c, p) {
      assert TaskLeakInv(s, s.tasks[t]);
      assert Owes(after, t, p);
    } else {
      OldLease(cfg, s, t, c, p);
      var u :| Owes(s, u, p);
      DebtStays(cfg, s, t, c, p, u);
    }
  }

  predicate Stores(c: Call, p: Pod) { (c.Acquire? || c.AcquireOwn?) && c.pod == p && c.stored }

  lemma OldLease(cfg: Config, s: State, t: Task, c: Call, p: Pod)
    requires Enabled(cfg, s, Do(t, c)) && p in Apply(cfg, s, Do(t, c)).leases && !Stores(c, p)
    ensures p in s.leases
  {
  }

  lemma DebtStays(cfg: Config, s: State, t: Task, c: Call, p: Pod, u: Task)
    requires cfg.reliableStore && LeakInv(s) && Enabled(cfg, s, Do(t, c)) && Owes(s, u, p)
    requires p in Apply(cfg, s, Do(t, c)).leases && !Stores(c, p)
    ensures Owes(Apply(cfg, s, Do(t, c)), u, p)
  {
    assert TaskLeakInv(s, s.tasks[u]) && TaskLeakInv(s, s.tasks[t]);
    hide LeakInv;
  }

  lemma CallPreservesTaskLeakInv(cfg: Config, s: State, t: Task, c: Call, u: Task)
    requires cfg.reliableDelete && LeakInv(s) && Enabled(cfg, s, Do(t, c)) && u in s.tasks
    ensures var after := Apply(cfg, s, Do(t, c)); TaskLeakInv(after, after.tasks[u])
  {
    assert TaskLeakInv(s, s.tasks[u]) && TaskLeakInv(s, s.tasks[t]);
    hide Owes;
    assert s.tasks[u].given.Made? && s.tasks[u].given == s.tasks[t].given ==> t == u;
  }

  lemma CallKeepsMakers(cfg: Config, s: State, t: Task, c: Call)
    requires LeakInv(s) && Enabled(cfg, s, Do(t, c))
    ensures MakersDiffer(Apply(cfg, s, Do(t, c)))
  {
    hide Owes;
    var after := Apply(cfg, s, Do(t, c));
    forall x, y |
        && x in after.tasks && y in after.tasks
        && after.tasks[x].given.Made? && after.tasks[x].given == after.tasks[y].given
      ensures x == y
    {
      assert TaskLeakInv(s, s.tasks[x]) && TaskLeakInv(s, s.tasks[y]);
    }
  }

  lemma CallPreservesLeakInv(cfg: Config, s: State, t: Task, c: Call)
    requires cfg.reliableStore && cfg.reliableDelete && LeakInv(s) && Enabled(cfg, s, Do(t, c))
    ensures LeakInv(Apply(cfg, s, Do(t, c)))
  {
    var after := Apply(cfg, s, Do(t, c));
    assert after.alive <= after.known && after.pool <= after.known && after.tasks.Keys == s.tasks.Keys;
    CallKeepsMakers(cfg, s, t, c);
    hide Apply, Enabled, Owes, TaskLeakInv, MakersDiffer;
    forall u | u in after.tasks
      ensures TaskLeakInv(after, after.tasks[u])
    {
      CallPreservesTaskLeakInv(cfg, s, t, c, u);
    }
    forall p | p in after.leases
      ensures exists u :: Owes(after, u, p)
    {
      CallKeepsDebtors(cfg, s, t, c, p);
    }
  }

  lemma EnvironmentPreservesLeakInv(cfg: Config, s: State, step: Step)
    requires LeakInv(s) && !step.Do? && Enabled(cfg, s, step)
    ensures LeakInv(Apply(cfg, s, step))
  {
    var after := Apply(cfg, s, step);
    forall u | u in after.tasks
      ensures TaskLeakInv(after, after.tasks[u])
    {
      assert u in s.tasks ==> TaskLeakInv(s, s.tasks[u]);
    }
    forall p | p in after.leases
      ensures exists u :: Owes(after, u, p)
    {
      var u :| Owes(s, u, p);
      assert Owes(after, u, p);
    }
  }

  lemma {:induction false} ReachableLeakInv(cfg: Config, s: State, n: nat)
    requires cfg.reliableStore && cfg.reliableDelete && Reachable(cfg, s, n)
    ensures LeakInv(s)
    decreases n
  {
    hide LeakInv, Enabled, Apply, Timely;
    if n == 0 {
      Runs.NoStep(Moves(cfg), INIT, s);
      InitLeakInv();
    } else {
      var before, step := LastStep(cfg, s, n);
      ReachableLeakInv(cfg, before, n - 1);
      if step.Do? {
        CallPreservesLeakInv(cfg, before, step.task, step.call);
      } else {
        EnvironmentPreservesLeakInv(cfg, before, step);
      }
    }
  }

  lemma InitLeakInv()
    ensures LeakInv(INIT)
  {
  }

  lemma LeaseHasDebtor(s: State, p: Pod)
    requires LeakInv(s) && p in s.leases
    ensures exists t :: t in s.tasks && !s.tasks[t].finished
  {
    var t :| Owes(s, t, p);
    assert TaskLeakInv(s, s.tasks[t]);
  }

  /** A finished task has left its pod alive if and only if it abandoned it, and once every task
      has finished no lease key is in the store, not even an expired one. */
  lemma NoLeaks(cfg: Config, s: State, n: nat)
    requires cfg.reliableStore && cfg.reliableDelete && Reachable(cfg, s, n)
    ensures forall t, p :: t in s.tasks && s.tasks[t].finished && Holds(s.tasks[t], p) ==>
              (p in s.alive <==> s.tasks[t].abandoned)
    ensures (forall t :: t in s.tasks ==> s.tasks[t].finished) ==> s.leases == map[]
  {
    hide Reachable;
    ReachableLeakInv(cfg, s, n);
    forall t, p | t in s.tasks && s.tasks[t].finished && Holds(s.tasks[t], p)
      ensures p in s.alive <==> s.tasks[t].abandoned
    {
      assert TaskLeakInv(s, s.tasks[t]);
    }
    forall p | p in s.leases
      ensures exists t :: t in s.tasks && !s.tasks[t].finished
    {
      LeaseHasDebtor(s, p);
    }
  }

  /** The same in terms of what the task did: its pod outlives it if and only if the creation
      took effect without an answer, or the polling ended in an unexpected exception. */
  lemma LeaksAreTheTwoExits(cfg: Config, states: seq<State>, steps: seq<Step>, t: Task, p: Pod)
    requires cfg.reliableStore && cfg.reliableDelete && IsRun(cfg, states, steps)
    requires t in states[|steps|].tasks && states[|steps|].tasks[t].finished && Holds(states[|steps|].tasks[t], p)
    ensures p in states[|steps|].alive <==> exists i :: 0 <= i < |Spelled(steps, t)| && LosesPod(Spelled(steps, t)[i])
  {
    TaskFollowsItsCalls(cfg, states, steps, t);
    AbandonedMeans(Spelled(steps, t));
    assert Reachable(cfg, states[|steps|], |steps|);
    NoLeaks(cfg, states[|steps|], |steps|);
  }

  // Runs that leak a pod: the two exits of `provision` that abandon one.

  /** Task 1 is looking for a pod in an empty pool. */
  const SCANNING := State(0, {}, {}, {}, map[], map[1 := START], map[], {})

  lemma ScansAgain(cfg: Config, m: nat)
    requires Reachable(cfg, SCANNING, m)
    ensures Reachable(cfg, SCANNING, m + 1)
  {
    hide Reachable;
    var s := Extend(cfg, SCANNING, m, Do(1, ListPool({})));
    assert s == SCANNING;
  }

  lemma ThreeScans(cfg: Config) returns (n: nat)
    ensures Reachable(cfg, SCANNING, n)
  {
    StartReachable(cfg);
    hide Reachable;
    var s := Extend(cfg, INIT, 0, Arrive(1));
    s := Extend(cfg, s, 1, Do(1, Publish(Provisioning, true)));
    assert s == SCANNING;
    ScansAgain(cfg, 2);
    ScansAgain(cfg, 3);
    ScansAgain(cfg, 4);
    n := 5;
  }

  /** Task 1 has finished, and pod 7, which it made, lives on. */
  ghost predicate Leaked(s: State) {
    && s.alive == {P} && s.tasks.Keys == {1}
    && s.tasks[1].finished && s.tasks[1].given == Made(P) && s.tasks[1].abandoned
  }

  lemma ReportsAndFinishes(cfg: Config, before: State, m: nat) returns (s: State)
    requires Reachable(cfg, before, m) && before.alive == {P} && before.tasks.Keys == {1}
    requires before.tasks[1] == START.(given := Made(P), abandoned := true)
    ensures Reachable(cfg, s, m + 2) && Leaked(s)
  {
    hide Reachable;
    s := Extend(cfg, before, m, Do(1, Publish(Error, true)));
    s := Extend(cfg, s, m + 1, Do(1, Finish));
  }

  /** The answer to the creation is an error, although the pod was made. */
  lemma LostAnswerLeaks(cfg: Config) returns (s: State, n: nat)
    ensures Reachable(cfg, s, n) && Leaked(s)
  {
    hide Reachable;
    n := ThreeScans(cfg);
    s := Extend(cfg, SCANNING, n, Do(1, Create(P, true, false)));
    s := ReportsAndFinishes(cfg, s, n + 1);
    n := n + 3;
  }

  /** Task 1 has made pod 7 and polls it. */
  const POLLING := State(0, {P}, {}, {P}, map[], map[1 := START.(given := Made(P))], map[], {})

  lemma MakesPod(cfg: Config) returns (n: nat)
    ensures Reachable(cfg, POLLING, n)
  {
    hide Reachable;
    n := ThreeScans(cfg);
    var s := Extend(cfg, SCANNING, n, Do(1, Create(P, true, true)));
    assert s == POLLING;
    s := Extend(cfg, POLLING, n + 1, Do(1, Poll(P, false)));
    assert s == POLLING;
    n := n + 2;
  }

  /** An exception other than ApiException ends the polling. */
  lemma UnexpectedErrorLeaks(cfg: Config) returns (s: State, n: nat)
    ensures Reachable(cfg, s, n) && Leaked(s)
  {
    hide Reachable;
    n := MakesPod(cfg);
    s := Extend(cfg, POLLING, n, Do(1, Abandon(P)));
    s := ReportsAndFinishes(cfg, s, n + 1);
    n := n + 3;
  }
}
