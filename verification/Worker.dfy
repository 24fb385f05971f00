/** The orchestrator worker: what one task's code does, in the order it does it.

    Every call into the cluster, the lease store and the status channel goes through a
    `Session`, which records it with an arbitrary answer.  The methods below are the Python
    functions, loops and exception paths included; their contracts say that whatever the
    answers, the log keeps the discipline that LeaseProtocol builds on, the pod is given
    back, and a batch task ends with one terminal status. */
module Worker {
  import opened TaskProtocol

  /** How a Python call comes back. */
  datatype Exit = Normal | ValueError | OtherException

  datatype PodResult = Given(pod: Pod) | Failed

  /** What `list_namespaced_pod` does: answer, raise ApiException, raise something else.  The names
      in an answer differ. */
  datatype Listing = Listed(pods: set<Pod>) | ApiError | OtherError

  class Session {
    var log: seq<Call>

    ghost predicate Valid()
      reads this
    {
      Disciplined(log) && Earned(log)
    }

    ghost function Now(): Local
      requires Valid()
      reads this
    {
      Follow(log).local
    }

    constructor ()
      ensures Valid() && log == [] && Now() == START
    {
      log := [];
    }

    method Record(c: Call)
      requires Valid() && MayCall(Now(), c)
      requires c.Publish? && c.status == Completed ==> Count(log, Success) > 0
      modifies this
      ensures log == old(log) + [c] && Valid() && Now() == Advance(old(Now()), c)
      ensures Published(log) == old(Published(log)) + if c.Publish? then [c.status] else []
      ensures AllDelivered(log) <==> old(AllDelivered(log)) && (c.Publish? ==> c.delivered)
      ensures forall k :: Count(log, k) == old(Count(log, k)) + if IsA(c, k) then 1 else 0
    {
      FollowOneMore(log, c);
      log := log + [c];
    }

    method ListPool() returns (listing: Listing)
      requires Valid() && !Now().finished && Now().given == Nothing && Now().candidates == {}
      modifies this
      ensures Valid() && Silent(old(log), log) && OneMore(old(log), log, Scan)
      ensures Now() == if listing.Listed? then old(Now()).(candidates := listing.pods) else old(Now())
      ensures listing.OtherError? ==> EndsWith(log, ListFailed(false))
    {
      listing := *;
      if listing.Listed? {
        Record(Call.ListPool(listing.pods));
      } else {
        Record(ListFailed(listing.ApiError?));
      }
    }

    /** `RedisLockAdapter.acquire_lock`: never raises, an exception reads as False. */
    method AcquireLock(p: Pod) returns (granted: bool)
      requires Valid() && !Now().finished && Now().given == Nothing && p in Now().candidates
      modifies this
      ensures Valid() && Silent(old(log), log) && SameCounts(old(log), log)
      ensures Now() == if granted then old(Now()).(given := Leased(p), leaseAsked := true)
                       else old(Now()).(candidates := old(Now()).candidates - {p})
      ensures granted ==> |log| > 0 && Hands(log[|log| - 1], p)
    {
      var stored: bool;
      granted, stored := *, *;
      Record(Acquire(p, granted, stored));
    }

    /** `DEL lease:<pod>`; exceptions are swallowed. */
    method ReleaseLock(p: Pod)
      requires Valid() && MayCall(Now(), Release(p, true))
      modifies this
      ensures Valid() && Silent(old(log), log) && SameCounts(old(log), log)
      ensures Now() == old(Now()).(released := true)
    {
      var effective: bool := *;
      Record(Release(p, effective));
    }

    method GetPodIp(p: Pod) returns (found: bool)
      requires Valid() && MayCall(Now(), GetIp(p, true))
      modifies this
      ensures Valid() && Silent(old(log), log) && OneMore(old(log), log, Try)
      ensures Now() == if found then old(Now()).(hasIp := true) else old(Now())
    {
      found := *;
      Record(GetIp(p, found));
    }

    /** `K8sProvisionerAdapter.cleanup_pod`; exceptions are swallowed. */
    method CleanupPod(p: Pod, keepAlive: bool)
      requires Valid() && MayCall(Now(), if keepAlive then KeepAlive(p) else Delete(p, true))
      modifies this
      ensures Valid() && Silent(old(log), log) && SameCounts(old(log), log)
      ensures Now() == if keepAlive then old(Now()).(kept := true) else old(Now()).(deleted := true)
    {
      if keepAlive {
        Record(KeepAlive(p));
      } else {
        var effective: bool := *;
        Record(Delete(p, effective));
      }
    }

    /** `engine_client.execute_code`: what it returns has come from the pod; an exception leaves open
        whether the code has got there. */
    method CallEngine(p: Pod) returns (answer: Answer)
      requires Valid() && MayCall(Now(), Run(p, true, Result))
      modifies this
      ensures Valid() && Silent(old(log), log) && Now() == old(Now())
      ensures !answer.Relayed? && OneAttempt(old(log), log, answer.Result?)
    {
      var dictionary: bool, raises: bool, reached: bool := *, *, *;
      answer := if raises then Raised else if dictionary then Result else NotDictionary;
      Record(Run(p, reached || !raises, answer));
    }

    /** `relay_session`.  When it cannot connect to the pod it reports that itself and returns. */
    method RelaySession(p: Pod) returns (answer: Answer)
      requires Valid() && MayCall(Now(), Run(p, true, Relayed))
      modifies this
      ensures Valid() && Silent(old(log), log) && Now() == old(Now())
      ensures (answer.Raised? || answer.Relayed?) && OneAttempt(old(log), log, answer.Relayed?)
    {
      var raises: bool, reached: bool := *, *;
      answer := if raises then Raised else Relayed;
      Record(Run(p, reached, answer));
    }

    /** `publish_status`; `ok` is false when the publish raised. */
    method PublishStatus(s: Status) returns (ok: bool)
      requires Valid() && !Now().finished && (s == Completed ==> Count(log, Success) > 0)
      modifies this
      ensures SameCounts(old(log), log)
      ensures Valid() && Now() == old(Now()) && Published(log) == old(Published(log)) + [s]
      ensures AllDelivered(log) <==> old(AllDelivered(log)) && ok
    {
      ok := *;
      Record(Publish(s, ok));
    }
  }

  /** No status was published between the two logs. */
  ghost predicate Silent(before: seq<Call>, after: seq<Call>) {
    Published(after) == Published(before) && (AllDelivered(after) <==> AllDelivered(before))
  }

  ghost predicate SameCounts(before: seq<Call>, after: seq<Call>) {
    forall k :: Count(after, k) == Count(before, k)
  }

  /** One more call of a kind, and none of another. */
  ghost predicate OneMore(before: seq<Call>, after: seq<Call>, kind: Kind) {
    forall k :: Count(after, k) == Count(before, k) + if k == kind then 1 else 0
  }

  /** The code has been taken to a pod once more, with or without success. */
  ghost predicate OneAttempt(before: seq<Call>, after: seq<Call>, success: bool) {
    forall k :: Count(after, k) == Count(before, k) + if k == Attempt || (k == Success && success) then 1 else 0
  }

  ghost predicate EndsWith(log: seq<Call>, c: Call) { |log| > 0 && log[|log| - 1] == c }

  /** The call that makes p the task's pod, ready for use. */
  predicate Hands(c: Call, p: Pod) {
    (c.Acquire? && c.granted && c.pod == p) || (c.AcquireOwn? && c.pod == p)
  }

  /** The log ends as a search for a pod does that fails: with an unexpected exception of the
      listing, an error of the creation, an unexpected exception of the polling, or the
      deletion of a pod that was never ready. */
  predicate FoundNoPod(log: seq<Call>) {
    |log| > 0 &&
    var c := log[|log| - 1];
    c == ListFailed(false) || (c.Create? && !c.answered) || c.Abandon? || c.Delete?
  }

  /** The name `sandbox-<env>-<uuid>` of a dynamic pod. */
  method FreshPodName() returns (p: Pod)
  {
    p := *;
  }

  /** `K8sProvisionerAdapter.provision`: up to three scans of the pool, then a dynamic pod, which
      is polled up to 25 times.  Two exits abandon a pod that was made: `create_namespaced_pod`
      may raise after it has taken effect, and the polling expects ApiException only. */
  method Provision(c: Session) returns (r: PodResult)
    requires c.Valid() && c.Now() == START
    modifies c
    ensures c.Valid() && Silent(old(c.log), c.log)
    ensures !c.Now().kept && !c.Now().released && !c.Now().hasIp && !c.Now().finished
    ensures r.Given? ==> Controls(c.Now(), r.pod) && !c.Now().deleted
    ensures r.Failed? ==> Discharged(c.Now()) && !c.Now().leaseAsked
    ensures if r.Given? then |c.log| > 0 && Hands(c.log[|c.log| - 1], r.pod) else FoundNoPod(c.log)
    ensures c.Now().abandoned ==> r.Failed? && c.Now().given.Made? && !c.Now().deleted
    ensures Count(c.log, Scan) <= old(Count(c.log, Scan)) + 3
    ensures c.Now().given.Made? ==> Count(c.log, Scan) == old(Count(c.log, Scan)) + 3
    ensures Count(c.log, Wait) <= old(Count(c.log, Wait)) + 25
    ensures c.Now().deleted ==> Count(c.log, Wait) == old(Count(c.log, Wait)) + 25
    ensures OthersSame(old(c.log), c.log)
  {
    for attempt := 0 to 3
      invariant c.Valid() && Silent(old(c.log), c.log)
      invariant c.Now() == START
      invariant Counted(old(c.log), c.log, attempt, 0)
    {
      var listing := c.ListPool();
      match listing {
        case Listed(pods) =>
          r := LeaseOneOf(c, pods);
          if r.Given? {
            return;
          }
        case ApiError =>
        case OtherError =>
          return Failed;
      }
    }
    r := CreatePod(c);
  }

  /** Asks for the lease of one pod after the other, until one is granted. */
  method LeaseOneOf(c: Session, pods: set<Pod>) returns (r: PodResult)
    requires c.Valid() && c.Now() == START.(candidates := pods)
    modifies c
    ensures c.Valid() && Silent(old(c.log), c.log) && SameCounts(old(c.log), c.log)
    ensures r.Given? ==> |c.log| > 0 && Hands(c.log[|c.log| - 1], r.pod)
    ensures r.Given? ==> c.Now() == START.(candidates := c.Now().candidates, given := Leased(r.pod), leaseAsked := true)
    ensures r.Failed? ==> c.Now() == START
  {
    var left := pods;
    while left != {}
      invariant c.Valid() && Silent(old(c.log), c.log) && SameCounts(old(c.log), c.log)
      invariant c.Now() == START.(candidates := left)
      decreases |left|
    {
      var p :| p in left;
      var granted := c.AcquireLock(p);
      if granted {
        return Given(p);
      }
      left := left - {p};
    }
    return Failed;
  }

  /** The slow path: a pod of the task's own, polled until it is ready. */
  method CreatePod(c: Session) returns (r: PodResult)
    requires c.Valid() && c.Now() == START
    modifies c
    ensures c.Valid() && Silent(old(c.log), c.log)
    ensures !c.Now().kept && !c.Now().released && !c.Now().hasIp && !c.Now().finished && !c.Now().given.Leased?
    ensures r.Given? ==> Controls(c.Now(), r.pod) && !c.Now().deleted
    ensures r.Failed? ==> Discharged(c.Now()) && !c.Now().leaseAsked
    ensures if r.Given? then |c.log| > 0 && Hands(c.log[|c.log| - 1], r.pod) else FoundNoPod(c.log)
    ensures c.Now().abandoned ==> r.Failed? && c.Now().given.Made? && !c.Now().deleted
    ensures Count(c.log, Scan) == old(Count(c.log, Scan))
    ensures Count(c.log, Wait) <= old(Count(c.log, Wait)) + 25
    ensures c.Now().deleted ==> Count(c.log, Wait) == old(Count(c.log, Wait)) + 25
    ensures OthersSame(old(c.log), c.log)
  {
    hide Follow, Count, Published, AllDelivered, Earned;
    var pod := FreshPodName();
    var made: bool, answered: bool := *, *;
    c.Record(Create(pod, made || answered, answered));
    if !answered {
      return Failed;
    }
    for wait := 0 to 25
      invariant c.Valid() && Silent(old(c.log), c.log)
      invariant c.Now() == START.(given := Made(pod))
      invariant Counted(old(c.log), c.log, 0, wait)
    {
      var ready: bool, unexpected: bool := *, *;
      c.Record(Poll(pod, ready && !unexpected));
      if unexpected {
        c.Record(Abandon(pod));
        return Failed;
      }
      if ready {
        var stored: bool := *;
        c.Record(AcquireOwn(pod, stored));
        return Given(pod);
      }
    }
    var effective: bool := *;
    c.Record(Delete(pod, effective));
    return Failed;
  }

  ghost predicate OthersSame(before: seq<Call>, after: seq<Call>) {
    forall k :: k != Scan && k != Wait ==> Count(after, k) == Count(before, k)
  }

  ghost predicate Counted(before: seq<Call>, after: seq<Call>, scans: nat, waits: nat) {
    && Count(after, Scan) == Count(before, Scan) + scans
    && Count(after, Wait) == Count(before, Wait) + waits
    && OthersSame(before, after)
  }

  /** A task that holds pod p and has neither cleaned it up nor run on it yet. */
  ghost predicate Fresh(l: Local, p: Pod) {
    Controls(l, p) && !l.deleted && !l.kept && !l.released && !l.hasIp && !l.finished
  }

  /** Up to ten tries of `get_pod_ip`. */
  method AwaitIp(c: Session, pod: Pod) returns (found: bool)
    requires c.Valid() && Fresh(c.Now(), pod)
    modifies c
    ensures c.Valid() && Silent(old(c.log), c.log)
    ensures c.Now() == old(c.Now()).(hasIp := found)
    ensures Count(c.log, Try) <= old(Count(c.log, Try)) + 10
    ensures !found ==> Count(c.log, Try) == old(Count(c.log, Try)) + 10
    ensures forall k :: k != Try ==> Count(c.log, k) == old(Count(c.log, k))
  {
    found := false;
    for i := 0 to 10
      invariant c.Valid() && Silent(old(c.log), c.log)
      invariant Count(c.log, Try) == old(Count(c.log, Try)) + i
      invariant forall k :: k != Try ==> Count(c.log, k) == old(Count(c.log, k))
      invariant c.Now() == old(c.Now()) && !found
    {
      found := c.GetPodIp(pod);
      if found {
        return;
      }
    }
  }

  /** `ExecutionService.execute_code` with its `finally`: the code is taken to the pod once, if the
      pod has an address; the pod is cleaned up, or kept for debugging after a failure, before
      its lease is released. */
  method ExecuteCode(c: Session, pod: Pod, debugMode: bool) returns (answer: Answer)
    requires c.Valid() && Fresh(c.Now(), pod)
    modifies c
    ensures c.Valid() && Silent(old(c.log), c.log)
    ensures Controls(c.Now(), pod) && !c.Now().finished && c.Now().released
    ensures c.Now().kept <==> debugMode && answer.Raised?
    ensures c.Now().deleted <==> !c.Now().kept
    ensures Count(c.log, Attempt) == old(Count(c.log, Attempt)) + if c.Now().hasIp then 1 else 0
    ensures Count(c.log, Success) == old(Count(c.log, Success)) + if answer.Result? then 1 else 0
    ensures !answer.Relayed? && (!answer.Raised? ==> c.Now().hasIp)
    ensures !c.Now().hasIp ==> Count(c.log, Try) == old(Count(c.log, Try)) + 10
  {
    hide Follow, Count, Published, AllDelivered, Earned;
    var found := AwaitIp(c, pod);
    answer := Raised;
    if found {
      answer := c.CallEngine(pod);
    }
    c.CleanupPod(pod, debugMode && answer.Raised?);
    c.ReleaseLock(pod);
  }

  datatype Mode = Batch | Interactive

  /** A popped task: how its pod catalog resolves, whether it has the keys that provisioning needs,
      and whether it has a `source_code`. */
  datatype Task = Task(mode: Mode, resolves: Exit, identified: bool, hasSource: bool)

  /** The `try` block of `handle_batch_task`; `pod` is what `pod_name` holds afterwards.  It ends
      without an exception exactly when the pod has answered with a dictionary and all statuses
      went out; what can keep it from asking is a missing key, a failed search for a pod, and
      a pod that gets no address. */
  method BatchBody(c: Session, task: Task, debugMode: bool) returns (raised: bool, hasPod: bool, pod: Pod)
    requires c.Valid() && c.log == [] && c.Now() == START
    modifies c
    ensures c.Valid() && !c.Now().finished
    ensures hasPod ==> Controls(c.Now(), pod)
    ensures !hasPod ==> Discharged(c.Now()) && !c.Now().leaseAsked && !c.Now().hasIp
    ensures !raised <==> AllDelivered(c.log) && Count(c.log, Success) == 1
    ensures AllDelivered(c.log) ==>
              Published(c.log) == if !raised then [Provisioning, Executing, Completed]
                                  else if hasPod then [Provisioning, Executing] else [Provisioning]
    ensures AllDelivered(c.log) && !hasPod ==> !task.identified || FoundNoPod(c.log)
    ensures AllDelivered(c.log) && hasPod && task.hasSource ==>
              Count(c.log, Attempt) == 1 || (!c.Now().hasIp && Count(c.log, Try) == 10)
    ensures Count(c.log, Success) <= Count(c.log, Attempt) <= 1
  {
    hasPod, pod := false, 0;
    var ok := c.PublishStatus(Provisioning);
    if !ok {
      return true, false, 0;
    }
    if !task.identified {  // the KeyError of `student_id`, `course_code` or another key
      return true, false, 0;
    }
    var r := Provision(c);
    if r.Failed? {
      return true, false, 0;
    }
    hasPod, pod := true, r.pod;
    ok := c.PublishStatus(Executing);
    if !ok {
      return true, hasPod, pod;
    }
    if !task.hasSource {  // the KeyError of `source_code`
      return true, hasPod, pod;
    }
    var answer := ExecuteCode(c, pod, debugMode);
    // a result that is not a dictionary cannot take the pod name
    if !answer.Result? {
      return true, hasPod, pod;
    }
    ok := c.PublishStatus(Completed);
    raised := !ok;
  }

  /** The `finally` block of both handlers. */
  method GiveBack(c: Session, hasPod: bool, pod: Pod)
    requires c.Valid() && !c.Now().finished
    requires if hasPod then Controls(c.Now(), pod) else Discharged(c.Now())
    modifies c
    ensures c.Valid() && Silent(old(c.log), c.log) && SameCounts(old(c.log), c.log)
    ensures !c.Now().finished && Discharged(c.Now()) && c.Now().hasIp == old(c.Now()).hasIp
    ensures c.Now().abandoned == old(c.Now()).abandoned && (hasPod ==> GivenBack(c.Now()))
  {
    if hasPod {
      c.CleanupPod(pod, false);
      c.ReleaseLock(pod);
    }
  }

  /** With publishing reliable: `completed` at the end if and only if the pod has answered. */
  method HandleBatchTask(c: Session, task: Task, debugMode: bool) returns (exit: Exit)
    requires c.Valid() && c.log == [] && c.Now() == START
    modifies c
    ensures c.Valid() && !c.Now().finished && Discharged(c.Now())
    ensures AllDelivered(c.log) ==> (exit == Normal <==> task.resolves != OtherException)
    ensures AllDelivered(c.log) && exit != Normal ==> Published(c.log) == [] && Count(c.log, Attempt) == 0
    ensures AllDelivered(c.log) && exit == Normal ==>
              var ss := Published(c.log);
              EndsOnce(ss) && (ss[|ss| - 1] == Completed <==> Count(c.log, Success) == 1)
    ensures AllDelivered(c.log) && task.resolves == ValueError ==> Published(c.log) == [Error]
    ensures Count(c.log, Success) <= Count(c.log, Attempt) <= 1
  {
    if task.resolves == ValueError {
      var ok := c.PublishStatus(Error);
      return if ok then Normal else OtherException;
    } else if task.resolves == OtherException {
      return OtherException;
    }
    exit := Normal;
    var raised, hasPod, pod := BatchBody(c, task, debugMode);
    if raised {
      var ok := c.PublishStatus(Error);
      exit := if ok then Normal else OtherException;
    }
    GiveBack(c, hasPod, pod);
  }

  /** The `try` block of `handle_interactive_task`.  `relay_session` publishes through its
      own client; module Relay follows those messages. */
  method InteractiveBody(c: Session, task: Task) returns (exit: Exit, hasPod: bool, pod: Pod)
    requires c.Valid() && c.log == [] && c.Now() == START
    modifies c
    ensures c.Valid() && !c.Now().finished
    ensures hasPod ==> Controls(c.Now(), pod) && task.resolves == Normal
    ensures hasPod <==> c.Now().given != Nothing && !c.Now().abandoned && !c.Now().deleted
    ensures !hasPod ==> Discharged(c.Now())
    ensures Count(c.log, Attempt) == if c.Now().hasIp then 1 else 0
    ensures c.Now().hasIp ==> hasPod && (exit == Normal <==> Count(c.log, Success) == 1)
    ensures !c.Now().hasIp ==> Count(c.log, Success) == 0
    ensures AllDelivered(c.log) && !hasPod ==>
              exit != Normal && (task.resolves != Normal || !task.identified || FoundNoPod(c.log))
    ensures hasPod && !c.Now().hasIp ==>
              Count(c.log, Try) == 10 && (exit == Normal <==> AllDelivered(c.log))
    ensures AllDelivered(c.log) ==>
              Published(c.log) == if task.resolves != Normal then [] else if hasPod && !c.Now().hasIp
                                  then [Provisioning, Error] else [Provisioning]
  {
    hasPod, pod := false, 0;
    exit := task.resolves;
    if exit != Normal {
      return;
    }
    var ok := c.PublishStatus(Provisioning);
    if !ok {
      return OtherException, false, 0;
    }
    if !task.identified {
      return OtherException, false, 0;
    }
    var r := Provision(c);
    if r.Failed? {
      return OtherException, false, 0;
    }
    hasPod, pod := true, r.pod;
    var found := AwaitIp(c, pod);
    if !found {
      ok := c.PublishStatus(Error);
      exit := if ok then Normal else OtherException;
      return;
    }
    var answer := c.RelaySession(pod);
    exit := if answer.Relayed? then Normal else OtherException;
  }

  /** What the handler itself publishes is `provisioning` and at most one `error`.  The relay is
      started once if the pod has an address; a session that was relayed to its end gets its
      terminal status from the relay, and every other task an `error` from the handler. */
  method HandleInteractiveTask(c: Session, task: Task) returns (exit: Exit)
    requires c.Valid() && c.log == [] && c.Now() == START
    modifies c
    ensures c.Valid() && !c.Now().finished && Discharged(c.Now())
    ensures Count(c.log, Attempt) == if c.Now().hasIp then 1 else 0
    ensures AllDelivered(c.log) ==>
              && exit == Normal && HandlerStatuses(Published(c.log))
              && (Published(c.log) == [Provisioning] <==> Count(c.log, Success) == 1)
  {
    hide Follow, Count, Published, AllDelivered, Earned, Discharged;
    var hasPod, pod;
    exit, hasPod, pod := InteractiveBody(c, task);
    if exit != Normal {
      ghost var said := Published(c.log);
      var ok := c.PublishStatus(Error);
      assert |Published(c.log)| == |said| + 1 && Published(c.log)[|said|] == Error;
      exit := if ok then Normal else OtherException;
    }
    GiveBack(c, hasPod, pod);
  }

  datatype TaskData = Unreadable | WithoutId | Request(task: Task)

  /** `process_task`, from the popped text to the end of the coroutine. */
  method ProcessTask(c: Session, data: TaskData, debugMode: bool)
    requires c.Valid() && c.log == []
    modifies c
    ensures c.Valid() && c.Now().finished && Discharged(c.Now())
    ensures !data.Request? ==> c.log == [Finish]
    ensures data.Request? && data.task.mode == Batch && AllDelivered(c.log) ==>
              var ss := Published(c.log);
              EndsOnce(ss) && (ss[|ss| - 1] == Completed <==> Count(c.log, Success) == 1)
    ensures data.Request? && data.task.mode == Interactive && AllDelivered(c.log) ==>
              && HandlerStatuses(Published(c.log))
              && (Published(c.log) == [Provisioning] <==> Count(c.log, Success) == 1)
  {
    assert c.Now() == START;
    hide Follow, Count, AllDelivered, Earned;
    if data.Request? {
      var exit;
      if data.task.mode == Interactive {
        exit := HandleInteractiveTask(c, data.task);
      } else {
        exit := HandleBatchTask(c, data.task, debugMode);
      }
      if exit != Normal {
        var ok := c.PublishStatus(Error);
      }
    }
    c.Record(Finish);
  }
}
