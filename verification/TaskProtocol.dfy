/** What one non-GUI worker task may do to the shared cluster and lease store, call by call.

    A task is the sequence of its calls with the answers it got.  `Advance` is the discipline
    the worker code keeps (proved in module Worker), and all that module LeaseProtocol needs
    to know about the code when it interleaves any number of tasks. */
module TaskProtocol {
  /** Pod names are never reused. */
  type Pod = nat

  datatype Status = Provisioning | Executing | Completed | Error

  /** How the call that takes the source code to the pod comes back: with an exception; in a batch
      task with a dictionary or something else; in an interactive task when the relay is done. */
  datatype Answer = Raised | NotDictionary | Result | Relayed

  datatype Call =
    | ListPool(ready: set<Pod>)                     // pods of the pool that are ready in the answer
    | ListFailed(expected: bool)                    // by ApiException or by another exception
    | Acquire(pod: Pod, granted: bool, stored: bool)  // SET lease:<pod> NX EX 60; an exception reads as
                                                    // "not granted", whether or not the key was stored
    | AcquireOwn(pod: Pod, stored: bool)            // the lease of a dynamic pod; the answer is ignored
    | Create(pod: Pod, made: bool, answered: bool)  // an error answer leaves open whether the pod was made
    | Poll(pod: Pod, isReady: bool)                 // of a dynamic pod's readiness
    | Abandon(pod: Pod)                             // an exception nobody expects ends that polling
    | GetIp(pod: Pod, found: bool)
    | Run(pod: Pod, reached: bool, answer: Answer)  // whether the source code has reached the pod
    | Delete(pod: Pod, effective: bool)
    | KeepAlive(pod: Pod)                           // DEBUG_MODE: label the pod instead of deleting it
    | Release(pod: Pod, effective: bool)            // DEL lease:<pod>
    | Publish(status: Status, delivered: bool)
    | Finish

  datatype Given = Nothing | Leased(pod: Pod) | Made(pod: Pod)

  /** What a task's own calls so far say about it. */
  datatype Local = Local(
    candidates: set<Pod>,  // of the last pool listing, possibly stale; without those that were refused
    given: Given,          // the pod this task holds, if any
    hasIp: bool,
    deleted: bool,         // has asked for the deletion of its pod
    kept: bool,            // has relabelled its pod instead
    abandoned: bool,       // has lost track of a pod it made
    leaseAsked: bool,      // has asked for a lease that may be in the store
    released: bool,        // has asked for the release of its lease
    finished: bool)

  const START := Local({}, Nothing, false, false, false, false, false, false, false)

  predicate Holds(l: Local, p: Pod) {
    l.given == Leased(p) || l.given == Made(p)
  }

  /** Holds the pod and knows it. */
  predicate Controls(l: Local, p: Pod) { Holds(l, p) && !l.abandoned }

  predicate MayCall(l: Local, c: Call) {
    && !l.finished
    && match c
       case ListPool(_) => l.given == Nothing && l.candidates == {}
       case ListFailed(_) => l.given == Nothing && l.candidates == {}
       case Acquire(p, _, _) => l.given == Nothing && p in l.candidates
       case AcquireOwn(p, _) => l.given == Made(p) && !l.abandoned && !l.deleted && !l.released
       case Create(p, made, answered) => l.given == Nothing && l.candidates == {} && (answered ==> made)
       case Poll(p, _) => l.given == Made(p) && !l.abandoned
       case Abandon(p) => l.given == Made(p) && !l.abandoned && !l.deleted && !l.leaseAsked
       case GetIp(p, _) => Controls(l, p)
       case Run(p, reached, answer) =>
         && Controls(l, p) && l.hasIp && !l.deleted && !l.released
         && (answer.Result? || answer.NotDictionary? ==> reached)
       case Delete(p, _) => Controls(l, p)
       case KeepAlive(p) => Controls(l, p) && !l.deleted
       case Release(p, _) => Controls(l, p) && (l.deleted || l.kept)
       case Publish(_, _) => true
       case Finish => Discharged(l)
  }

  function Advance(l: Local, c: Call): Local
    requires MayCall(l, c)
  {
    match c
    case ListPool(ready) => l.(candidates := ready)
    case ListFailed(_) => l
    case Acquire(p, granted, _) =>
      if granted then l.(given := Leased(p), leaseAsked := true) else l.(candidates := l.candidates - {p})
    case AcquireOwn(p, _) => l.(leaseAsked := true)
    case Create(p, made, answered) => if made then l.(given := Made(p), abandoned := !answered) else l
    case Poll(_, _) => l
    case Abandon(_) => l.(abandoned := true)
    case GetIp(p, found) => if found then l.(hasIp := true) else l
    case Run(_, _, _) => l
    case Delete(_, _) => l.(deleted := true)
    case KeepAlive(_) => l.(kept := true)
    case Release(_, _) => l.(released := true)
    case Publish(_, _) => l
    case Finish => l.(finished := true)
  }

  datatype Following = Kept(local: Local) | Broken

  /** The discipline over a whole log of calls. */
  function Follow(log: seq<Call>): Following {
    if |log| == 0 then Kept(START)
    else
      match Follow(log[..|log| - 1])
      case Broken => Broken
      case Kept(l) => if MayCall(l, log[|log| - 1]) then Kept(Advance(l, log[|log| - 1])) else Broken
  }

  predicate Disciplined(log: seq<Call>) { Follow(log).Kept? }

  /** The pod's deletion has been asked for, and the release of its lease. */
  predicate GivenBack(l: Local) {
    l.given == Nothing || (l.deleted && (l.leaseAsked ==> l.released))
  }

  /** All that a finished task has done: it has given its pod back, or lost track of it. */
  predicate Discharged(l: Local) { GivenBack(l) || l.abandoned }

  /** The two calls after which nobody knows of a pod that was made. */
  predicate LosesPod(c: Call) { c.Abandon? || (c.Create? && c.made && !c.answered) }

  lemma AdvanceLoses(l: Local, c: Call)
    requires MayCall(l, c) && (l.abandoned ==> l.given.Made?)
    ensures Advance(l, c).abandoned <==> l.abandoned || LosesPod(c)
    ensures Advance(l, c).abandoned ==> Advance(l, c).given.Made?
  {
    hide Discharged;
  }

  lemma {:induction false} AbandonedMeans(log: seq<Call>)
    requires Disciplined(log)
    ensures Follow(log).local.abandoned <==> exists i :: 0 <= i < |log| && LosesPod(log[i])
    ensures Follow(log).local.abandoned ==> Follow(log).local.given.Made?
    decreases |log|
  {
    if |log| > 0 {
      var n := |log| - 1;
      AbandonedMeans(log[..n]);
      AdvanceLoses(Follow(log[..n]).local, log[n]);
      hide Advance, MayCall, LosesPod;
      if exists i :: 0 <= i < n && LosesPod(log[..n][i]) {
        var i :| 0 <= i < n && LosesPod(log[..n][i]);
        assert LosesPod(log[i]);
      } else {
        assert forall i :: 0 <= i < n ==> log[..n][i] == log[i];
      }
    }
  }

  // ---------- what the discipline means ----------

  lemma AdvanceHolds(l: Local, c: Call, p: Pod)
    requires MayCall(l, c)
    ensures Holds(l, p) ==> Holds(Advance(l, c), p)
    ensures Advance(l, c).given == Nothing ==> l.given == Nothing
  {
  }

  /** No `completed` without a result before it. */
  predicate Earned(log: seq<Call>) {
    |log| > 0 ==>
      var n := |log| - 1;
      Earned(log[..n]) && (log[n].Publish? && log[n].status == Completed ==> Count(log[..n], Success) > 0)
  }

  /** The pod has been given the code and has returned a result, or the relay to it has ended. */
  predicate Answered(c: Call) { IsA(c, Success) && (c.reached || c.answer.Relayed?) }

  lemma {:induction false} SuccessMeans(log: seq<Call>)
    requires Disciplined(log) && Count(log, Success) > 0
    ensures exists j :: 0 <= j < |log| && Answered(log[j]) && Holds(Follow(log).local, log[j].pod)
    decreases |log|
  {
    var n := |log| - 1;
    var before, c := Follow(log[..n]).local, log[n];
    if IsA(c, Success) {
      RunHolds(before, c);
    } else {
      SuccessMeans(log[..n]);
      var j :| 0 <= j < n && Answered(log[..n][j]) && Holds(before, log[..n][j].pod);
      AdvanceHolds(before, c, log[j].pod);
    }
  }

  lemma RunHolds(l: Local, c: Call)
    requires MayCall(l, c) && c.Run?
    ensures Holds(Advance(l, c), c.pod) && (c.answer.Result? ==> c.reached)
  {
  }

  /** Nobody publishes `completed` before its own pod has been given the code and answered. */
  lemma {:induction false} CompletedIsEarned(log: seq<Call>, i: nat)
    requires Disciplined(log) && Earned(log) && i < |log| && log[i].Publish? && log[i].status == Completed
    ensures Disciplined(log[..i])
    ensures exists j :: 0 <= j < i && Answered(log[j]) && Holds(Follow(log[..i]).local, log[j].pod)
    decreases |log|
  {
    var n := |log| - 1;
    if i < n {
      CompletedIsEarned(log[..n], i);
      assert log[..n][..i] == log[..i];
    } else {
      SuccessMeans(log[..n]);
    }
  }

  lemma {:induction false} PrefixDisciplined(log: seq<Call>, k: nat)
    requires Disciplined(log) && k <= |log|
    ensures Disciplined(log[..k])
    decreases |log|
  {
    if k < |log| {
      PrefixDisciplined(log[..|log| - 1], k);
      assert log[..|log| - 1][..k] == log[..k];
    } else {
      assert log[..k] == log;
    }
  }

  /** Pod p was asked for after the k-th call, and refused. */
  predicate TriedAfter(log: seq<Call>, k: nat, p: Pod) {
    exists j :: k < j < |log| && log[j].Acquire? && log[j].pod == p && !log[j].granted
  }

  lemma TriedMore(log: seq<Call>, c: Call, k: nat, p: Pod)
    requires k < |log|
    ensures TriedAfter(log + [c], k, p) <==> TriedAfter(log, k, p) || (c.Acquire? && c.pod == p && !c.granted)
  {
    var more := log + [c];
    assert more[|log|] == c;
    if TriedAfter(log, k, p) {
      var j :| k < j < |log| && log[j].Acquire? && log[j].pod == p && !log[j].granted;
      assert more[j] == log[j];
    }
  }

  lemma AdvanceCandidates(l: Local, c: Call, p: Pod)
    requires MayCall(l, c) && Advance(l, c).given == Nothing
    ensures p in l.candidates ==> p in Advance(l, c).candidates || (c.Acquire? && c.pod == p && !c.granted)
    ensures c.ListPool? && p in c.ready ==> p in Advance(l, c).candidates
  {
  }

  /** A pod that was listed has been refused since, or has yet to be asked for. */
  lemma {:induction false} ListedPods(log: seq<Call>, k: nat, p: Pod)
    requires Disciplined(log) && Follow(log).local.given == Nothing
    requires k < |log| && log[k].ListPool? && p in log[k].ready
    ensures TriedAfter(log, k, p) || p in Follow(log).local.candidates
    decreases |log|
  {
    var n := |log| - 1;
    var before, c := Follow(log[..n]).local, log[n];
    AdvanceCandidates(before, c, p);
    AdvanceHolds(before, c, p);
    hide MayCall, Advance, Holds, TriedAfter;
    if k < n {
      ListedPods(log[..n], k, p);
      TriedMore(log[..n], c, k, p);
      assert log == log[..n] + [c];
    }
  }

  /** A dynamic pod is made only when every ready pod of every listing has been asked for since
      and refused. */
  lemma NoPodPassedOver(log: seq<Call>, i: nat, k: nat, p: Pod)
    requires Disciplined(log) && i < |log| && log[i].Create?
    requires k < i && log[k].ListPool? && p in log[k].ready
    ensures TriedAfter(log[..i], k, p)
  {
    PrefixDisciplined(log, i + 1);
    assert log[..i + 1][..i] == log[..i];
    ListedPods(log[..i], k, p);
  }

  /** The calls that the code repeats. */
  datatype Kind = Scan | Wait | Try | Attempt | Success

  predicate IsA(c: Call, k: Kind) {
    match k
    case Scan => c.ListPool? || c.ListFailed?
    case Wait => c.Poll?
    case Try => c.GetIp?
    case Attempt => c.Run?
    case Success => c.Run? && (c.answer.Result? || c.answer.Relayed?)
  }

  function Count(log: seq<Call>, k: Kind): nat {
    if |log| == 0 then 0 else Count(log[..|log| - 1], k) + if IsA(log[|log| - 1], k) then 1 else 0
  }

  lemma FollowOneMore(log: seq<Call>, c: Call)
    requires Disciplined(log)
    ensures Follow(log + [c]) ==
            if MayCall(Follow(log).local, c) then Kept(Advance(Follow(log).local, c)) else Broken
    ensures Published(log + [c]) == Published(log) + if c.Publish? then [c.status] else []
    ensures AllDelivered(log + [c]) <==> AllDelivered(log) && (c.Publish? ==> c.delivered)
    ensures Earned(log + [c]) <==>
            Earned(log) && (c.Publish? && c.status == Completed ==> Count(log, Success) > 0)
    ensures forall k :: Count(log + [c], k) == Count(log, k) + if IsA(c, k) then 1 else 0
  {
    assert (log + [c])[..|log|] == log;
  }

  /** The statuses a task has tried to publish, in order. */
  function Published(log: seq<Call>): seq<Status> {
    if |log| == 0 then []
    else Published(log[..|log| - 1]) + if log[|log| - 1].Publish? then [log[|log| - 1].status] else []
  }

  predicate AllDelivered(log: seq<Call>) {
    forall i :: 0 <= i < |log| && log[i].Publish? ==> log[i].delivered
  }

  predicate Terminal(s: Status) { s == Completed || s == Error }

  /** What the interactive handler publishes itself, the relay apart. */
  predicate HandlerStatuses(statuses: seq<Status>) {
    statuses == [Error] || statuses == [Provisioning] || statuses == [Provisioning, Error]
  }

  /** Exactly one terminal status, and it is the last one. */
  predicate EndsOnce(statuses: seq<Status>) {
    && |statuses| > 0
    && Terminal(statuses[|statuses| - 1])
    && forall i :: 0 <= i < |statuses| - 1 ==> !Terminal(statuses[i])
  }
}
