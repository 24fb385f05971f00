/** One interactive task between the client and the pod.

    Output goes pod -> relay (in the worker) -> Redis channel -> gateway -> client, and stdin
    goes back the same way.  A Redis channel drops what is published while nobody subscribes
    and is first-in-first-out for a subscriber.  Gateway, worker, the relay's coroutines, the
    pod and the client take their steps in any order. */
module Relay {
  import opened Bytes
  import Engine = EngineSession
  import Posix
  import Runs

  /** One message on the status channel; `Done` is the worker's own `completed`, in batch mode. */
  datatype Update = Provisioning | Executing | Forwarded(message: Engine.Message) | Failure | Done

  /** The statuses `completed`, `compile_error`, `timeout` and `error`. */
  predicate Final(u: Update) {
    u.Failure? || u.Done? || (u.Forwarded? && Engine.Terminal(u.message))
  }

  datatype Reply = Queued | Passed(update: Update)

  /** What the client sends after its request. */
  datatype Typed =
    | Keyed(message: Engine.ClientMessage)    // JSON with one of the two stdin keys
    | Raw(text: Data)                         // not JSON
    | Ignored                                 // other JSON
    | Scalar                                  // a JSON number, boolean or null: the key test raises
    | Hangup

  // ---------- the state ----------

  datatype Gateway = Opening | Subscribed | Told | Forwarding | Sending(update: Update) | Closing | Closed

  /** The status direction: the gateway, its subscription and the client. */
  datatype Up = Up(
    gateway: Gateway,
    subscribed: bool,
    queue: seq<Update>,        // delivered to the gateway, not yet read
    pushed: bool,              // the task is in the execution queue, or has been
    client: seq<Reply>,
    gone: bool,                // a send to the client has failed
    published: seq<Update>)    // everything ever published for the task

  datatype Worker =
    | Idle                     // has not popped the task
    | Resolving
    | Allocating
    | HasPod
    | Connecting
    | SendingRequest
    | Subscribing
    | Announcing
    | Waiting
    | Cancelling
    | AwaitingOutput
    | Cleaning(failing: bool)
    | Failing
    | Finished

  datatype OutputTask =
    | NotStarted
    | Awaiting
    | Relaying(message: Engine.Message)
    | Checking(message: Engine.Message)
    | Broken
    | Returned

  /** The worker, and the pod's socket as the relay sees it. */
  datatype Mid = Mid(
    worker: Worker,
    output: OutputTask,
    completed: bool,
    podOut: seq<Engine.Message>,    // what has come from the pod
    read: nat,
    podClosed: bool,
    own: seq<Update>)               // what the worker has published itself, outside the relay

  datatype StdinLoop = Off | Listening | Publishing(message: Engine.ClientMessage, next: StdinLoop) | Over

  /** The stdin direction. */
  datatype Down = Down(
    loop: StdinLoop,                          // in the gateway
    typed: seq<Typed>,                        // what the client has sent
    taken: nat,                               // how much of it the loop has read
    early: nat,                               // how much of it was sent before the client saw `executing`
    published: seq<Engine.ClientMessage>,
    missed: nat,                              // how much of that was published before the relay subscribed
    queue: seq<Engine.ClientMessage>,         // delivered to the relay, not yet read
    runs: bool,                               // the relay's stdin task
    podIn: seq<Engine.ClientMessage>)         // put on the pod's socket

  datatype State = State(up: Up, mid: Mid, down: Down)

  const START := State(
    Up(Opening, false, [], false, [], false, []),
    Mid(Idle, NotStarted, false, [], 0, false, []),
    Down(Off, [], 0, 0, [], 0, [], false, []))

  datatype How = Fine | Network | Other

  datatype Step =
    | GatewayStep(sent: bool)
    | ClientTypes(typed: Typed)
    | TakeTyped
    | PublishTyped
    | WorkerStep(how: How)
    | OutputStep(clean: bool)
    | StdinStep
    | PodSends(message: Engine.Message)
    | PodCloses

  // ---------- the gateway ----------

  function Publish(up: Up, us: seq<Update>): Up {
    up.(published := up.published + us, queue := if up.subscribed then up.queue + us else up.queue)
  }

  predicate GatewayCan(up: Up) {
    match up.gateway
    case Forwarding => up.queue != []
    case Closed => false
    case _ => true
  }

  /** `sent` tells whether a send to the client succeeds. */
  function GatewayDoes(up: Up, sent: bool): Up
    requires GatewayCan(up)
  {
    match up.gateway
    case Opening => up.(gateway := Subscribed, subscribed := true)
    case Subscribed =>
      if sent then up.(gateway := Told, client := up.client + [Queued]) else up.(gateway := Closing, gone := true)
    case Told => up.(gateway := Forwarding, pushed := true)
    case Forwarding => up.(gateway := Sending(up.queue[0]), queue := up.queue[1..])
    case Sending(u) =>
      if sent then up.(gateway := if Final(u) then Closing else Forwarding, client := up.client + [Passed(u)])
      else up.(gateway := Closing, gone := true)
    case Closing => up.(gateway := Closed, subscribed := false)
  }

  /** The stdin loop starts when the task has been pushed and is cancelled at the end. */
  function LoopAfter(up: Up, loop: StdinLoop): StdinLoop {
    if up.gateway.Told? then Listening else if up.gateway.Closing? then Over else loop
  }

  // ---------- stdin, from the client to the channel ----------

  /** What is published for one message of the client: nothing or one message. */
  function Translate(t: Typed): seq<Engine.ClientMessage> {
    match t
    case Keyed(m) => [m]
    case Raw(text) => [Engine.Object([], Engine.Is(text + [Engine.NEWLINE]), Engine.Absent)]
    case Hangup => [Engine.Object([], Engine.Absent, Engine.Is(true))]
    case _ => []
  }

  /** The message ends the gateway's stdin loop: the client has gone, or -- silently -- a JSON
      scalar has raised an exception. */
  predicate Ends(t: Typed) { t.Hangup? || t.Scalar? }

  predicate Stopped(ts: seq<Typed>) { exists i :: 0 <= i < |ts| && Ends(ts[i]) }

  function Translated(ts: seq<Typed>): seq<Engine.ClientMessage> {
    if |ts| == 0 then []
    else
      var before := ts[..|ts| - 1];
      if Stopped(before) then Translated(before) else Translated(before) + Translate(ts[|ts| - 1])
  }

  function TakeOne(d: Down): Down
    requires d.loop.Listening? && d.taken < |d.typed|
  {
    var t := d.typed[d.taken];
    var after := if Ends(t) then Over else Listening;
    d.(taken := d.taken + 1, loop := if Translate(t) == [] then after else Publishing(Translate(t)[0], after))
  }

  /** The relay's subscription lasts from Announcing until it has cleaned up. */
  predicate Attached(w: Worker) {
    w.Announcing? || w.Waiting? || w.Cancelling? || w.AwaitingOutput?
  }

  function PublishOne(d: Down, attached: bool): Down
    requires d.loop.Publishing?
  {
    d.(published := d.published + [d.loop.message],
       queue := if attached then d.queue + [d.loop.message] else d.queue,
       loop := d.loop.next)
  }

  predicate SawExecuting(client: seq<Reply>) { Passed(Executing) in client }

  function Type(d: Down, t: Typed, saw: bool): Down {
    d.(typed := d.typed + [t], early := if saw then d.early else |d.typed| + 1)
  }

  // ---------- the worker and the relay ----------

  predicate WorkerCan(s: State) {
    match s.mid.worker
    case Idle => s.up.pushed
    case AwaitingOutput => s.mid.output.Returned?
    case Finished => false
    case _ => true
  }

  /** What the worker's next step publishes.  A network error inside `relay_session` is
      reported by the relay, any other exception by the worker; in Waiting, Network stands for
      the 120 s timeout. */
  function WorkerSays(m: Mid, how: How): seq<Update> {
    match m.worker
    case Resolving => if how.Fine? then [Provisioning] else []
    case HasPod => if how.Fine? then [] else [Failure]
    case Connecting => if how.Network? then [Failure] else []
    case SendingRequest => if how.Network? then [Failure] else []
    case Announcing => [Executing]
    case Waiting => if how.Network? && !m.completed then [Failure] else []
    case Failing => [Failure]
    case _ => []
  }

  function WorkerGoes(m: Mid, how: How): Worker {
    match m.worker
    case Idle => Resolving
    case Resolving => if how.Fine? then Allocating else Failing
    case Allocating => if how.Fine? then HasPod else Failing
    case HasPod => if how.Fine? then Connecting else Finished
    case Connecting => if how.Fine? then SendingRequest else Cleaning(how.Other?)
    case SendingRequest => if how.Fine? then Subscribing else Cleaning(how.Other?)
    case Subscribing => if how.Fine? then Announcing else Cleaning(true)
    case Announcing => Waiting
    case Waiting => if m.completed || how.Network? then Cancelling else Waiting
    case Cancelling => AwaitingOutput
    case AwaitingOutput => Cleaning(false)
    case Cleaning(failing) => if failing then Failing else Finished
    case Failing => Finished
    case Finished => Finished
  }

  /** `handle_interactive_task` outside `relay_session`. */
  predicate InHandler(w: Worker) { w.Resolving? || w.HasPod? || w.Failing? }

  function WorkerMid(m: Mid, how: How): Mid {
    m.(worker := WorkerGoes(m, how),
       output := if m.worker.Announcing? then Awaiting else m.output,
       own := if InHandler(m.worker) then m.own + WorkerSays(m, how) else m.own)
  }

  /** Subscribing, starting and cancelling the stdin task, unsubscribing. */
  function WorkerDown(d: Down, m: Mid, how: How): Down {
    match m.worker
    case Subscribing => if how.Fine? then d.(missed := |d.published|) else d
    case Announcing => d.(runs := true)
    case Cancelling => d.(runs := false)
    case AwaitingOutput => d.(queue := [])
    case _ => d
  }

  predicate OutputCan(m: Mid) {
    match m.output
    case NotStarted => false
    case Awaiting => m.read < |m.podOut| || m.podClosed
    case Returned => false
    case _ => true
  }

  function OutputSays(m: Mid): seq<Update> {
    match m.output
    case Relaying(message) => [Forwarded(message)]
    case Broken => [Failure]
    case _ => []
  }

  /** `forward_pod_output`; `clean` tells that the pod closed with code 1000, on which the
      loop just ends. */
  function OutputMid(m: Mid, clean: bool): Mid
    requires OutputCan(m)
  {
    match m.output
    case Awaiting =>
      if m.read < |m.podOut| then m.(read := m.read + 1, output := Relaying(m.podOut[m.read]))
      else m.(output := if clean then Returned else Broken)
    case Relaying(message) => m.(output := Checking(message))
    case Checking(message) =>
      if Engine.Terminal(message) then m.(output := Returned, completed := true) else m.(output := Awaiting)
    case Broken => m.(output := Returned, completed := true)
  }

  /** `forward_user_stdin`: one message, dropped once the session is complete, lost with the
      task when the pod's socket is closed. */
  function StdinDoes(d: Down, m: Mid): Down
    requires d.runs && d.queue != []
  {
    if m.completed || m.podClosed then d.(queue := d.queue[1..], runs := false)
    else d.(queue := d.queue[1..], podIn := d.podIn + [d.queue[0]])
  }

  predicate Can(s: State, step: Step) {
    match step
    case GatewayStep(_) => GatewayCan(s.up)
    case ClientTypes(_) => Hangup !in s.down.typed
    case TakeTyped => s.down.loop.Listening? && s.down.taken < |s.down.typed|
    case PublishTyped => s.down.loop.Publishing?
    case WorkerStep(_) => WorkerCan(s)
    case OutputStep(_) => OutputCan(s.mid)
    case StdinStep => s.down.runs && s.down.queue != []
    case PodSends(_) => !s.mid.podClosed
    case PodCloses => true
  }

  function Next(s: State, step: Step): State
    requires Can(s, step)
  {
    match step
    case GatewayStep(sent) => s.(up := GatewayDoes(s.up, sent), down := s.down.(loop := LoopAfter(s.up, s.down.loop)))
    case ClientTypes(t) => s.(down := Type(s.down, t, SawExecuting(s.up.client)))
    case TakeTyped => s.(down := TakeOne(s.down))
    case PublishTyped => s.(down := PublishOne(s.down, Attached(s.mid.worker)))
    case WorkerStep(how) =>
      State(Publish(s.up, WorkerSays(s.mid, how)), WorkerMid(s.mid, how), WorkerDown(s.down, s.mid, how))
    case OutputStep(clean) => s.(up := Publish(s.up, OutputSays(s.mid)), mid := OutputMid(s.mid, clean))
    case StdinStep => s.(down := StdinDoes(s.down, s.mid))
    case PodSends(message) => s.(mid := s.mid.(podOut := s.mid.podOut + [message]))
    case PodCloses => s.(mid := s.mid.(podClosed := true))
  }

  ghost predicate Moves(before: State, step: Step, after: State) { Can(before, step) && after == Next(before, step) }

  /** Some run of n steps leads to s. */
  ghost predicate Reachable(s: State, n: nat) { Runs.LeadsTo(Moves, START, s, n) }

  lemma LastStep(s: State, n: nat) returns (before: State, step: Step)
    requires Reachable(s, n) && n > 0
    ensures Reachable(before, n - 1) && Can(before, step) && s == Next(before, step)
  {
    hide Can, Next;
    before, step := Runs.LastStep(Moves, START, s, n);
  }

  lemma Extend(s: State, n: nat, step: Step) returns (after: State)
    requires Reachable(s, n) && Can(s, step)
    ensures after == Next(s, step) && Reachable(after, n + 1)
  {
    hide Can, Next;
    after := Next(s, step);
    Runs.Extend(Moves, START, s, n, step, after);
  }

  // ---------- output: from the channel to the client ----------

  /** The client has been told that its task is queued, and then the first k updates. */
  predicate Shows(client: seq<Reply>, updates: seq<Update>, k: nat) {
    && k <= |updates| && |client| == k + 1 && client[0] == Queued
    && forall i :: 0 <= i < k ==> client[i + 1] == Passed(updates[i])
  }

  /** None of the first k updates ends the session. */
  predicate NoFinal(updates: seq<Update>, k: int) {
    k <= |updates| && forall i :: 0 <= i < k ==> !Final(updates[i])
  }

  predicate UpInv(up: Up) {
    var got := |up.client| - 1;
    && (up.subscribed <==> !up.gateway.Opening? && !up.gateway.Closed?)
    && (!up.pushed ==> up.published == up.queue == [])
    && match up.gateway
       case Opening => up.client == [] && !up.pushed
       case Subscribed => up.client == [] && !up.pushed
       case Told => up.client == [Queued] && !up.pushed
       case Forwarding =>
         && up.pushed && got >= 0 && Shows(up.client, up.published, got) && NoFinal(up.published, got)
         && up.queue == up.published[got..]
       case Sending(u) =>
         && up.pushed && 0 <= got < |up.published| && Shows(up.client, up.published, got) && NoFinal(up.published, got)
         && u == up.published[got] && up.queue == up.published[got + 1..]
       case _ => Served(up.client, up.published, up.gone)
  }

  /** The gateway has done its duty: the client has had the final update, or it has gone. */
  predicate Served(client: seq<Reply>, updates: seq<Update>, gone: bool) {
    if client == [] then gone
    else
      var got := |client| - 1;
      && Shows(client, updates, got) && NoFinal(updates, got - 1)
      && ((got > 0 && Final(updates[got - 1])) || (gone && NoFinal(updates, got)))
  }

  lemma PublishKeepsUp(up: Up, us: seq<Update>)
    requires UpInv(up) && up.pushed
    ensures UpInv(Publish(up, us))
  {
    hide Final;
  }

  lemma ShowsMore(client: seq<Reply>, updates: seq<Update>, k: nat)
    requires Shows(client, updates, k) && NoFinal(updates, k) && k < |updates|
    ensures Shows(client + [Passed(updates[k])], updates, k + 1)
    ensures !Final(updates[k]) ==> NoFinal(updates, k + 1)
  {
    hide Final;
  }

  lemma SendingKeepsUp(up: Up, sent: bool)
    requires UpInv(up) && up.gateway.Sending?
    ensures UpInv(GatewayDoes(up, sent))
  {
    ShowsMore(up.client, up.published, |up.client| - 1);
    hide Final, Shows, NoFinal;
  }

  lemma ReadingKeepsUp(up: Up, sent: bool)
    requires UpInv(up) && up.gateway.Forwarding? && up.queue != []
    ensures UpInv(GatewayDoes(up, sent))
  {
    hide Final;
    assert up.published[|up.client| - 1..][1..] == up.published[|up.client|..];
  }

  lemma OpeningKeepsUp(up: Up, sent: bool)
    requires UpInv(up) && (up.gateway.Opening? || up.gateway.Subscribed? || up.gateway.Told? || up.gateway.Closing?)
    ensures UpInv(GatewayDoes(up, sent))
  {
    hide Final;
  }

  lemma GatewayKeepsUp(up: Up, sent: bool)
    requires UpInv(up) && GatewayCan(up)
    ensures UpInv(GatewayDoes(up, sent))
  {
    hide UpInv, GatewayDoes;
    match up.gateway {
      case Sending(_) => SendingKeepsUp(up, sent);
      case Forwarding => ReadingKeepsUp(up, sent);
      case _ => OpeningKeepsUp(up, sent);
    }
  }

  // ---------- output: from the pod to the channel ----------

  /** The pod's messages among the updates. */
  function Forwards(us: seq<Update>): seq<Engine.Message> {
    if |us| == 0 then []
    else Forwards(us[..|us| - 1]) + if us[|us| - 1].Forwarded? then [us[|us| - 1].message] else []
  }

  function InHand(o: OutputTask): seq<Engine.Message> {
    if o.Relaying? then [o.message] else []
  }

  /** Before the relay's coroutines start. */
  predicate Early(w: Worker) {
    w.Idle? || w.Resolving? || w.Allocating? || w.HasPod? || w.Connecting? || w.SendingRequest? || w.Subscribing?
    || w.Announcing?
  }

  predicate OutInv(published: seq<Update>, m: Mid) {
    && m.read <= |m.podOut|
    && Forwards(published) + InHand(m.output) == m.podOut[..m.read]
    && (Early(m.worker) ==> m.output.NotStarted?)
    && Done !in published
  }

  lemma ForwardsMore(us: seq<Update>, u: Update)
    ensures Forwards(us + [u]) == Forwards(us) + if u.Forwarded? then [u.message] else []
  {
    assert (us + [u])[..|us|] == us;
  }

  lemma NotForwarded(us: seq<Update>, more: seq<Update>)
    requires |more| <= 1 && (more != [] ==> !more[0].Forwarded?)
    ensures Forwards(us + more) == Forwards(us)
  {
    if more == [] {
      assert us + more == us;
    } else {
      assert more == [more[0]];
      ForwardsMore(us, more[0]);
    }
  }

  lemma WorkerFacts(m: Mid, how: How)
    ensures |WorkerSays(m, how)| <= 1 && (WorkerSays(m, how) != [] ==> !WorkerSays(m, how)[0].Forwarded?)
    ensures Executing in WorkerSays(m, how) ==> m.worker.Announcing?
    ensures Done !in WorkerSays(m, how)
    ensures Early(WorkerGoes(m, how)) ==> Early(m.worker) && !m.worker.Announcing?
  {
  }

  lemma WorkerKeepsOut(published: seq<Update>, m: Mid, how: How)
    requires OutInv(published, m)
    ensures OutInv(published + WorkerSays(m, how), WorkerMid(m, how))
  {
    WorkerFacts(m, how);
    NotForwarded(published, WorkerSays(m, how));
    assert m.worker.Announcing? ==> Early(m.worker);
    hide Forwards, WorkerGoes, WorkerSays, Early;
  }

  lemma OutputKeepsOut(published: seq<Update>, m: Mid, clean: bool)
    requires OutInv(published, m) && OutputCan(m)
    ensures OutInv(published + OutputSays(m), OutputMid(m, clean))
  {
    if m.output.Relaying? {
      ForwardsMore(published, Forwarded(m.output.message));
    } else {
      NotForwarded(published, OutputSays(m));
    }
    hide Forwards;
    if m.output.Awaiting? && m.read < |m.podOut| {
      assert m.podOut[..m.read + 1] == m.podOut[..m.read] + [m.podOut[m.read]];
    }
  }

  lemma PodKeepsOut(published: seq<Update>, m: Mid, message: Engine.Message)
    requires OutInv(published, m)
    ensures OutInv(published, m.(podOut := m.podOut + [message]))
  {
    hide Forwards;
    assert (m.podOut + [message])[..m.read] == m.podOut[..m.read];
  }

  lemma {:induction false} ForwardsPrefix(us: seq<Update>, k: nat)
    requires k <= |us|
    ensures Forwards(us[..k]) <= Forwards(us)
    decreases |us|
  {
    if k < |us| {
      var shorter := us[..|us| - 1];
      ForwardsPrefix(shorter, k);
      assert shorter[..k] == us[..k];
    } else {
      assert us[..k] == us;
    }
  }

  // ---------- stdin: from the client to the channel ----------

  lemma TranslatedMore(ts: seq<Typed>, t: Typed)
    ensures Translated(ts + [t]) == if Stopped(ts) then Translated(ts) else Translated(ts) + Translate(t)
    ensures Stopped(ts + [t]) <==> Stopped(ts) || Ends(t)
  {
    var more := ts + [t];
    assert more[..|ts|] == ts && more[|ts|] == t;
    if Stopped(ts) {
      var i :| 0 <= i < |ts| && Ends(ts[i]);
      assert Ends(more[i]);
    }
  }

  lemma {:induction false} TranslatedPrefix(ts: seq<Typed>, k: nat)
    requires k <= |ts|
    ensures Translated(ts[..k]) <= Translated(ts)
    decreases |ts|
  {
    if k < |ts| {
      var shorter := ts[..|ts| - 1];
      TranslatedPrefix(shorter, k);
      assert shorter[..k] == ts[..k];
    } else {
      assert ts[..k] == ts;
    }
  }

  function InTransit(l: StdinLoop): seq<Engine.ClientMessage> {
    if l.Publishing? then [l.message] else []
  }

  /** What has been published is a prefix of what the client has typed, as translated, and all
      that the loop has read while the loop runs. */
  predicate LoopInv(d: Down, closed: bool) {
    && d.taken <= |d.typed|
    && d.published <= Translated(d.typed[..d.taken])
    && (d.loop.Listening? || d.loop.Publishing? ==> Translated(d.typed[..d.taken]) == d.published + InTransit(d.loop))
    && (d.loop.Listening? ==> !Stopped(d.typed[..d.taken]))
    && (d.loop.Publishing? ==> d.loop.next == if Stopped(d.typed[..d.taken]) then Over else Listening)
    && (d.loop.Over? ==> closed || (Stopped(d.typed[..d.taken]) && d.published == Translated(d.typed[..d.taken])))
    && (d.loop.Off? ==> d.taken == 0)
  }

  lemma TypeKeepsLoop(d: Down, t: Typed, saw: bool, closed: bool)
    requires LoopInv(d, closed)
    ensures LoopInv(Type(d, t, saw), closed)
  {
    hide Translated, Stopped;
    assert (d.typed + [t])[..d.taken] == d.typed[..d.taken];
  }

  lemma TakeKeepsLoop(d: Down, closed: bool)
    requires LoopInv(d, closed) && d.loop.Listening? && d.taken < |d.typed|
    ensures LoopInv(TakeOne(d), closed)
  {
    var t, before, e := d.typed[d.taken], d.typed[..d.taken], TakeOne(d);
    hide Translated, Stopped;
    TranslatedMore(before, t);
    assert e.typed[..e.taken] == before + [t];
    assert Translated(before) == d.published + [] == d.published;
    hide Ends;
    if Translate(t) == [] {
      assert Translated(before + [t]) == d.published + [] == d.published;
    } else {
      AtMostOne(t);
      hide Translate;
      assert Translated(before + [t]) == d.published + [e.loop.message];
    }
  }

  lemma AtMostOne(t: Typed)
    ensures Translate(t) == [] || Translate(t) == [Translate(t)[0]]
  {
  }

  lemma PublishKeepsLoop(d: Down, attached: bool, closed: bool)
    requires LoopInv(d, closed) && d.loop.Publishing?
    ensures LoopInv(PublishOne(d, attached), closed)
  {
    hide Translated, Stopped;
  }

  // ---------- stdin: from the channel to the pod ----------

  /** What is on the pod's socket, and after it what waits for the stdin task, is what was
      published since the relay subscribed. */
  predicate PodInv(d: Down, m: Mid) {
    && d.missed <= |d.published|
    && (if Early(m.worker) && !m.worker.Announcing? then d.podIn == d.queue == []
        else d.podIn <= d.published[d.missed..])
    && (d.runs || m.worker.Announcing? ==> d.podIn + d.queue == d.published[d.missed..])
    && (d.runs ==> m.worker.Waiting? || m.worker.Cancelling?)
    && (m.worker.Waiting? && !d.runs ==> m.completed || m.podClosed)
  }

  lemma PublishKeepsPod(d: Down, m: Mid)
    requires PodInv(d, m) && d.loop.Publishing?
    ensures PodInv(PublishOne(d, Attached(m.worker)), m)
  {
    var message := d.loop.message;
    assert (d.published + [message])[d.missed..] == d.published[d.missed..] + [message];
    assert d.podIn + (d.queue + [message]) == d.podIn + d.queue + [message];
  }

  lemma StdinKeepsPod(d: Down, m: Mid)
    requires PodInv(d, m) && d.runs && d.queue != []
    ensures PodInv(StdinDoes(d, m), m)
  {
    assert d.queue == [d.queue[0]] + d.queue[1..];
    assert d.podIn + ([d.queue[0]] + d.queue[1..]) == d.podIn + [d.queue[0]] + d.queue[1..];
  }

  lemma WorkerKeepsPod(d: Down, m: Mid, how: How)
    requires PodInv(d, m)
    ensures PodInv(WorkerDown(d, m, how), WorkerMid(m, how))
  {
    assert d.published[|d.published|..] == [];
  }

  /** What the relay missed was sent before the client could have seen `executing`. */
  predicate EarlyInv(s: State) {
    && s.down.early <= |s.down.typed|
    && (!SawExecuting(s.up.client) ==> s.down.early == |s.down.typed|)
    && (SawExecuting(s.up.client) ==> Executing in s.up.published)
    && (Executing in s.up.published ==> !Early(s.mid.worker))
    && s.down.missed <= |Translated(s.down.typed[..s.down.early])|
  }

  lemma TypeKeepsEarly(s: State, t: Typed)
    requires EarlyInv(s)
    ensures EarlyInv(s.(down := Type(s.down, t, SawExecuting(s.up.client))))
  {
    var typed := s.down.typed;
    TranslatedMore(typed, t);
    hide Translated, Stopped, Translate;
    assert (typed + [t])[..s.down.early] == typed[..s.down.early];
    assert (typed + [t])[..|typed| + 1] == typed + [t];
    assert typed[..|typed|] == typed;
  }

  lemma GatewayKeepsEarly(s: State, sent: bool, loop: StdinLoop)
    requires EarlyInv(s) && UpInv(s.up) && GatewayCan(s.up)
    ensures EarlyInv(s.(up := GatewayDoes(s.up, sent), down := s.down.(loop := loop)))
  {
    hide Translated, Early, Shows, NoFinal, Served;
  }

  lemma SubscribeKeepsEarly(s: State)
    requires EarlyInv(s) && LoopInv(s.down, s.up.gateway.Closed?) && s.mid.worker.Subscribing?
    ensures |s.down.published| <= |Translated(s.down.typed[..s.down.early])|
  {
    hide Translated;
    assert s.down.typed[..s.down.early] == s.down.typed;
    TranslatedPrefix(s.down.typed, s.down.taken);
  }

  lemma WorkerKeepsEarly(s: State, how: How)
    requires EarlyInv(s) && LoopInv(s.down, s.up.gateway.Closed?)
    ensures EarlyInv(State(Publish(s.up, WorkerSays(s.mid, how)), WorkerMid(s.mid, how),
                           WorkerDown(s.down, s.mid, how)))
  {
    WorkerFacts(s.mid, how);
    if s.mid.worker.Subscribing? {
      SubscribeKeepsEarly(s);
    }
    assert s.mid.worker.Announcing? ==> Early(s.mid.worker) && !Early(WorkerGoes(s.mid, how));
    hide Translated, WorkerSays, WorkerGoes, Early, SawExecuting, LoopInv;
  }

  // ---------- every reachable state ----------

  predicate LoopPhase(g: Gateway, loop: StdinLoop) {
    && (g.Opening? || g.Subscribed? || g.Told? ==> loop.Off?)
    && (g.Forwarding? || g.Sending? ==> !loop.Off?)
  }

  ghost predicate Inv(s: State) {
    && UpInv(s.up)
    && (!s.up.pushed ==> s.mid.worker.Idle?)
    && OutInv(s.up.published, s.mid)
    && LoopInv(s.down, s.up.gateway.Closed?)
    && LoopPhase(s.up.gateway, s.down.loop)
    && PodInv(s.down, s.mid)
    && EarlyInv(s)
  }

  lemma GatewayKeeps(s: State, sent: bool)
    requires Inv(s) && Can(s, GatewayStep(sent))
    ensures Inv(Next(s, GatewayStep(sent)))
  {
    GatewayKeepsUp(s.up, sent);
    GatewayKeepsEarly(s, sent, LoopAfter(s.up, s.down.loop));
    LoopAfterKeeps(s.up, s.down, sent);
    GatewayPublishesNothing(s.up, sent);
    hide EarlyInv, UpInv, OutInv, PodInv, GatewayDoes;
  }

  lemma GatewayPublishesNothing(up: Up, sent: bool)
    requires GatewayCan(up)
    ensures GatewayDoes(up, sent).published == up.published
    ensures GatewayDoes(up, sent).pushed == (up.pushed || up.gateway.Told?)
    ensures GatewayDoes(up, sent).gateway.Closed? <==> up.gateway.Closing?
  {
  }

  lemma LoopAfterKeeps(up: Up, d: Down, sent: bool)
    requires LoopInv(d, up.gateway.Closed?) && GatewayCan(up) && LoopPhase(up.gateway, d.loop)
    ensures LoopInv(d.(loop := LoopAfter(up, d.loop)), up.gateway.Closing?)
    ensures LoopPhase(GatewayDoes(up, sent).gateway, LoopAfter(up, d.loop))
  {
    if up.gateway.Told? {
      assert d.typed[..d.taken] == [];
    }
    hide Stopped;
  }

  lemma DownKeeps(s: State, step: Step)
    requires Inv(s) && Can(s, step) && (step.ClientTypes? || step.TakeTyped? || step.PublishTyped? || step.StdinStep?)
    ensures Inv(Next(s, step))
  {
    hide UpInv, OutInv;
    var d, closed := s.down, s.up.gateway.Closed?;
    match step {
      case ClientTypes(t) =>
        TypeKeepsLoop(d, t, SawExecuting(s.up.client), closed);
        TypeKeepsEarly(s, t);
        hide EarlyInv, LoopInv, SawExecuting;
      case TakeTyped =>
        TakeKeepsLoop(d, closed);
        hide LoopInv, Translated, Early, SawExecuting;
      case PublishTyped =>
        PublishKeepsLoop(d, Attached(s.mid.worker), closed);
        PublishKeepsPod(d, s.mid);
        PublishKeepsPhase(d);
        hide LoopInv, PodInv, Translated, Early, SawExecuting;
      case StdinStep =>
        StdinKeepsPod(d, s.mid);
        hide PodInv, Translated, Early, SawExecuting;
    }
  }

  lemma PublishKeepsPhase(d: Down)
    requires d.loop.Publishing? && LoopInv(d, false)
    ensures !d.loop.next.Off?
  {
    hide Translated, Stopped;
  }

  lemma PublishMeans(up: Up, us: seq<Update>)
    ensures us == [] ==> Publish(up, us) == up
    ensures Publish(up, us) == up.(published := up.published + us, queue := Publish(up, us).queue)
  {
  }

  lemma WorkerKeeps(s: State, how: How)
    requires Inv(s) && Can(s, WorkerStep(how))
    ensures Inv(Next(s, WorkerStep(how)))
  {
    assert s.up.pushed || s.mid.worker.Idle?;
    assert s.up.pushed by {
      hide UpInv, OutInv, PodInv, EarlyInv, LoopInv;
    }
    PublishKeepsUp(s.up, WorkerSays(s.mid, how));
    PublishMeans(s.up, WorkerSays(s.mid, how));
    WorkerKeepsOut(s.up.published, s.mid, how);
    WorkerKeepsPod(s.down, s.mid, how);
    WorkerKeepsEarly(s, how);
    WorkerKeepsLoop(s.down, s.mid, how, s.up.gateway.Closed?);
    hide UpInv, OutInv, PodInv, EarlyInv, LoopInv, Publish, WorkerSays, WorkerMid, WorkerDown;
  }

  lemma WorkerKeepsLoop(d: Down, m: Mid, how: How, closed: bool)
    requires LoopInv(d, closed)
    ensures LoopInv(WorkerDown(d, m, how), closed) && WorkerDown(d, m, how).loop == d.loop
  {
    hide Translated, Stopped;
  }

  lemma OutputFacts(m: Mid, clean: bool)
    requires OutputCan(m)
    ensures OutputMid(m, clean).worker == m.worker && OutputMid(m, clean).podClosed == m.podClosed
    ensures m.completed ==> OutputMid(m, clean).completed
    ensures Executing !in OutputSays(m)
  {
  }

  lemma OutputKeeps(s: State, clean: bool)
    requires Inv(s) && Can(s, OutputStep(clean))
    ensures Inv(Next(s, OutputStep(clean)))
  {
    OutputFacts(s.mid, clean);
    assert !Early(s.mid.worker);
    assert s.up.pushed by {
      hide UpInv, OutInv, PodInv, EarlyInv, LoopInv;
    }
    PublishKeepsUp(s.up, OutputSays(s.mid));
    PublishMeans(s.up, OutputSays(s.mid));
    OutputKeepsOut(s.up.published, s.mid, clean);
    hide UpInv, OutInv, LoopInv, Publish, OutputSays, OutputMid, Translated, SawExecuting;
  }

  lemma PodKeeps(s: State, step: Step)
    requires Inv(s) && Can(s, step) && (step.PodSends? || step.PodCloses?)
    ensures Inv(Next(s, step))
  {
    if step.PodSends? {
      PodKeepsOut(s.up.published, s.mid, step.message);
    }
    hide UpInv, LoopInv, Translated, SawExecuting, Forwards;
  }

  lemma {:induction false} ReachableInv(s: State, n: nat)
    requires Reachable(s, n)
    ensures Inv(s)
    decreases n
  {
    hide Runs.LeadsTo, Inv, Next, GatewayCan, WorkerCan, OutputCan;
    if n == 0 {
      Runs.NoStep(Moves, START, s);
      StartInv();
    } else {
      var before, step := LastStep(s, n);
      ReachableInv(before, n - 1);
      match step {
        case GatewayStep(sent) => GatewayKeeps(before, sent);
        case WorkerStep(how) => WorkerKeeps(before, how);
        case OutputStep(clean) => OutputKeeps(before, clean);
        case PodSends(_) => PodKeeps(before, step);
        case PodCloses => PodKeeps(before, step);
        case _ => DownKeeps(before, step);
      }
    }
  }

  lemma StartInv()
    ensures Inv(START)
  {
    assert START.down.typed[..0] == [] && START.mid.podOut[..0] == [];
  }

  // ---------- no status is lost ----------

  /** The updates up to and including the first final one. */
  function UpToFinal(us: seq<Update>): seq<Update> {
    if us == [] then []
    else if Final(us[0]) then [us[0]]
    else [us[0]] + UpToFinal(us[1..])
  }

  predicate EndsFinal(us: seq<Update>) { |us| > 0 && Final(us[|us| - 1]) }

  function Updates(client: seq<Reply>): seq<Update> {
    if |client| == 0 then []
    else Updates(client[..|client| - 1]) + match client[|client| - 1]
                                           case Queued => []
                                           case Passed(u) => [u]
  }

  lemma {:induction false} ShowsUpdates(client: seq<Reply>, updates: seq<Update>, k: nat)
    requires Shows(client, updates, k)
    ensures Updates(client) == updates[..k]
    decreases k
  {
    if k == 0 {
      assert client == [Queued] && client[..0] == [];
    } else {
      ShowsUpdates(client[..k], updates, k - 1);
      assert updates[..k] == updates[..k - 1] + [updates[k - 1]];
    }
  }

  lemma {:induction false} UpToFinalIs(us: seq<Update>, k: nat)
    requires k <= |us| && NoFinal(us, k - 1)
    ensures us[..k] <= UpToFinal(us)
    ensures k > 0 && Final(us[k - 1]) ==> us[..k] == UpToFinal(us)
    decreases k
  {
    if k > 1 {
      assert !Final(us[0]);
      UpToFinalIs(us[1..], k - 1);
      assert us[..k] == [us[0]] + us[1..][..k - 1];
    } else if k == 1 {
      assert us[..1] == [us[0]];
    }
  }

  /** Whatever is published for the task, and whenever: the client receives `queued` and then
      the updates from the first on, in order and without a gap, up to the first final one.
      The gateway stops short of that only if the client is gone. */
  lemma NoStatusLost(s: State, n: nat)
    requires Reachable(s, n)
    ensures s.up.client != [] ==> s.up.client[0] == Queued && |Updates(s.up.client)| == |s.up.client| - 1
    ensures Updates(s.up.client) <= UpToFinal(s.up.published)
    ensures s.up.gateway.Closed? && !s.up.gone ==>
              Updates(s.up.client) == UpToFinal(s.up.published) && EndsFinal(Updates(s.up.client))
  {
    ReachableInv(s, n);
    hide Reachable, OutInv, LoopInv, PodInv, EarlyInv, Final, Updates, UpToFinal;
    var client, us := s.up.client, s.up.published;
    if client == [] {
      assert Updates(client) == [] by {
        NothingUpdated();
      }
      hide UpInv;
    } else {
      ClientShows(s.up);
      var k: nat := |client| - 1;
      hide UpInv;
      ShowsUpdates(client, us, k);
      UpToFinalIs(us, k);
    }
  }

  lemma NothingUpdated()
    ensures Updates([]) == []
  {
  }

  lemma ClientShows(up: Up)
    requires UpInv(up) && up.client != []
    ensures var k: nat := |up.client| - 1;
            && Shows(up.client, up.published, k) && NoFinal(up.published, k - 1)
            && (up.gateway.Closed? && !up.gone ==> k > 0 && Final(up.published[k - 1]))
  {
    hide Final;
  }

  /** At most one final update, and it is the last thing the client receives. */
  lemma OneFinal(s: State, n: nat, i: nat)
    requires Reachable(s, n) && i < |s.up.client| && s.up.client[i].Passed? && Final(s.up.client[i].update)
    ensures i == |s.up.client| - 1
  {
    ReachableInv(s, n);
    hide Reachable, OutInv, LoopInv, PodInv, EarlyInv, Final;
    ClientShows(s.up);
    hide UpInv;
    assert i > 0 && s.up.client[i] == Passed(s.up.published[i - 1]);
  }

  /** What the client has received of the pod's messages is a prefix of what the pod sent. */
  lemma ClientSeesPodOutput(s: State, n: nat)
    requires Reachable(s, n)
    ensures Forwards(Updates(s.up.client)) <= s.mid.podOut
  {
    ReachableInv(s, n);
    hide Reachable, LoopInv, PodInv, EarlyInv, UpInv, OutInv, Final, Updates, Forwards;
    var seen := Updates(s.up.client);
    if s.up.client == [] {
      NothingUpdated();
    } else {
      ClientShows(s.up);
      var k: nat := |s.up.client| - 1;
      ShowsUpdates(s.up.client, s.up.published, k);
    }
    assert seen == s.up.published[..|seen|];
    ForwardsPrefix(s.up.published, |seen|);
    RelayedPrefix(s.up.published, s.mid);
  }

  lemma RelayedPrefix(published: seq<Update>, m: Mid)
    requires OutInv(published, m)
    ensures Forwards(published) <= m.podOut
  {
    hide Forwards;
    assert m.podOut == m.podOut[..m.read] + m.podOut[m.read..];
  }

  // ---------- every session ends ----------

  predicate HasFinal(us: seq<Update>) { exists i :: 0 <= i < |us| && Final(us[i]) }

  /** The worker leaves a session behind only with a final update published. */
  predicate EndInv(published: seq<Update>, m: Mid) {
    && (m.completed || m.worker.Cancelling? || m.worker.AwaitingOutput? || m.worker.Finished? ==> HasFinal(published))
    && (m.worker == Cleaning(false) ==> HasFinal(published))
    && (m.output.Checking? && Engine.Terminal(m.output.message) ==> HasFinal(published))
  }

  lemma HasFinalMore(us: seq<Update>, more: seq<Update>)
    ensures HasFinal(us) ==> HasFinal(us + more)
    ensures |more| == 1 && Final(more[0]) ==> HasFinal(us + more)
  {
    if HasFinal(us) {
      var i :| 0 <= i < |us| && Final(us[i]);
      assert Final((us + more)[i]);
    }
    if |more| == 1 && Final(more[0]) {
      assert Final((us + more)[|us|]);
    }
  }

  lemma WorkerKeepsEnd(published: seq<Update>, m: Mid, how: How)
    requires EndInv(published, m)
    ensures EndInv(published + WorkerSays(m, how), WorkerMid(m, how))
  {
    HasFinalMore(published, WorkerSays(m, how));
    hide HasFinal;
  }

  lemma OutputKeepsEnd(published: seq<Update>, m: Mid, clean: bool)
    requires EndInv(published, m) && OutputCan(m)
    ensures EndInv(published + OutputSays(m), OutputMid(m, clean))
  {
    HasFinalMore(published, OutputSays(m));
    hide HasFinal;
  }

  lemma {:induction false} ReachableEndInv(s: State, n: nat)
    requires Reachable(s, n)
    ensures EndInv(s.up.published, s.mid)
    decreases n
  {
    hide Runs.LeadsTo, EndInv, GatewayCan, WorkerCan, OutputCan, WorkerSays, WorkerMid, OutputSays, OutputMid;
    if n == 0 {
      Runs.NoStep(Moves, START, s);
      StartEndInv();
    } else {
      var before, step := LastStep(s, n);
      ReachableEndInv(before, n - 1);
      match step {
        case GatewayStep(sent) => GatewayPublishesNothing(before.up, sent);
        case WorkerStep(how) => WorkerKeepsEnd(before.up.published, before.mid, how);
        case OutputStep(clean) => OutputKeepsEnd(before.up.published, before.mid, clean);
        case _ => SameEnd(before.up.published, before.mid, s.mid);
      }
    }
  }

  lemma StartEndInv()
    ensures EndInv(START.up.published, START.mid)
  {
  }

  lemma SameEnd(published: seq<Update>, m: Mid, k: Mid)
    requires EndInv(published, m) && k.worker == m.worker && k.output == m.output && k.completed == m.completed
    ensures EndInv(published, k)
  {
  }

  /** What the worker publishes itself. */
  predicate OwnInv(m: Mid) {
    match m.worker
    case Idle => m.own == []
    case Resolving => m.own == []
    case Failing => m.own == [] || m.own == [Provisioning]
    case Finished => m.own == [Failure] || m.own == [Provisioning] || m.own == [Provisioning, Failure]
    case _ => m.own == [Provisioning]
  }

  lemma {:induction false} ReachableOwnInv(s: State, n: nat)
    requires Reachable(s, n)
    ensures OwnInv(s.mid)
    decreases n
  {
    hide Runs.LeadsTo, GatewayCan, WorkerCan, OutputCan;
    if n == 0 {
      Runs.NoStep(Moves, START, s);
    } else {
      var before, step := LastStep(s, n);
      ReachableOwnInv(before, n - 1);
      match step {
        case OutputStep(clean) => OutputKeepsOwn(before.mid, clean);
        case _ =>
      }
    }
  }

  lemma OutputKeepsOwn(m: Mid, clean: bool)
    requires OutputCan(m)
    ensures OutputMid(m, clean).worker == m.worker && OutputMid(m, clean).own == m.own
  {
  }

  /** Whatever fails -- the catalog, the pod, the connection, the engine, the 120 s -- a worker
      that is done with an interactive task has published a final update: the gateway never
      waits on an empty channel for a session that is over. */
  lemma GatewayNeverHangs(s: State, n: nat)
    requires Reachable(s, n) && s.mid.worker.Finished?
    ensures EndsFinal(UpToFinal(s.up.published))
    ensures s.up.gateway.Forwarding? ==> GatewayCan(s.up)
  {
    ReachableEndInv(s, n);
    ReachableInv(s, n);
    hide Reachable, OutInv, LoopInv, PodInv, EarlyInv, Final, UpToFinal;
    FirstFinal(s.up.published);
  }

  lemma {:induction false} FirstFinal(us: seq<Update>)
    requires HasFinal(us)
    ensures EndsFinal(UpToFinal(us))
    decreases |us|
  {
    var i :| 0 <= i < |us| && Final(us[i]);
    if !Final(us[0]) {
      assert Final(us[1..][i - 1]);
      FirstFinal(us[1..]);
    }
  }

  // ---------- the timeout does not end the session ----------

  lemma WorkerWalks(s: State, n: nat, how: How) returns (after: State)
    requires Reachable(s, n) && WorkerCan(s)
    ensures Reachable(after, n + 1) && after.mid == WorkerMid(s.mid, how) && after.up.pushed == s.up.pushed
  {
    hide Reachable, WorkerMid, WorkerDown, WorkerSays, WorkerCan;
    after := Extend(s, n, WorkerStep(how));
  }

  /** The task is in the queue. */
  lemma Pushed() returns (s: State)
    ensures Reachable(s, 3) && s.up.pushed && s.mid == START.mid
  {
    Runs.Stay(Moves, START);
    assert Reachable(START, 0);
    hide Reachable;
    s := Extend(START, 0, GatewayStep(true));
    s := Extend(s, 1, GatewayStep(true));
    s := Extend(s, 2, GatewayStep(true));
  }

  lemma StartsWaiting() returns (s: State)
    ensures Reachable(s, 11) && s.mid == START.mid.(worker := Waiting, output := Awaiting, own := [Provisioning])
  {
    hide Reachable;
    s := Pushed();
    s := WorkerWalks(s, 3, Fine);
    s := WorkerWalks(s, 4, Fine);
    s := WorkerWalks(s, 5, Fine);
    s := WorkerWalks(s, 6, Fine);
    s := WorkerWalks(s, 7, Fine);
    s := WorkerWalks(s, 8, Fine);
    s := WorkerWalks(s, 9, Fine);
    s := WorkerWalks(s, 10, Fine);
  }

  /** The relay's 120 s are over, and it waits for the output task, which waits for the pod. */
  predicate Overdue(m: Mid) {
    m.worker.AwaitingOutput? && m.output.Awaiting? && m.read == |m.podOut| && !m.podClosed
  }

  lemma MidMoves(s: State, n: nat, step: Step) returns (after: State)
    requires Reachable(s, n) && Can(s, step) && (step.PodSends? || step.OutputStep?)
    ensures Reachable(after, n + 1)
    ensures after.mid == if step.PodSends? then s.mid.(podOut := s.mid.podOut + [step.message])
                         else OutputMid(s.mid, step.clean)
    ensures after.up.published == if step.PodSends? then s.up.published else s.up.published + OutputSays(s.mid)
  {
    hide Reachable, OutputMid, OutputSays, OutputCan;
    after := Extend(s, n, step);
  }

  /** A program that keeps printing: one more message is forwarded, and the relay waits on. */
  lemma OneMoreMessage(s: State, n: nat) returns (after: State)
    requires Reachable(s, n) && Overdue(s.mid)
    ensures Reachable(after, n + 4) && Overdue(after.mid) && |after.up.published| == |s.up.published| + 1
  {
    hide Reachable;
    after := MidMoves(s, n, PodSends(Engine.Output(Posix.Stdout, [0])));
    after := MidMoves(after, n + 1, OutputStep(true));
    after := MidMoves(after, n + 2, OutputStep(true));
    after := MidMoves(after, n + 3, OutputStep(true));
  }

  /** The 120 s do not bound the session: after them the relay waits for its output task without
      limit.  For any number of messages there is a run in which the worker, long overdue, has
      forwarded that many and still holds pod and permit. */
  lemma {:induction false} TimeoutDoesNotEndSession(messages: nat) returns (s: State, n: nat)
    ensures Reachable(s, n) && Overdue(s.mid) && |s.up.published| >= messages
    decreases messages
  {
    hide Reachable, Overdue;
    if messages == 0 {
      s := StartsWaiting();
      s := WorkerWalks(s, 11, Network);
      s := WorkerWalks(s, 12, Fine);
      n := 13;
      assert Overdue(s.mid) by {
        OverdueNow(s.mid);
      }
    } else {
      s, n := TimeoutDoesNotEndSession(messages - 1);
      s := OneMoreMessage(s, n);
      n := n + 4;
    }
  }

  lemma OverdueNow(m: Mid)
    requires m == START.mid.(worker := AwaitingOutput, output := Awaiting, own := [Provisioning])
    ensures Overdue(m)
  {
  }

  // ---------- stdin is delivered ----------

  /** The pod gets the client's messages, as translated, once and in order: from some point on
      without a gap.  That point lies within what was sent before the client saw `executing`,
      because the relay subscribes before it announces. */
  lemma StdinInOrder(s: State, n: nat)
    requires Reachable(s, n)
    ensures s.down.early <= |s.down.typed|
    ensures s.down.missed <= |Translated(s.down.typed[..s.down.early])| <= |Translated(s.down.typed)|
    ensures s.down.podIn <= Translated(s.down.typed)[s.down.missed..]
  {
    ReachableInv(s, n);
    hide Reachable, UpInv, OutInv, Translated, Stopped, Early, SawExecuting;
    TranslatedPrefix(s.down.typed, s.down.early);
    TranslatedPrefix(s.down.typed, s.down.taken);
    var all := Translated(s.down.typed);
    assert s.down.published == all[..|s.down.published|];
    assert s.down.published[s.down.missed..] <= all[s.down.missed..];
  }

  lemma {:induction false} NothingAfterStop(ts: seq<Typed>, k: nat)
    requires k <= |ts| && Stopped(ts[..k])
    ensures Translated(ts) == Translated(ts[..k])
    decreases |ts|
  {
    if k < |ts| {
      var shorter := ts[..|ts| - 1];
      assert shorter[..k] == ts[..k];
      NothingAfterStop(shorter, k);
      var i :| 0 <= i < k && Ends(ts[..k][i]);
      assert Ends(shorter[i]);
    } else {
      assert ts[..k] == ts;
    }
  }

  /** Nothing the client has sent is still in the gateway or in the channel. */
  predicate Settled(d: Down) {
    !d.loop.Publishing? && (d.loop.Listening? ==> d.taken == |d.typed|) && d.queue == []
  }

  /** And the pod gets all of them: in a session that is neither complete nor abandoned, once
      nothing is on its way any more, everything sent from that point on has arrived -- up to a
      hang-up or a JSON scalar, which ends the gateway's loop. */
  lemma StdinDelivered(s: State, n: nat)
    requires Reachable(s, n) && Settled(s.down)
    requires s.mid.worker.Waiting? && !s.mid.completed && !s.mid.podClosed
    requires !s.up.gateway.Closing? && !s.up.gateway.Closed?
    ensures s.down.missed <= |Translated(s.down.typed)|
    ensures s.down.podIn == Translated(s.down.typed)[s.down.missed..]
  {
    ReachableInv(s, n);
    hide Reachable, OutInv, EarlyInv, Translated;
    LoopRuns(s.up, s.mid, s.down.loop);
    hide UpInv;
    AllPublished(s.down);
    hide LoopInv, LoopPhase;
    AllPut(s.down, s.mid);
  }

  lemma LoopRuns(up: Up, m: Mid, loop: StdinLoop)
    requires UpInv(up) && (!up.pushed ==> m.worker.Idle?) && LoopPhase(up.gateway, loop)
    requires m.worker.Waiting? && !up.gateway.Closed? && !up.gateway.Closing?
    ensures !loop.Off?
  {
  }

  lemma AllPublished(d: Down)
    requires LoopInv(d, false) && Settled(d) && !d.loop.Off?
    ensures d.published == Translated(d.typed)
  {
    hide Translated, Stopped;
    if d.loop.Over? {
      NothingAfterStop(d.typed, d.taken);
    } else {
      assert d.typed[..d.taken] == d.typed;
    }
  }

  lemma AllPut(d: Down, m: Mid)
    requires PodInv(d, m) && Settled(d) && m.worker.Waiting? && !m.completed && !m.podClosed
    ensures d.missed <= |d.published| && d.podIn == d.published[d.missed..]
  {
    assert d.podIn + [] == d.podIn;
  }

  /** Whatever follows a JSON scalar or a hang-up is never forwarded. */
  lemma NothingForwardedAfterStop(s: State, n: nat, k: nat)
    requires Reachable(s, n) && k < |s.down.typed| && (s.down.typed[k].Scalar? || s.down.typed[k].Hangup?)
    ensures s.down.published <= Translated(s.down.typed[..k + 1])
  {
    ReachableInv(s, n);
    assert Ends(s.down.typed[..k + 1][k]);
    assert Stopped(s.down.typed[..k + 1]);
    hide Reachable, UpInv, OutInv, PodInv, EarlyInv, Translated, Stopped;
    NothingAfterStop(s.down.typed, k + 1);
    TranslatedPrefix(s.down.typed, s.down.taken);
  }

  /** What stands for a message in the translation, as long as no scalar or hang-up precedes it: a
      JSON object as it is, other text as a line of stdin, a hang-up as a close. */
  predicate StandsFor(t: Typed, m: Engine.ClientMessage) {
    match t
    case Keyed(message) => m == message
    case Raw(text) => m == Engine.Object([], Engine.Is(text + [10]), Engine.Absent)
    case Hangup => m == Engine.Object([], Engine.Absent, Engine.Is(true))
    case _ => false
  }

  lemma {:induction false} EachIsTranslated(typed: seq<Typed>, k: nat)
    requires k < |typed| && !typed[k].Ignored? && !typed[k].Scalar?
    requires forall i :: 0 <= i < k ==> !typed[i].Scalar? && !typed[i].Hangup?
    ensures exists i :: 0 <= i < |Translated(typed)| && StandsFor(typed[k], Translated(typed)[i])
    decreases |typed|
  {
    var before := typed[..|typed| - 1];
    if k < |typed| - 1 {
      EachIsTranslated(before, k);
      var i :| 0 <= i < |Translated(before)| && StandsFor(typed[k], Translated(before)[i]);
      assert Translated(before) <= Translated(typed);
      assert StandsFor(typed[k], Translated(typed)[i]);
    } else {
      assert !Stopped(before);
      assert Translated(typed) == Translated(before) + Translate(typed[k]);
      assert StandsFor(typed[k], Translated(typed)[|Translated(before)|]);
    }
  }
}
