/** The engine's `/ws/execute` handler once the child has been spawned: the egress thread and
    the ingress loop as they interleave over one process and one WebSocket.

    Every access to shared state is a step of its own: each test of `connection_active`, each
    `ProcessPipe` call -- `is_running` makes up to three -- and each send. */
module EngineSession {
  import opened Bytes
  import opened Posix
  import opened ProcessPipe
  import opened ProcessLife
  import R = Runs

  datatype Message =
    | Compiling
    | CompileError(errors: Data)
    | Started                                      // {"status": "running"} alone
    | Output(src: Source, data: Data)              // "running" with stdout_output or stderr_output
    | Completed(code: int, memoryLimitExceeded: bool)
    | Timeout(code: int)
    | ErrorNote                                    // "error"

  /** The statuses that end a session for the relay and the gateway. */
  predicate Terminal(m: Message) {
    m.CompileError? || m.Completed? || m.Timeout? || m.ErrorNote?
  }

  // ---------- what the client sends ----------

  datatype Field<T> = Absent | Is(value: T) | IllTyped

  datatype ClientMessage =
    | Object(text: Data, stdinData: Field<Data>, closeStdin: Field<bool>)
    | OtherJson(text: Data)
    | NotJson(text: Data)
    | Binary

  datatype Op = Feed(data: Data) | Shut

  const NEWLINE: byte := 10

  /** What the ingress loop does with one message.  A field of the wrong type raises after
      what precedes it has been done, and the raw text is written instead. */
  function Ops(m: ClientMessage): seq<Op> {
    match m
    case Binary => []
    case OtherJson(_) => []
    case NotJson(text) => [Feed(text + [NEWLINE])]
    case Object(text, stdinData, closeStdin) =>
      if stdinData.IllTyped? then [Feed(text + [NEWLINE])]
      else
        (if stdinData.Is? then [Feed(stdinData.value), Shut] else [])
        + (match closeStdin
           case Absent => []
           case Is(yes) => if yes then [Shut] else []
           case IllTyped => [Feed(text + [NEWLINE])])
  }

  // ---------- the two threads ----------

  datatype Egress =
    | LoopTest                                // connection_active &&
    | LookAtClock                             // is_running: is_timed_out, and timed_out_ if it is
    | KillIdle                                // is_running: terminate
    | Poll                                    // is_running: has_exited
    | ReadOut
    | SendOut(data: Data)
    | ReadErr
    | SendErr(data: Data)
    | FinalTest                               // if (connection_active)
    | FinalReadOut
    | FinalReadErr(data: Data)
    | FinalSendOut(data: Data, next: Data)
    | FinalSendErr(data: Data)
    | AskTimedOut                             // session.timed_out()
    | AskCode(timedOut: bool)                 // session.exit_code()
    | AskMemory(code: int)                    // session.memory_limit_exceeded()
    | SendVerdict(verdict: Message)
    | ClearActive
    | CloseSocket
    | Finished

  datatype Ingress =
    | Test                                    // while (connection_active)
    | Reading                                 // ws.read
    | Performing(ops: seq<Op>)
    | Failed                                  // connection_active is false, terminate() is next
    | Leaving
    | Joining
    | Done

  datatype State = State(
    life: Life,
    active: bool,                  // connection_active
    egress: Egress,
    ingress: Ingress,
    sent: seq<Message>,
    gone: bool,                    // ws.read failed although the engine had not closed the socket
    closed: bool,                  // the egress thread has closed the socket
    received: seq<ClientMessage>,
    performed: seq<(Op, bool)>)    // what was done to stdin, and whether a write would get through

  datatype Maybe = None | Some(step: ProcessLife.Step)

  datatype Step =
    | World(event: Event)
    | EgressStep
    | IngressStep(written: bool)
    | Receive(message: ClientMessage)
    | Disconnect

  function Init(orphans: bool): State {
    State(Apply(Born(orphans), Spawn(3, true)), true, LoopTest, Test, [Compiling, Started], false, false, [], [])
  }

  function Verdict(l: Life): Message {
    if l.timedOut then Timeout(l.p.exitCode) else Completed(l.p.exitCode, l.p.memoryLimitExceeded)
  }

  /** The call on the process that the egress thread is about to make. */
  function Acts(e: Egress): Maybe {
    match e
    case LookAtClock => Some(CheckIdle)
    case KillIdle => Some(Terminate)
    case Poll => Some(HasExited)
    case ReadOut => Some(Read(Stdout))
    case ReadErr => Some(Read(Stderr))
    case FinalReadOut => Some(Read(Stdout))
    case FinalReadErr(_) => Some(Read(Stderr))
    case _ => None
  }

  function After(l: Life, e: Egress): Life
    requires !l.destroyed
  {
    match Acts(e)
    case None => l
    case Some(st) => Apply(l, st)
  }

  /** Where the thread goes. */
  function NextPc(s: State): Egress
    requires !s.egress.Finished?
  {
    match s.egress
    case LoopTest => if s.active then LookAtClock else FinalTest
    case LookAtClock => if RunningTimesOut(s.life.p) then KillIdle else Poll
    case KillIdle => Poll
    case Poll => if ExitedGives(s.life.p) then FinalTest else ReadOut
    case ReadOut => SendOut(ReadGives(s.life.p, Stdout))
    case SendOut(_) => ReadErr
    case ReadErr => SendErr(ReadGives(s.life.p, Stderr))
    case SendErr(_) => LoopTest
    case FinalTest => if s.active then FinalReadOut else Finished
    case FinalReadOut => FinalReadErr(ReadGives(s.life.p, Stdout))
    case FinalReadErr(out) => FinalSendOut(out, ReadGives(s.life.p, Stderr))
    case FinalSendOut(_, err) => FinalSendErr(err)
    case FinalSendErr(_) => AskTimedOut
    case AskTimedOut => AskCode(s.life.timedOut)
    case AskCode(timedOut) => if timedOut then SendVerdict(Timeout(s.life.p.exitCode)) else AskMemory(s.life.p.exitCode)
    case AskMemory(code) => SendVerdict(Completed(code, s.life.p.memoryLimitExceeded))
    case SendVerdict(_) => ClearActive
    case ClearActive => CloseSocket
    case CloseSocket => Finished
  }

  /** A data message, unless there is no data. */
  function Note(src: Source, data: Data): seq<Message> {
    if data == [] then [] else [Output(src, data)]
  }

  /** What the thread sends. */
  function Says(e: Egress): seq<Message> {
    match e
    case SendOut(data) => Note(Stdout, data)
    case SendErr(data) => Note(Stderr, data)
    case FinalSendOut(data, _) => Note(Stdout, data)
    case FinalSendErr(data) => Note(Stderr, data)
    case SendVerdict(verdict) => [verdict]
    case _ => []
  }

  predicate EgressCan(s: State) { !s.egress.Finished? && !s.life.destroyed }

  function EgressDoes(s: State): State
    requires EgressCan(s)
  {
    s.(life := After(s.life, s.egress),
       egress := NextPc(s),
       sent := s.sent + Says(s.egress),
       active := s.active && !s.egress.ClearActive?,
       closed := s.closed || s.egress.CloseSocket?)
  }

  function PerformOne(s: State, written: bool): State
    requires s.ingress.Performing? && s.ingress.ops != [] && !s.life.destroyed
  {
    var op := s.ingress.ops[0];
    var next := s.(ingress := Performing(s.ingress.ops[1..]),
                   performed := s.performed + [(op, written)]);
    match op
    case Feed(data) => next.(life := Apply(s.life, Write(data, written)))
    case Shut => next.(life := Apply(s.life, CloseStdin))
  }

  predicate IngressCan(s: State) {
    match s.ingress
    case Performing(_) => !s.life.destroyed
    case Failed => !s.life.destroyed
    case Joining => s.egress.Finished? && !s.life.destroyed
    case Reading => false
    case Done => false
    case _ => true
  }

  function IngressDoes(s: State, written: bool): State
    requires IngressCan(s)
  {
    match s.ingress
    case Test => s.(ingress := if s.active then Reading else Leaving)
    case Performing(ops) => if ops == [] then s.(ingress := Test) else PerformOne(s, written)
    case Failed => s.(life := Apply(s.life, Terminate), ingress := Leaving)
    case Leaving => s.(active := false, ingress := Joining)
    case Joining => s.(life := Apply(s.life, Destroy), ingress := Done)
  }

  predicate Can(s: State, step: Step) {
    match step
    case World(e) => MayHappen(s.life.p.os, e)
    case EgressStep => EgressCan(s)
    case IngressStep(_) => IngressCan(s)
    case Receive(_) => s.ingress.Reading?
    case Disconnect => s.ingress.Reading?
  }

  function Next(s: State, step: Step): State
    requires Can(s, step)
  {
    match step
    case World(e) => s.(life := Apply(s.life, Outside(e)))
    case EgressStep => EgressDoes(s)
    case IngressStep(written) => IngressDoes(s, written)
    case Receive(m) => s.(ingress := Performing(Ops(m)), received := s.received + [m])
    case Disconnect => s.(active := false, ingress := Failed, gone := s.gone || !s.closed)
  }

  /** s == Init(orphans), in a form that lets the solver unfold Init only where it is mentioned. */
  ghost predicate IsInit(orphans: bool, s: State) { forall o :: o == orphans ==> s == Init(o) }

  ghost predicate Moves(before: State, step: Step, after: State) { Can(before, step) && after == Next(before, step) }

  /** Some run of n steps leads to s. */
  ghost predicate Runs(orphans: bool, s: State, n: nat) {
    exists start: State :: IsInit(orphans, start) && R.LeadsTo(Moves, start, s, n)
  }

  lemma InitRuns(orphans: bool)
    ensures Runs(orphans, Init(orphans), 0)
  {
    hide Init;
    R.Stay(Moves, Init(orphans));
    assert IsInit(orphans, Init(orphans));
  }

  lemma NoStep(orphans: bool, s: State)
    requires Runs(orphans, s, 0)
    ensures s == Init(orphans)
  {
    hide Init;
    var start: State :| IsInit(orphans, start) && R.LeadsTo(Moves, start, s, 0);
    R.NoStep(Moves, start, s);
  }

  lemma LastStep(orphans: bool, s: State, n: nat) returns (before: State, step: Step)
    requires Runs(orphans, s, n) && n > 0
    ensures Runs(orphans, before, n - 1) && Can(before, step) && s == Next(before, step)
  {
    hide Init, Can, Next, R.LeadsTo;
    var start: State :| IsInit(orphans, start) && R.LeadsTo(Moves, start, s, n);
    before, step := R.LastStep(Moves, start, s, n);
  }

  lemma Extend(orphans: bool, s: State, n: nat, step: Step) returns (after: State)
    requires Runs(orphans, s, n) && Can(s, step)
    ensures after == Next(s, step) && Runs(orphans, after, n + 1)
  {
    hide Init, Can, Next, R.LeadsTo;
    after := Next(s, step);
    var start: State :| IsInit(orphans, start) && R.LeadsTo(Moves, start, s, n);
    R.Extend(Moves, start, s, n, step, after);
  }

  // ---------- invariants ----------

  /** In the loop, and not in the middle of `is_running`. */
  predicate Looping(e: Egress) {
    e.LoopTest? || e.LookAtClock? || e.ReadOut? || e.SendOut? || e.ReadErr? || e.SendErr?
  }

  predicate Closing(e: Egress) {
    e.FinalReadOut? || e.FinalReadErr? || e.FinalSendOut? || e.FinalSendErr? || Judging(e)
  }

  predicate Judging(e: Egress) { e.AskTimedOut? || e.AskCode? || e.AskMemory? || e.SendVerdict? }

  predicate Ended(e: Egress) { e.ClearActive? || e.CloseSocket? }

  predicate HasVerdict(t: seq<Message>) { |t| > 0 && Terminal(t[|t| - 1]) }

  /** The process is alive in the kernel's books for as long as the handler is. */
  ghost predicate HandlerInv(s: State) {
    && ProcessLife.Inv(s.life)
    && s.life.p.spawned
    && (s.life.destroyed <==> s.ingress.Done?)
    && (s.ingress.Done? ==> s.egress.Finished?)
  }

  /** How the child ended, as far as the egress thread may speak of it: killed by the timeout
      or dead by itself, but not killed by the ingress loop. */
  predicate Settled(l: Life) { l.p.exited && (l.timedOut <==> l.p.os.kills != []) }

  /** What the thread has learned of the end so far is still true. */
  predicate Judged(e: Egress, l: Life) {
    match e
    case AskCode(timedOut) => timedOut == l.timedOut
    case AskMemory(code) => !l.timedOut && code == l.p.exitCode
    case SendVerdict(verdict) => verdict == Verdict(l)
    case _ => true
  }

  predicate EndInv(s: State) {
    && (Looping(s.egress) ==> !s.life.timedOut && (s.active ==> !s.life.p.exited))
    && (s.egress.KillIdle? ==> s.life.timedOut && (s.active ==> !s.life.p.exited))
    && (s.egress.Poll? ==>
          && (s.life.timedOut ==> s.life.p.exited)
          && (s.active && s.life.p.exited ==> s.life.timedOut && s.life.p.os.kills != []))
    && (s.egress.FinalTest? && s.active ==> Settled(s.life))
    && (Closing(s.egress) ==> Settled(s.life) && Judged(s.egress, s.life))
    && (HasVerdict(s.sent) ==> Settled(s.life) && s.sent[|s.sent| - 1] == Verdict(s.life))
  }

  predicate FlagInv(s: State) {
    && (s.ingress.Failed? || s.ingress.Leaving? || s.ingress.Joining? || s.ingress.Done? ==> !s.active)
    && (s.closed ==> s.egress.Finished? && HasVerdict(s.sent))
    && (!s.active ==> s.gone || s.egress.CloseSocket? || s.egress.Finished?)
    && (s.egress.Finished? ==> s.gone || HasVerdict(s.sent))
  }

  predicate TraceInv(s: State) {
    && Grammar(s.sent)
    && (HasVerdict(s.sent) ==> Ended(s.egress) || s.egress.Finished?)
    && (Ended(s.egress) ==> HasVerdict(s.sent))
    && (s.egress.SendVerdict? ==> s.egress.verdict.Completed? || s.egress.verdict.Timeout?)
  }

  /** The trace of the spawned branch: two notes, then output, then at most one verdict. */
  predicate Grammar(t: seq<Message>) {
    && |t| >= 2 && t[0] == Compiling && t[1] == Started
    && forall i :: 2 <= i < |t| ==> t[i].Output? || (i == |t| - 1 && (t[i].Completed? || t[i].Timeout?))
  }

  /** The data of a stream in a trace. */
  function OutOf(t: seq<Message>, src: Source): Data {
    if |t| == 0 then []
    else OutOf(t[..|t| - 1], src) + Carried(t[|t| - 1], src)
  }

  function Carried(m: Message, src: Source): Data {
    if m.Output? && m.src == src then m.data else []
  }

  /** What has been read from a pipe and not been sent yet. */
  function Pending(e: Egress, src: Source): Data {
    match e
    case SendOut(data) => if src == Stdout then data else []
    case SendErr(data) => if src == Stderr then data else []
    case FinalReadErr(data) => if src == Stdout then data else []
    case FinalSendOut(data, next) => if src == Stdout then data else next
    case FinalSendErr(data) => if src == Stderr then data else []
    case _ => []
  }

  predicate OutputInv(s: State) {
    && OutOf(s.sent, Stdout) + Pending(s.egress, Stdout) == ReadSoFar(s.life, Stdout)
    && OutOf(s.sent, Stderr) + Pending(s.egress, Stderr) == ReadSoFar(s.life, Stderr)
  }

  /** The final read of a stream lies behind the egress thread. */
  predicate ReadToEnd(s: State, src: Source) {
    || (src == Stdout && s.egress.FinalReadErr?)
    || s.egress.FinalSendOut? || s.egress.FinalSendErr? || Judging(s.egress) || HasVerdict(s.sent)
  }

  predicate DrainInv(s: State) {
    !s.life.p.os.orphans ==>
      && (ReadToEnd(s, Stdout) ==> ReadSoFar(s.life, Stdout) == Written(s.life, Stdout))
      && (ReadToEnd(s, Stderr) ==> ReadSoFar(s.life, Stderr) == Written(s.life, Stderr))
  }

  /** What the child gets: everything written before the first close, if the pipe takes it. */
  function Fed(ops: seq<(Op, bool)>): Data {
    if |ops| == 0 then []
    else
      var (op, written) := ops[|ops| - 1];
      Fed(ops[..|ops| - 1]) + if op.Feed? && written && !HasShut(ops[..|ops| - 1]) then op.data else []
  }

  predicate HasShut(ops: seq<(Op, bool)>) { exists i :: 0 <= i < |ops| && ops[i].0.Shut? }

  function Firsts(ops: seq<(Op, bool)>): seq<Op> { seq(|ops|, i requires 0 <= i < |ops| => ops[i].0) }

  function AllOps(messages: seq<ClientMessage>): seq<Op> {
    if |messages| == 0 then [] else AllOps(messages[..|messages| - 1]) + Ops(messages[|messages| - 1])
  }

  function Left(i: Ingress): seq<Op> { if i.Performing? then i.ops else [] }

  predicate InputInv(s: State) {
    && s.life.p.os.input == Fed(s.performed)
    && (!s.life.destroyed ==> (s.life.p.stdin.writeEnd < 0 <==> HasShut(s.performed)))
    && AllOps(s.received) == Firsts(s.performed) + Left(s.ingress)
  }

  ghost predicate SInv(s: State) {
    HandlerInv(s) && EndInv(s) && FlagInv(s) && TraceInv(s) && OutputInv(s) && DrainInv(s) && InputInv(s)
  }

  // ---------- what a step of the process leaves alone ----------

  predicate SameVerdict(l: Life, m: Life) {
    && m.p.exited == l.p.exited && m.p.exitCode == l.p.exitCode && m.timedOut == l.timedOut
    && m.p.memoryLimitExceeded == l.p.memoryLimitExceeded && m.p.os.kills == l.p.os.kills
  }

  predicate SameReads(l: Life, m: Life) { m.readOut == l.readOut && m.readErr == l.readErr }

  predicate Quiet(st: ProcessLife.Step) { st.Outside? || st.Write? || st.CloseStdin? }

  predicate Ending(st: ProcessLife.Step) { st.Terminate? || st.Destroy? }

  lemma QuietStep(l: Life, st: ProcessLife.Step)
    requires Enabled(l, st) && Quiet(st)
    ensures SameVerdict(l, Apply(l, st)) && SameReads(l, Apply(l, st))
    ensures Apply(l, st).p.spawned == l.p.spawned && Apply(l, st).destroyed == l.destroyed
  {
    hide CloseEnd, Unread, Take;
    match st {
      case CloseStdin => CloseTouches(l.p, StdinWrite);
      case _ =>
    }
  }

  lemma EndingStep(l: Life, st: ProcessLife.Step)
    requires ProcessLife.Inv(l) && Enabled(l, st) && Ending(st)
    ensures SameReads(l, Apply(l, st)) && Apply(l, st).timedOut == l.timedOut
    ensures l.p.exited ==> SameVerdict(l, Apply(l, st))
    ensures Apply(l, st).p.spawned == l.p.spawned && Apply(l, st).destroyed == (l.destroyed || st.Destroy?)
  {
    hide CloseAll, Accounted, ClockInv, StreamInv, ChildInv;
    match st {
      case Destroy => CloseAllTouches(TerminateDoes(l.p));
      case _ =>
    }
  }

  lemma ReadStep(l: Life, src: Source)
    requires ProcessLife.Inv(l) && l.p.spawned && !l.destroyed
    ensures ApplyRead(l, src) == Apply(l, Read(src)) && ProcessLife.Inv(ApplyRead(l, src))
    ensures SameVerdict(l, ApplyRead(l, src))
    ensures ApplyRead(l, src).p.spawned && !ApplyRead(l, src).destroyed
    ensures ReadSoFar(ApplyRead(l, src), Stdout) == l.readOut + if src == Stdout then ReadGives(l.p, src) else []
    ensures ReadSoFar(ApplyRead(l, src), Stderr) == l.readErr + if src == Stderr then ReadGives(l.p, src) else []
    ensures ApplyRead(l, src).p.os.orphans == l.p.os.orphans
  {
    StepKeepsInv(l, Read(src));
    hide Unread, Take, ProcessLife.Inv;
    TakeTouches(l.p.os, src, |ReadGives(l.p, src)|);
  }

  /** The three calls of `is_running`. */
  predicate Probes(st: ProcessLife.Step) { st.CheckIdle? || st.Terminate? || st.HasExited? }

  lemma ProbeStep(l: Life, st: ProcessLife.Step)
    requires ProcessLife.Inv(l) && l.p.spawned && !l.destroyed && Probes(st)
    ensures Enabled(l, st) && ProcessLife.Inv(Apply(l, st))
    ensures SameReads(l, Apply(l, st)) && Apply(l, st).p.spawned && !Apply(l, st).destroyed
    ensures Apply(l, st).p.os.orphans == l.p.os.orphans
    ensures st.CheckIdle? ==>
              Apply(l, st) == ApplyCheck(l) && ApplyCheck(l).p == l.p
              && ApplyCheck(l).timedOut == (l.timedOut || RunningTimesOut(l.p))
    ensures !st.CheckIdle? ==> Apply(l, st).timedOut == l.timedOut
    ensures l.p.exited && !st.CheckIdle? ==> SameVerdict(l, Apply(l, st))
    ensures !l.p.exited && st.Terminate? ==> Apply(l, st).p.exited && Apply(l, st).p.os.kills != []
    ensures !l.p.exited && st.HasExited? ==>
              (Apply(l, st).p.exited <==> ExitedGives(l.p)) && Apply(l, st).p.os.kills == []
    ensures l.p.exited ==> ExitedGives(l.p)
  {
    StepKeepsInv(l, st);
    hide Accounted, ClockInv, StreamInv;
  }

  /** World, feeding and closing stdin, killing, destroying: whatever the other parties do to
      the process between two steps of the egress thread. */
  ghost predicate OthersDid(s: State, t: State, st: ProcessLife.Step) {
    && Enabled(s.life, st) && t.life == Apply(s.life, st) && (Quiet(st) || (Ending(st) && !t.active))
    && t.egress == s.egress && t.sent == s.sent && t.active == s.active && t.closed == s.closed && t.gone == s.gone
  }

  lemma OthersKeep(s: State, t: State, st: ProcessLife.Step)
    requires HandlerInv(s) && EndInv(s) && OutputInv(s) && TraceInv(s) && OthersDid(s, t, st)
    ensures EndInv(t) && OutputInv(t) && TraceInv(t)
    ensures ProcessLife.Inv(t.life) && t.life.p.spawned && t.life.destroyed == (s.life.destroyed || st.Destroy?)
  {
    StepKeepsInv(s.life, st);
    if Quiet(st) {
      QuietStep(s.life, st);
    } else {
      EndingStep(s.life, st);
    }
    hide Apply, Enabled, ProcessLife.Inv, OutOf, Grammar, Pending;
  }

  lemma OthersKeepDrained(s: State, t: State, st: ProcessLife.Step)
    requires HandlerInv(s) && EndInv(s) && DrainInv(s) && TraceInv(s) && OthersDid(s, t, st)
    ensures DrainInv(t)
  {
    hide Apply, Enabled, ProcessLife.Inv, Written, ReadSoFar, Grammar;
    StepKeepsInv(s.life, st);
    if !s.life.p.os.orphans {
      assert ReadToEnd(s, Stdout) || ReadToEnd(s, Stderr) ==> s.life.p.exited;
      if ReadToEnd(s, Stdout) {
        StepKeepsDrained(s.life, st, Stdout);
      }
      if ReadToEnd(s, Stderr) {
        StepKeepsDrained(s.life, st, Stderr);
      }
    }
  }

  // ---------- the egress thread ----------

  lemma SaidOutOf(t: seq<Message>, m: Message, src: Source)
    ensures OutOf(t + [m], src) == OutOf(t, src) + Carried(m, src)
  {
    assert (t + [m])[..|t|] == t;
  }

  lemma SaidGrammar(t: seq<Message>, m: Message)
    requires Grammar(t) && !HasVerdict(t) && (m.Output? || m.Completed? || m.Timeout?)
    ensures Grammar(t + [m]) && (HasVerdict(t + [m]) <==> !m.Output?)
  {
  }

  /** At most one message at a time, and a verdict only as such. */
  lemma SaysOne(e: Egress)
    ensures Says(e) == [] || Says(e) == [Says(e)[0]]
    ensures Says(e) != [] && !e.SendVerdict? ==> Says(e)[0].Output?
  {
  }

  predicate IsRead(e: Egress, src: Source) { Acts(e) == Some(Read(src)) }

  /** A call of the egress thread keeps the process in order. */
  lemma EgressAct(l: Life, e: Egress)
    requires ProcessLife.Inv(l) && l.p.spawned && !l.destroyed
    ensures ProcessLife.Inv(After(l, e)) && After(l, e).p.spawned && !After(l, e).destroyed
    ensures After(l, e).p.os.orphans == l.p.os.orphans
    ensures Acts(e).None? || Acts(e).step.Read? ==> SameVerdict(l, After(l, e))
    ensures After(l, e).readOut == l.readOut + if IsRead(e, Stdout) then ReadGives(l.p, Stdout) else []
    ensures After(l, e).readErr == l.readErr + if IsRead(e, Stderr) then ReadGives(l.p, Stderr) else []
  {
    hide ProcessLife.Inv, Apply, ApplyRead, ApplyCheck, ReadGives, Enabled, ExitedGives, RunningTimesOut;
    ActsWhat(e);
    hide Acts;
    match Acts(e) {
      case None =>
      case Some(st) =>
        if st.Read? {
          ReadStep(l, st.src);
        } else {
          ProbeStep(l, st);
        }
    }
  }

  lemma ActsWhat(e: Egress)
    ensures Acts(e).Some? ==> Probes(Acts(e).step) || Acts(e).step.Read?
  {
  }

  lemma EgressKeepsHandler(s: State)
    requires HandlerInv(s) && EgressCan(s)
    ensures HandlerInv(EgressDoes(s)) && EgressDoes(s).life.p.os.orphans == s.life.p.os.orphans
    ensures EgressDoes(s).ingress == s.ingress
  {
    EgressAct(s.life, s.egress);
    hide ProcessLife.Inv, After, NextPc, Says, Acts, Apply;
  }

  lemma EgressKeepsTrace(s: State)
    requires TraceInv(s) && EgressCan(s)
    ensures TraceInv(EgressDoes(s))
  {
    var e := s.egress;
    NextPcTrace(s);
    SaysOne(e);
    hide Grammar, After, Says, HasVerdict, NextPc;
    if Says(e) == [] {
      assert s.sent + Says(e) == s.sent;
    } else {
      SaidGrammar(s.sent, Says(e)[0]);
    }
  }

  lemma NextPcTrace(s: State)
    requires !s.egress.Finished?
    ensures Ended(NextPc(s)) <==> s.egress.SendVerdict? || s.egress.ClearActive?
    ensures NextPc(s).Finished? ==> s.egress.CloseSocket? || s.egress.FinalTest?
    ensures s.egress.CloseSocket? ==> NextPc(s).Finished?
    ensures NextPc(s).SendVerdict? ==> NextPc(s).verdict.Completed? || NextPc(s).verdict.Timeout?
    ensures s.egress.SendVerdict? ==> Says(s.egress) == [s.egress.verdict]
    ensures Ended(s.egress) || s.egress.FinalTest? ==> Says(s.egress) == []
  {
    hide ReadGives, RunningTimesOut, ExitedGives;
  }

  lemma EgressKeepsEnd(s: State)
    requires HandlerInv(s) && TraceInv(s) && EndInv(s) && EgressCan(s)
    ensures EndInv(EgressDoes(s))
  {
    EgressKeepsTrace(s);
    if s.egress.LookAtClock? || s.egress.KillIdle? || s.egress.Poll? {
      ProbeKeepsEnd(s);
    } else if s.egress.AskTimedOut? || s.egress.AskCode? || s.egress.AskMemory? {
      hide ProcessLife.Inv, Grammar;
    } else if s.egress.SendVerdict? {
      hide ProcessLife.Inv, Grammar;
    } else {
      EgressMoves(s);
      EgressAct(s.life, s.egress);
      EgressReads(s.egress);
      hide EgressDoes, PcMoves, EndInv, ProcessLife.Inv, Acts;
      assert SameVerdict(s.life, After(s.life, s.egress));
      EgressDoesLife(s);
      EndSame(s, EgressDoes(s));
    }
  }

  lemma EgressDoesLife(s: State)
    requires EgressCan(s)
    ensures EgressDoes(s).life == After(s.life, s.egress)
  {
  }

  lemma EgressReads(e: Egress)
    requires !e.LookAtClock? && !e.KillIdle? && !e.Poll?
    ensures Acts(e).None? || Acts(e).step.Read?
  {
  }

  lemma ProbeKeepsEnd(s: State)
    requires HandlerInv(s) && TraceInv(s) && EndInv(s) && EgressCan(s)
    requires s.egress.LookAtClock? || s.egress.KillIdle? || s.egress.Poll?
    ensures EndInv(EgressDoes(s))
  {
    hide ProcessLife.Inv, Apply, ApplyCheck, RunningTimesOut, Grammar, ExitedGives;
    ProbeStep(s.life, Acts(s.egress).step);
  }

  /** How the program counter of the egress thread may move. */
  predicate PcMoves(s: State, t: State) {
    && (t.active ==> s.active)
    && (HasVerdict(t.sent) ==> t.sent == s.sent)
    && (Looping(t.egress) ==> Looping(s.egress))
    && !t.egress.KillIdle? && !t.egress.Poll?
    && (t.egress.FinalTest? ==> s.egress.FinalTest? || (Looping(s.egress) && !s.active))
    && (Closing(t.egress) ==> (Closing(s.egress) || (s.egress.FinalTest? && s.active)))
    && (Judging(t.egress) ==> t.egress.AskTimedOut?)
  }

  lemma EgressMoves(s: State)
    requires EgressCan(s) && !s.egress.LookAtClock? && !s.egress.KillIdle? && !s.egress.Poll? && !Judging(s.egress)
    ensures PcMoves(s, EgressDoes(s))
  {
    hide After, ReadGives;
  }

  lemma EndSame(s: State, t: State)
    requires EndInv(s) && SameVerdict(s.life, t.life) && PcMoves(s, t)
    ensures EndInv(t)
  {
  }

  lemma EgressKeepsFlags(s: State)
    requires FlagInv(s) && TraceInv(s) && EgressCan(s)
    ensures FlagInv(EgressDoes(s))
  {
    NextPcTrace(s);
    NextPcFlags(s);
    hide Grammar, After, NextPc, Says;
    if Says(s.egress) == [] {
      assert s.sent + Says(s.egress) == s.sent;
    }
  }

  lemma NextPcFlags(s: State)
    requires !s.egress.Finished?
    ensures NextPc(s).CloseSocket? <==> s.egress.ClearActive?
    ensures s.egress.FinalTest? ==> (NextPc(s).Finished? <==> !s.active)
    ensures s.egress.CloseSocket? ==> Says(s.egress) == []
  {
    hide ReadGives, RunningTimesOut, ExitedGives;
  }

  lemma EgressKeepsOutput(s: State)
    requires HandlerInv(s) && TraceInv(s) && OutputInv(s) && EgressCan(s)
    ensures OutputInv(EgressDoes(s))
  {
    EgressAct(s.life, s.egress);
    EgressSays(s, Stdout);
    EgressSays(s, Stderr);
    hide ProcessLife.Inv, After, OutOf, NextPc, Says, Pending, ReadGives, Acts;
  }

  /** What the next step hands to the socket. */
  function Sending(e: Egress, src: Source): Data {
    match e
    case SendOut(data) => if src == Stdout then data else []
    case SendErr(data) => if src == Stderr then data else []
    case FinalSendOut(data, _) => if src == Stdout then data else []
    case FinalSendErr(data) => if src == Stderr then data else []
    case _ => []
  }

  lemma EgressSends(s: State, src: Source)
    requires EgressCan(s) && (s.egress.SendVerdict? ==> !s.egress.verdict.Output?)
    ensures OutOf(EgressDoes(s).sent, src) == OutOf(s.sent, src) + Sending(s.egress, src)
  {
    var e := s.egress;
    SaysOne(e);
    SaysCarries(e, src);
    hide OutOf, Says, Sending, NextPc, After, Carried;
    if Says(e) == [] {
      assert s.sent + Says(e) == s.sent;
    } else {
      SaidOutOf(s.sent, Says(e)[0], src);
    }
  }

  lemma SaysCarries(e: Egress, src: Source)
    requires e.SendVerdict? ==> !e.verdict.Output?
    ensures Sending(e, src) == if Says(e) == [] then [] else Carried(Says(e)[0], src)
  {
  }

  /** Of one stream, a step keeps the pending data, sends it, or takes it from the pipe. */
  lemma PendingCases(s: State, src: Source)
    requires EgressCan(s)
    ensures var pending, after, sending := Pending(s.egress, src), Pending(NextPc(s), src), Sending(s.egress, src);
            if IsRead(s.egress, src) then sending == pending == [] && after == ReadGives(s.life.p, src)
            else (sending == [] && after == pending) || (sending == pending && after == [])
  {
    hide ReadGives, RunningTimesOut, ExitedGives;
  }

  lemma PendingMoves(s: State, src: Source)
    requires EgressCan(s)
    ensures Sending(s.egress, src) + Pending(EgressDoes(s).egress, src)
            == Pending(s.egress, src) + if IsRead(s.egress, src) then ReadGives(s.life.p, src) else []
  {
    PendingCases(s, src);
    hide *;
  }

  /** Data moves from the pipe to the thread and from the thread to the socket. */
  lemma EgressSays(s: State, src: Source)
    requires EgressCan(s) && (s.egress.SendVerdict? ==> !s.egress.verdict.Output?)
    ensures OutOf(EgressDoes(s).sent, src) + Pending(EgressDoes(s).egress, src)
            == OutOf(s.sent, src) + Pending(s.egress, src)
               + if IsRead(s.egress, src) then ReadGives(s.life.p, src) else []
  {
    EgressSends(s, src);
    PendingMoves(s, src);
    hide *;
    Regroup(OutOf(s.sent, src), Sending(s.egress, src), Pending(EgressDoes(s).egress, src), Pending(s.egress, src),
            if IsRead(s.egress, src) then ReadGives(s.life.p, src) else []);
  }

  lemma Regroup(said: Data, sending: Data, left: Data, pending: Data, got: Data)
    requires sending + left == pending + got
    ensures said + sending + left == said + pending + got
  {
    assert said + sending + left == said + (sending + left);
    assert said + pending + got == said + (pending + got);
  }

  lemma EgressKeepsDrained(s: State)
    requires HandlerInv(s) && EndInv(s) && TraceInv(s) && DrainInv(s) && EgressCan(s)
    ensures DrainInv(EgressDoes(s))
  {
    EgressKeepsTrace(s);
    EgressAct(s.life, s.egress);
    ReadToEndGrows(s);
    EgressDoesLife(s);
    hide ReadSoFar, Written, EgressDoes, ReadToEnd, ProcessLife.Inv, Apply, ApplyRead;
    if s.egress.FinalReadOut? {
      FinalOutDrains(s);
    } else if s.egress.FinalReadErr? {
      FinalErrDrains(s);
    } else if Acts(s.egress).None? {
    } else {
      EarlyActs(s.egress);
      NotYetRead(s);
    }
  }

  /** Apart from the two final reads, calls are made only inside the loop. */
  lemma EarlyActs(e: Egress)
    requires Acts(e).Some? && !e.FinalReadOut? && !e.FinalReadErr?
    ensures !Closing(e) && !Ended(e) && !e.Finished?
  {
  }

  lemma NotYetRead(s: State)
    requires TraceInv(s) && !Closing(s.egress) && !Ended(s.egress) && !s.egress.Finished?
    ensures !ReadToEnd(s, Stdout) && !ReadToEnd(s, Stderr)
  {
    hide Grammar;
  }

  lemma ReadToEndGrows(s: State)
    requires TraceInv(s) && EgressCan(s)
    ensures var t := EgressDoes(s);
            && (s.egress.FinalReadOut? ==> !ReadToEnd(t, Stderr))
            && forall src :: !s.egress.FinalReadOut? && !s.egress.FinalReadErr? && ReadToEnd(t, src) ==>
                      ReadToEnd(s, src)
  {
    EgressKeepsTrace(s);
    NextPcReads(s);
    hide Grammar, After, NextPc, Says, HasVerdict;
    assert HasVerdict(EgressDoes(s).sent) ==> HasVerdict(s.sent) || s.egress.SendVerdict?;
  }

  lemma NextPcReads(s: State)
    requires !s.egress.Finished?
    ensures s.egress.FinalReadOut? ==> NextPc(s).FinalReadErr?
    ensures Judging(NextPc(s)) ==> Judging(s.egress) || s.egress.FinalSendErr?
    ensures NextPc(s).FinalSendOut? ==> s.egress.FinalReadErr?
    ensures NextPc(s).FinalSendErr? ==> s.egress.FinalSendOut?
    ensures NextPc(s).FinalReadErr? ==> s.egress.FinalReadOut?
  {
    hide ReadGives, RunningTimesOut, ExitedGives;
  }

  lemma FinalOutDrains(s: State)
    requires HandlerInv(s) && s.egress.FinalReadOut?
    ensures !s.life.p.os.orphans ==>
              ReadSoFar(ApplyRead(s.life, Stdout), Stdout) == Written(ApplyRead(s.life, Stdout), Stdout)
    ensures ApplyRead(s.life, Stdout).p.os.orphans == s.life.p.os.orphans
  {
    hide ApplyRead;
    ReadStep(s.life, Stdout);
    hide ProcessLife.Inv;
    ReadDrains(s.life, Stdout);
  }

  lemma FinalErrDrains(s: State)
    requires HandlerInv(s) && EndInv(s) && DrainInv(s) && s.egress.FinalReadErr?
    ensures ApplyRead(s.life, Stderr).p.os.orphans == s.life.p.os.orphans
    ensures !s.life.p.os.orphans ==>
              && ReadSoFar(ApplyRead(s.life, Stderr), Stderr) == Written(ApplyRead(s.life, Stderr), Stderr)
              && ReadSoFar(ApplyRead(s.life, Stderr), Stdout) == Written(ApplyRead(s.life, Stderr), Stdout)
  {
    hide ApplyRead;
    ReadStep(s.life, Stderr);
    hide ProcessLife.Inv, ReadSoFar, Written;
    ReadDrains(s.life, Stderr);
    if !s.life.p.os.orphans {
      StepKeepsDrained(s.life, Read(Stderr), Stdout);
    }
  }

  // ---------- the ingress loop ----------

  /** The step that the ingress loop takes on the process, if it takes one. */
  predicate Touches(s: State) {
    (s.ingress.Performing? && s.ingress.ops != []) || s.ingress.Failed? || s.ingress.Joining?
  }

  function Touch(s: State, written: bool): ProcessLife.Step
    requires Touches(s)
  {
    match s.ingress
    case Performing(ops) => if ops[0].Feed? then Write(ops[0].data, written) else CloseStdin
    case Failed => Terminate
    case _ => Destroy
  }

  lemma IngressTouches(s: State, written: bool)
    requires HandlerInv(s) && FlagInv(s) && IngressCan(s) && Touches(s)
    ensures OthersDid(s, IngressDoes(s, written), Touch(s, written))
    ensures Touch(s, written).Destroy? <==> s.ingress.Joining?
    ensures IngressDoes(s, written).ingress.Done? <==> s.ingress.Joining?
  {
    hide Apply, ProcessLife.Inv;
  }

  /** A step of the ingress loop, or a message or a disconnect, that leaves the process alone. */
  predicate Idle(s: State, t: State) {
    && t.life == s.life && t.egress == s.egress && t.sent == s.sent && t.closed == s.closed && (t.active ==> s.active)
    && !s.ingress.Done? && !t.ingress.Done?
  }

  lemma IdleKeeps(s: State, t: State)
    requires HandlerInv(s) && EndInv(s) && TraceInv(s) && OutputInv(s) && DrainInv(s) && Idle(s, t)
    ensures HandlerInv(t) && EndInv(t) && TraceInv(t) && OutputInv(t) && DrainInv(t)
  {
    hide ProcessLife.Inv, OutOf, Grammar, Pending, ReadSoFar, Written, Settled;
  }

  lemma IngressKeepsFlags(s: State, step: Step)
    requires FlagInv(s) && TraceInv(s) && HandlerInv(s) && Can(s, step) &&
              (step.IngressStep? || step.Receive? || step.Disconnect?)
    ensures FlagInv(Next(s, step))
  {
    hide Apply, Grammar, ProcessLife.Inv;
  }

  lemma IngressKeeps(s: State, step: Step)
    requires HandlerInv(s) && EndInv(s) && FlagInv(s) && TraceInv(s) && OutputInv(s) && DrainInv(s)
    requires Can(s, step) && (step.IngressStep? || step.Receive? || step.Disconnect?)
    ensures var t := Next(s, step);
            HandlerInv(t) && EndInv(t) && FlagInv(t) && TraceInv(t) && OutputInv(t) && DrainInv(t)
  {
    IngressKeepsFlags(s, step);
    var t := Next(s, step);
    if step.IngressStep? && Touches(s) {
      IngressTouches(s, step.written);
      hide Apply, ProcessLife.Inv, OutOf, Grammar, Pending, ReadSoFar, Written, Settled, IngressDoes, OthersDid, Touch,
           EndInv, TraceInv, OutputInv, DrainInv, FlagInv;
      OthersKeep(s, t, Touch(s, step.written));
      OthersKeepDrained(s, t, Touch(s, step.written));
    } else {
      assert Idle(s, t) by {
        hide Apply, ProcessLife.Inv, EndInv, TraceInv, OutputInv, DrainInv, FlagInv;
      }
      hide *;
      IdleKeeps(s, t);
    }
  }

  lemma WorldKeeps(s: State, e: Event)
    requires HandlerInv(s) && EndInv(s) && FlagInv(s) && TraceInv(s) && OutputInv(s) && DrainInv(s)
    requires Can(s, World(e))
    ensures var t := Next(s, World(e));
            HandlerInv(t) && EndInv(t) && FlagInv(t) && TraceInv(t) && OutputInv(t) && DrainInv(t)
  {
    hide Apply, ProcessLife.Inv, OutOf, Grammar, Pending, ReadSoFar, Written, Settled, EndInv, TraceInv, OutputInv,
         DrainInv;
    OthersKeep(s, Next(s, World(e)), Outside(e));
    OthersKeepDrained(s, Next(s, World(e)), Outside(e));
  }

  // ---------- what reaches the child's stdin ----------

  lemma InputUntouched(l: Life, st: ProcessLife.Step)
    requires ProcessLife.Inv(l) && Enabled(l, st) && !st.Write? && !st.CloseStdin? && !st.Spawn?
    ensures Apply(l, st).p.os.input == l.p.os.input
    ensures !st.Destroy? ==> Apply(l, st).p.stdin == l.p.stdin && Apply(l, st).destroyed == l.destroyed
  {
    hide Accounted, ChildInv, ClockInv, StreamInv, CloseAll, Unread, Take;
    match st {
      case Destroy => CloseAllTouches(TerminateDoes(l.p));
      case Read(src) => TakeTouches(l.p.os, src, |ReadGives(l.p, src)|);
      case _ =>
    }
  }

  lemma FedMore(ops: seq<(Op, bool)>, op: Op, written: bool)
    ensures Fed(ops + [(op, written)]) == Fed(ops) + if op.Feed? && written && !HasShut(ops) then op.data else []
    ensures HasShut(ops + [(op, written)]) <==> HasShut(ops) || op.Shut?
    ensures Firsts(ops + [(op, written)]) == Firsts(ops) + [op]
  {
    var more := ops + [(op, written)];
    assert more[..|ops|] == ops;
    assert more[|ops|].0 == op;
    if HasShut(ops) {
      var i :| 0 <= i < |ops| && ops[i].0.Shut?;
      assert more[i].0.Shut?;
    }
  }

  lemma WriteFeeds(l: Life, data: Data, written: bool)
    requires l.p.spawned && !l.destroyed
    ensures var m := Apply(l, Write(data, written));
            && m.p.os.input == l.p.os.input + (if written && l.p.stdin.writeEnd >= 0 then data else [])
            && m.p.stdin == l.p.stdin && !m.destroyed
  {
  }

  lemma CloseShuts(l: Life)
    requires !l.destroyed
    ensures var m := Apply(l, CloseStdin);
            m.p.os.input == l.p.os.input && m.p.stdin.writeEnd < 0 && !m.destroyed
  {
    hide CloseEnd;
    CloseTouches(l.p, StdinWrite);
    assert EndOf(CloseEnd(l.p, StdinWrite), StdinWrite) < 0;
  }

  lemma PerformKeepsInput(s: State, written: bool)
    requires InputInv(s) && HandlerInv(s) && IngressCan(s) && s.ingress.Performing? && s.ingress.ops != []
    ensures InputInv(PerformOne(s, written))
  {
    hide ProcessLife.Inv, Fed, HasShut, Firsts, AllOps, Apply;
    var op, rest := s.ingress.ops[0], s.ingress.ops[1..];
    FedMore(s.performed, op, written);
    if op.Feed? {
      WriteFeeds(s.life, op.data, written);
    } else {
      CloseShuts(s.life);
    }
    assert Firsts(s.performed) + [op] + rest == Firsts(s.performed) + s.ingress.ops by {
      assert s.ingress.ops == [op] + rest;
    }
  }

  lemma EgressKeepsInput(s: State)
    requires InputInv(s) && HandlerInv(s) && EgressCan(s)
    ensures InputInv(EgressDoes(s))
  {
    EgressAct(s.life, s.egress);
    ActsWhat(s.egress);
    hide NextPc, Says, ProcessLife.Inv, Fed, HasShut, Firsts, AllOps, Apply, Acts;
    if Acts(s.egress).Some? {
      ActEnabled(s.life, Acts(s.egress).step);
      InputUntouched(s.life, Acts(s.egress).step);
    }
  }

  lemma ActEnabled(l: Life, st: ProcessLife.Step)
    requires !l.destroyed && (Probes(st) || st.Read?)
    ensures Enabled(l, st) && !st.Write? && !st.CloseStdin? && !st.Spawn? && !st.Destroy?
  {
  }

  lemma StepKeepsInput(s: State, step: Step)
    requires InputInv(s) && HandlerInv(s) && Can(s, step)
    ensures InputInv(Next(s, step))
  {
    match step {
      case EgressStep => EgressKeepsInput(s);
      case World(e) =>
        hide Fed, HasShut, Firsts, AllOps;
        InputUntouched(s.life, Outside(e));
      case Receive(m) => ReceiveKeepsInput(s, m);
      case IngressStep(written) => IngressKeepsInput(s, written);
      case Disconnect =>
        hide Fed, HasShut, Firsts, AllOps;
    }
  }

  lemma IngressKeepsInput(s: State, written: bool)
    requires InputInv(s) && HandlerInv(s) && IngressCan(s)
    ensures InputInv(IngressDoes(s, written))
  {
    if s.ingress.Performing? && s.ingress.ops != [] {
      hide InputInv, PerformOne;
      PerformKeepsInput(s, written);
    } else {
      hide Fed, HasShut, Firsts, AllOps, Apply, ProcessLife.Inv, PerformOne;
      if s.ingress.Failed? {
        InputUntouched(s.life, Terminate);
      } else if s.ingress.Joining? {
        InputUntouched(s.life, Destroy);
      }
    }
  }

  lemma AllOpsMore(messages: seq<ClientMessage>, m: ClientMessage)
    ensures AllOps(messages + [m]) == AllOps(messages) + Ops(m)
  {
    assert (messages + [m])[..|messages|] == messages;
  }

  lemma ReceiveKeepsInput(s: State, m: ClientMessage)
    requires InputInv(s) && s.ingress.Reading?
    ensures InputInv(Next(s, Receive(m)))
  {
    hide Fed, HasShut, Firsts, Ops, AllOps;
    AllOpsMore(s.received, m);
    assert AllOps(s.received) == Firsts(s.performed) + [] == Firsts(s.performed);
  }

  // ---------- every reachable state ----------

  lemma StepKeepsSInv(s: State, step: Step)
    requires SInv(s) && Can(s, step)
    ensures SInv(Next(s, step))
  {
    StepKeepsInput(s, step);
    hide HandlerInv, EndInv, FlagInv, TraceInv, OutputInv, DrainInv, InputInv;
    match step {
      case World(e) => WorldKeeps(s, e);
      case EgressStep =>
        hide EgressDoes;
        EgressKeepsHandler(s);
        EgressKeepsEnd(s);
        EgressKeepsFlags(s);
        EgressKeepsTrace(s);
        EgressKeepsOutput(s);
        EgressKeepsDrained(s);
      case _ => IngressKeeps(s, step);
    }
  }

  lemma InitLife(orphans: bool)
    ensures var l := Init(orphans).life;
            && ProcessLife.Inv(l) && l.p.spawned && !l.destroyed && !l.p.exited && !l.timedOut
            && l.readOut == l.readErr == l.p.os.input == [] && l.p.stdin.writeEnd >= 0 && l.p.os.orphans == orphans
  {
    BornInv(orphans);
    StepKeepsInv(Born(orphans), Spawn(3, true));
    hide ProcessLife.Inv;
    SpawnTouches(Born(orphans).p.os, 3, true);
  }

  lemma NothingSaid(src: Source)
    ensures OutOf([Compiling, Started], src) == []
  {
    var t := [Compiling, Started];
    assert t[..1] == [Compiling];
  }

  lemma InitSInv(orphans: bool)
    ensures SInv(Init(orphans)) && Init(orphans).life.p.os.orphans == orphans
  {
    InitLife(orphans);
    NothingSaid(Stdout);
    NothingSaid(Stderr);
    hide ProcessLife.Inv, OutOf, Apply;
  }

  lemma {:induction false} RunsSInv(orphans: bool, s: State, n: nat)
    requires Runs(orphans, s, n)
    ensures SInv(s)
    decreases n
  {
    hide Runs, SInv, Can, Next;
    if n == 0 {
      NoStep(orphans, s);
      InitSInv(orphans);
    } else {
      var before, step := LastStep(orphans, s, n);
      RunsSInv(orphans, before, n - 1);
      StepKeepsSInv(before, step);
    }
  }

  // ---------- what every run of the spawned branch guarantees ----------

  lemma GrammarMeans(t: seq<Message>)
    requires Grammar(t)
    ensures forall i :: 2 <= i < |t| - 1 ==> t[i].Output?
    ensures forall i :: 0 <= i < |t| && Terminal(t[i]) ==> t[i].Completed? || t[i].Timeout?
  {
  }

  /** Whatever the interleaving: two notes, then only output, then at most one verdict and
      nothing after it.  A finished egress thread has given the verdict, unless the client was
      gone; and it closes the socket only after the verdict. */
  lemma TraceGrammar(orphans: bool, s: State, n: nat)
    requires Runs(orphans, s, n)
    ensures |s.sent| >= 2 && s.sent[0] == Compiling && s.sent[1] == Started
    ensures forall i :: 2 <= i < |s.sent| - 1 ==> s.sent[i].Output?
    ensures forall i :: 0 <= i < |s.sent| && Terminal(s.sent[i]) ==> s.sent[i].Completed? || s.sent[i].Timeout?
    ensures s.egress.Finished? ==> HasVerdict(s.sent) || s.gone
    ensures s.closed ==> HasVerdict(s.sent)
  {
    RunsSInv(orphans, s, n);
    hide Runs, HandlerInv, EndInv, OutputInv, DrainInv, InputInv, HasVerdict, Terminal;
    GrammarMeans(s.sent);
  }

  /** A `completed` carries the exit code and the memory flag of a child that ended by itself:
      the ingress loop clears `connection_active` before it kills the child, so its kill is
      never reported.  A `timeout` always carries 999. */
  lemma VerdictIsTrue(orphans: bool, s: State, n: nat)
    requires Runs(orphans, s, n) && HasVerdict(s.sent)
    ensures var v := s.sent[|s.sent| - 1];
            && s.life.p.os.child.Reaped?
            && (v.Completed? ==>
                  && s.life.p.os.kills == [] && !s.life.timedOut
                  && v.code == CodeOf(s.life.p.os.child.status)
                  && (v.memoryLimitExceeded <==> s.life.p.os.child.status == Signaled(SIGKILL)))
            && (v.Timeout? ==> s.life.timedOut && v.code == 999)
  {
    RunsSInv(orphans, s, n);
    hide Runs, FlagInv, OutputInv, DrainInv, InputInv, Accounted, ClockInv, StreamInv;
  }

  /** Every run of the handler is a life of its process, so all that ProcessLife proves holds
      in it. */
  lemma {:induction false} RunIsALife(orphans: bool, s: State, n: nat) returns (k: nat)
    requires Runs(orphans, s, n)
    ensures Reachable(orphans, s.life, k)
    decreases n
  {
    hide Runs, Can, Next, Enabled, Apply;
    if n == 0 {
      NoStep(orphans, s);
      assert Enabled(Born(orphans), Spawn(3, true)) by {
        SpawnEnabled(orphans);
      }
      R.Stay(ProcessLife.Moves, Born(orphans));
      R.Extend(ProcessLife.Moves, Born(orphans), Born(orphans), 0, Spawn(3, true), s.life);
      k := 1;
    } else {
      var before, step := LastStep(orphans, s, n);
      k := RunIsALife(orphans, before, n - 1);
      RunsSInv(orphans, before, n - 1);
      var did := LifeMoves(before, step);
      if did.Some? {
        R.Extend(ProcessLife.Moves, Born(orphans), before.life, k, did.step, s.life);
        k := k + 1;
      }
    }
  }

  lemma SpawnEnabled(orphans: bool)
    ensures Enabled(Born(orphans), Spawn(3, true))
  {
  }

  lemma LifeMoves(s: State, step: Step) returns (did: Maybe)
    requires SInv(s) && Can(s, step)
    ensures match did
            case None => Next(s, step).life == s.life
            case Some(st) => Enabled(s.life, st) && Next(s, step).life == Apply(s.life, st)
  {
    hide ProcessLife.Inv, EndInv, TraceInv, OutputInv, DrainInv, InputInv;
    did := None;
    match step {
      case World(e) => did := Some(Outside(e));
      case EgressStep => did := EgressMovesLife(s);
      case IngressStep(written) =>
        if Touches(s) {
          IngressTouches(s, written);
          did := Some(Touch(s, written));
        }
      case _ =>
    }
  }

  lemma EgressMovesLife(s: State) returns (did: Maybe)
    requires HandlerInv(s) && EgressCan(s)
    ensures match did
            case None => EgressDoes(s).life == s.life
            case Some(st) => Enabled(s.life, st) && EgressDoes(s).life == Apply(s.life, st)
  {
    did := Acts(s.egress);
    ActsWhat(s.egress);
    EgressDoesLife(s);
    hide EgressDoes, Acts, Apply, ProcessLife.Inv;
    if did.Some? {
      ActEnabled(s.life, did.step);
    }
  }

  lemma ReadIsPrefix(l: Life, src: Source)
    requires StreamInv(l)
    ensures ReadSoFar(l, src) <= Written(l, src)
  {
    var str := StreamOf(l.p.os, src);
    assert str.written == str.written[..str.taken] + str.written[str.taken..];
  }

  /** The output messages carry a prefix of what the child wrote; with the verdict, all of
      it, unless a descendant of the child still holds the pipe. */
  lemma OutputIsWhatWasWritten(orphans: bool, s: State, n: nat, src: Source)
    requires Runs(orphans, s, n)
    ensures OutOf(s.sent, src) <= Written(s.life, src)
    ensures HasVerdict(s.sent) && !orphans ==> OutOf(s.sent, src) == Written(s.life, src)
  {
    RunsSInv(orphans, s, n);
    var k := RunIsALife(orphans, s, n);
    ReachableInv(orphans, s.life, k);
    hide Runs, FlagInv, EndInv, InputInv, Accounted, ClockInv, ChildInv, OutOf, ReadSoFar, Written, StreamInv,
              Pending, Grammar;
    ReadIsPrefix(s.life, src);
    if HasVerdict(s.sent) {
      NothingPending(s.egress, src);
    }
  }

  lemma NothingPending(e: Egress, src: Source)
    requires Ended(e) || e.Finished?
    ensures Pending(e, src) == []
  {
  }

  /** When the handler is done, nothing of the process is left: every descriptor has been
      closed once, and the child reaped once. */
  lemma HandlerReclaims(orphans: bool, s: State, n: nat, fd: nat)
    requires Runs(orphans, s, n) && s.ingress.Done?
    ensures s.life.p.os.reaps == 1 && s.life.p.os.child.Reaped?
    ensures fd < s.life.p.os.nextFd ==> multiset(s.life.p.os.closes)[fd] == 1
  {
    RunsSInv(orphans, s, n);
    var k := RunIsALife(orphans, s, n);
    hide Runs, Reachable, EndInv, OutputInv, DrainInv, InputInv, ProcessLife.Inv;
    DescriptorsClosedOnce(orphans, s.life, k, fd);
    ChildReapedOnce(orphans, s.life, k);
  }

  // ---------- stdin ----------

  /** The child's input is made of the messages' data in the order of the messages, up to the
      first close of stdin. */
  lemma InputIsWhatWasSent(orphans: bool, s: State, n: nat)
    requires Runs(orphans, s, n)
    ensures s.life.p.os.input == Fed(s.performed)
    ensures Firsts(s.performed) <= AllOps(s.received)
  {
    RunsSInv(orphans, s, n);
  }

  /** What would have been fed had stdin never been closed. */
  function AllFed(ops: seq<(Op, bool)>): Data {
    if |ops| == 0 then []
    else
      var (op, written) := ops[|ops| - 1];
      AllFed(ops[..|ops| - 1]) + if op.Feed? && written then op.data else []
  }

  /** Some data that would get through comes after a close. */
  predicate FeedsAfterShut(ops: seq<(Op, bool)>) {
    exists i :: 0 <= i < |ops| && ops[i].0.Feed? && ops[i].0.data != [] && ops[i].1 && HasShut(ops[..i])
  }

  lemma {:induction false} FedIsAll(ops: seq<(Op, bool)>)
    ensures Fed(ops) <= AllFed(ops)
    ensures Fed(ops) == AllFed(ops) <==> !FeedsAfterShut(ops)
    decreases |ops|
  {
    if |ops| > 0 {
      var n := |ops| - 1;
      var before := ops[..n];
      var (op, written) := ops[n];
      FedIsAll(before);
      LostBeforeOrLast(ops);
      hide HasShut;
      if !HasShut(before) {
        NothingLostUnshut(before);
      }
      hide FeedsAfterShut;
      var data := if op.Feed? && written then op.data else [];
      assert AllFed(ops) == AllFed(before) + data;
      assert Fed(ops) == Fed(before) + if HasShut(before) then [] else data;
    }
  }

  lemma LostBeforeOrLast(ops: seq<(Op, bool)>)
    requires |ops| > 0
    ensures var n := |ops| - 1;
            FeedsAfterShut(ops) <==>
            (FeedsAfterShut(ops[..n]) || (ops[n].0.Feed? && ops[n].0.data != [] && ops[n].1 && HasShut(ops[..n])))
  {
    var n := |ops| - 1;
    hide HasShut;
    forall i | 0 <= i < n
      ensures ops[..n][..i] == ops[..i] && ops[..n][i] == ops[i]
    {
    }
  }

  lemma NothingLostUnshut(ops: seq<(Op, bool)>)
    requires !HasShut(ops)
    ensures !FeedsAfterShut(ops)
  {
    forall i | 0 <= i < |ops|
      ensures !HasShut(ops[..i])
    {
      assert forall j :: 0 <= j < i ==> ops[..i][j] == ops[j];
    }
  }

  /** All the input arrives if and only if nothing is fed after a close. */
  lemma AllInputArrives(orphans: bool, s: State, n: nat)
    requires Runs(orphans, s, n)
    ensures s.life.p.os.input <= AllFed(s.performed)
    ensures s.life.p.os.input == AllFed(s.performed) <==> !FeedsAfterShut(s.performed)
  {
    hide Runs;
    InputIsWhatWasSent(orphans, s, n);
    FedIsAll(s.performed);
  }

  // The same in terms of the messages alone.

  function AllData(ops: seq<Op>): Data {
    if |ops| == 0 then []
    else AllData(ops[..|ops| - 1]) + if ops[|ops| - 1].Feed? then ops[|ops| - 1].data else []
  }

  predicate FeedAfterShut(ops: seq<Op>) {
    exists i, j :: 0 <= i < j < |ops| && ops[i].Shut? && ops[j].Feed? && ops[j].data != []
  }

  predicate AllWritten(ops: seq<(Op, bool)>) { forall i :: 0 <= i < |ops| ==> ops[i].1 }

  lemma {:induction false} AllFedIsAllData(ops: seq<(Op, bool)>)
    requires AllWritten(ops)
    ensures AllFed(ops) == AllData(Firsts(ops))
    decreases |ops|
  {
    if |ops| > 0 {
      var before := ops[..|ops| - 1];
      AllFedIsAllData(before);
      assert Firsts(before) == Firsts(ops)[..|ops| - 1];
    }
  }

  lemma SameAfterShut(ops: seq<(Op, bool)>)
    requires AllWritten(ops)
    ensures FeedsAfterShut(ops) <==> FeedAfterShut(Firsts(ops))
  {
    var firsts := Firsts(ops);
    assert forall i :: 0 <= i < |ops| ==> firsts[i] == ops[i].0;
    if FeedsAfterShut(ops) {
      var j :| 0 <= j < |ops| && ops[j].0.Feed? && ops[j].0.data != [] && HasShut(ops[..j]);
      var i :| 0 <= i < j && ops[..j][i].0.Shut?;
      assert firsts[i].Shut? && firsts[j].Feed?;
    }
    if FeedAfterShut(firsts) {
      var i, j :| 0 <= i < j < |firsts| && firsts[i].Shut? && firsts[j].Feed? && firsts[j].data != [];
      assert ops[..j][i].0.Shut?;
    }
  }

  /** When the ingress loop has dealt with all messages it has received, and the pipe has taken
      every write: the program's stdin is the data of all messages, in order, if and only if no
      data follows a close -- and every `stdin_data` brings a close with it. */
  lemma MessagesArriveWhole(orphans: bool, s: State, n: nat)
    requires Runs(orphans, s, n) && Left(s.ingress) == [] && AllWritten(s.performed)
    ensures s.life.p.os.input == AllData(AllOps(s.received)) <==> !FeedAfterShut(AllOps(s.received))
  {
    hide Runs, AllFed, AllData, Fed, HasShut, FeedsAfterShut, FeedAfterShut, AllOps, AllWritten;
    AllInputArrives(orphans, s, n);
    RunsSInv(orphans, s, n);
    hide HandlerInv, EndInv, FlagInv, TraceInv, OutputInv, DrainInv;
    assert AllOps(s.received) == Firsts(s.performed);
    AllFedIsAllData(s.performed);
    SameAfterShut(s.performed);
  }

  lemma {:induction false} NothingFedAfterShut(ops: seq<(Op, bool)>, k: nat)
    requires k <= |ops| && HasShut(ops[..k])
    ensures Fed(ops) == Fed(ops[..k])
    decreases |ops|
  {
    if k < |ops| {
      var shorter := ops[..|ops| - 1];
      assert shorter[..k] == ops[..k];
      NothingFedAfterShut(shorter, k);
      var i :| 0 <= i < k && ops[..k][i].0.Shut?;
      assert shorter[i].0.Shut?;
    } else {
      assert ops[..k] == ops;
    }
  }

  lemma {:induction false} FirstOps(messages: seq<ClientMessage>)
    requires |messages| > 0
    ensures Ops(messages[0]) <= AllOps(messages)
  {
    if |messages| > 1 {
      FirstOps(messages[..|messages| - 1]);
    } else {
      assert messages[..0] == [];
    }
  }

  lemma FedOnce(ops: seq<(Op, bool)>, data: Data)
    requires |ops| >= 1 ==> ops[0].0 == Feed(data)
    requires |ops| >= 2 ==> ops[1].0 == Shut
    ensures Fed(ops) == [] || Fed(ops) == data
  {
    if |ops| >= 2 {
      assert ops[..2][1].0.Shut? && ops[..2][..1] == ops[..1] && ops[..1][..0] == [];
      NothingFedAfterShut(ops, 2);
    } else if |ops| == 1 {
      assert ops[..0] == [];
    }
  }

  /** The engine closes stdin after the first `stdin_data`: when that comes first, it is all
      the input the child ever gets, whatever is sent later. */
  lemma FirstInputIsAll(orphans: bool, s: State, n: nat)
    requires Runs(orphans, s, n)
    requires |s.received| > 0 && s.received[0].Object? && s.received[0].stdinData.Is?
    ensures s.life.p.os.input == [] || s.life.p.os.input == s.received[0].stdinData.value
  {
    InputIsWhatWasSent(orphans, s, n);
    FirstOps(s.received);
    hide Runs, AllOps, Fed;
    var ops, data := s.performed, s.received[0].stdinData.value;
    assert |Ops(s.received[0])| >= 2 && Ops(s.received[0])[0] == Feed(data) && Ops(s.received[0])[1] == Shut;
    hide Ops;
    assert |ops| >= 1 ==> Firsts(ops)[0] == ops[0].0;
    assert |ops| >= 2 ==> Firsts(ops)[1] == ops[1].0;
    FedOnce(ops, data);
  }
}
