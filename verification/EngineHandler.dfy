/** The part of the engine's `/ws/execute` handler before its threads start: the branches that
    end without a session, and the one that leads to module EngineSession. */
module EngineHandler {
  import opened Bytes
  import opened EngineSession
  import Posix

  class Socket {
    var sent: seq<Message>
    var closed: bool

    constructor ()
      ensures sent == [] && !closed
    {
      sent, closed := [], false;
    }

    method Send(m: Message)
      modifies this
      ensures sent == old(sent) + [m] && closed == old(closed)
    {
      sent := sent + [m];
    }

    method Close()
      modifies this
      ensures sent == old(sent) && closed
    {
      closed := true;
    }
  }

  datatype Build = Threw | Failed(errors: Data) | Succeeded

  /** What follows a successful build: a compile-only strategy has its result, any other spawns the
      child. */
  datatype Execution = Artifact(code: int, output: Data) | Child(spawns: bool)

  /** All that decides how the handler goes. */
  datatype Case = Case(readable: bool, acceptable: bool, build: Build, execution: Execution)

  /** How a call of the handler goes until the threads start. */
  datatype Branch =
    | NoPayload                                 // the first read failed
    | Refused                                   // bad JSON, a missing key, an unsupported language
    | BuildThrew
    | BuildFailed(errors: Data)
    | CompileOnly(code: int, output: Data)      // e.g. WASM: nothing to execute
    | SpawnFailed
    | Spawned

  /** What the client has been sent by then. */
  function Trace(b: Branch): seq<Message> {
    match b
    case NoPayload => []
    case Refused => [ErrorNote]
    case BuildThrew => [Compiling, ErrorNote]
    case BuildFailed(errors) => [Compiling, CompileError(errors)]
    case CompileOnly(code, output) =>
      [Compiling, Completed(code, false)] + if output == [] then [] else [Output(Posix.Stdout, output)]
    case SpawnFailed => [Compiling, ErrorNote]
    case Spawned => [Compiling, Started]
  }

  /** The handler up to the threads: what the client is sent in each case, and when the socket is
      closed. */
  method Prepare(ws: Socket, c: Case) returns (b: Branch)
    requires ws.sent == [] && !ws.closed
    modifies ws
    ensures ws.sent == Trace(b)
    ensures ws.closed <==> !b.NoPayload? && !b.Spawned?
    ensures !c.readable ==> ws.sent == [] && !ws.closed
    ensures c.readable && !c.acceptable ==> ws.sent == [ErrorNote]
    ensures c.readable && c.acceptable ==>
              match c.build
              case Threw => ws.sent == [Compiling, ErrorNote]
              case Failed(errors) => ws.sent == [Compiling, CompileError(errors)]
              case Succeeded =>
                match c.execution
                case Artifact(code, output) =>
                  ws.sent == [Compiling, Completed(code, false)] + Note(Posix.Stdout, output)
                case Child(spawns) =>
                  ws.sent == [Compiling, if spawns then Started else ErrorNote] && (b.Spawned? <==> spawns)
  {
    if !c.readable {
      return NoPayload;
    }
    if !c.acceptable {
      ws.Send(ErrorNote);
      ws.Close();
      return Refused;
    }
    ws.Send(Compiling);
    match c.build {
      case Threw =>
        ws.Send(ErrorNote);
        ws.Close();
        return BuildThrew;
      case Failed(errors) =>
        ws.Send(CompileError(errors));
        ws.Close();
        return BuildFailed(errors);
      case Succeeded =>
    }
    match c.execution {
      case Artifact(code, output) =>
        ws.Send(Completed(code, false));
        if output != [] {
          ws.Send(Output(Posix.Stdout, output));
        }
        ws.Close();
        return CompileOnly(code, output);
      case Child(spawns) =>
        if !spawns {
          ws.Send(ErrorNote);
          ws.Close();
          return SpawnFailed;
        }
        ws.Send(Started);
        return Spawned;
    }
  }

  /** At most one terminal message, and it is the last. */
  predicate EndsWithVerdict(t: seq<Message>) {
    forall i :: 0 <= i < |t| - 1 ==> !Terminal(t[i])
  }

  /** Every branch but one keeps the promise of a terminal message at the end; a compile-only
      build with output breaks it, by sending the output after `completed`. */
  lemma VerdictLastUnlessCompileOnly(b: Branch)
    ensures EndsWithVerdict(Trace(b)) <==> !(b.CompileOnly? && b.output != [])
  {
    var t := Trace(b);
    if b.CompileOnly? && b.output != [] {
      assert Terminal(t[1]) && |t| == 3;
    }
  }

  /** All that the engine can ever have sent on one connection. */
  ghost predicate EngineTrace(b: Branch, t: seq<Message>) {
    if b.Spawned? then exists orphans: bool, s: State, n: nat :: Runs(orphans, s, n) && t == s.sent
    else t <= Trace(b)
  }

  lemma EngineEndsWithVerdict(b: Branch, t: seq<Message>)
    requires EngineTrace(b, t) && !(b.CompileOnly? && b.output != [])
    ensures EndsWithVerdict(t)
  {
    if b.Spawned? {
      var orphans: bool, s: State, n: nat :| Runs(orphans, s, n) && t == s.sent;
      RunEndsWithVerdict(orphans, s, n);
    } else {
      VerdictLastUnlessCompileOnly(b);
      hide Trace, Runs, Terminal;
      assert forall i :: 0 <= i < |t| ==> t[i] == Trace(b)[i];
    }
  }

  lemma RunEndsWithVerdict(orphans: bool, s: State, n: nat)
    requires Runs(orphans, s, n)
    ensures EndsWithVerdict(s.sent)
  {
    hide Runs;
    TraceGrammar(orphans, s, n);
  }
}
