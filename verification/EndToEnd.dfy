/** From the child's pipes to the client's screen and back: the engine's session and the relay
    put together.  What the relay has from the pod is a prefix of what the engine has sent, and
    what the engine has received is a prefix of what the relay has sent. */
module EndToEnd {
  import opened Bytes
  import opened Posix
  import ProcessLife
  import Engine = EngineSession
  import Dialogue
  import Handler = EngineHandler
  import Relay

  /** The pod's messages that have reached the client. */
  function Seen(r: Relay.State): seq<Engine.Message> { Relay.Forwards(Relay.Updates(r.up.client)) }

  predicate ClientSaw(r: Relay.State, m: Engine.Message) { Relay.Passed(Relay.Forwarded(m)) in r.up.client }

  lemma {:induction false} SawMeansSeen(client: seq<Relay.Reply>, m: Engine.Message)
    requires Relay.Passed(Relay.Forwarded(m)) in client
    ensures m in Relay.Forwards(Relay.Updates(client))
    decreases |client|
  {
    var before, last := client[..|client| - 1], client[|client| - 1];
    if last == Relay.Passed(Relay.Forwarded(m)) {
      Relay.ForwardsMore(Relay.Updates(before), Relay.Forwarded(m));
    } else {
      var i :| 0 <= i < |client| && client[i] == Relay.Passed(Relay.Forwarded(m));
      assert before[i] == client[i];
      SawMeansSeen(before, m);
      if last.Passed? {
        Relay.ForwardsMore(Relay.Updates(before), last.update);
      } else {
        assert Relay.Updates(client) == Relay.Updates(before) + [] == Relay.Updates(before);
      }
    }
  }

  lemma {:induction false} OutOfPrefix(t: seq<Engine.Message>, k: nat, src: Source)
    requires k <= |t|
    ensures Engine.OutOf(t[..k], src) <= Engine.OutOf(t, src)
    decreases |t|
  {
    if k < |t| {
      var shorter := t[..|t| - 1];
      OutOfPrefix(shorter, k, src);
      assert shorter[..k] == t[..k];
    } else {
      assert t[..k] == t;
    }
  }

  /** At every moment, the output the client has received is a prefix of what the child has
      written, stream by stream. */
  lemma OutputNeverWrong(orphans: bool, e: Engine.State, n: nat, r: Relay.State, m: nat, src: Source)
    requires Engine.Runs(orphans, e, n) && Relay.Reachable(r, m) && r.mid.podOut <= e.sent
    ensures Engine.OutOf(Seen(r), src) <= ProcessLife.Written(e.life, src)
  {
    Relay.ClientSeesPodOutput(r, m);
    Engine.OutputIsWhatWasWritten(orphans, e, n, src);
    hide *;
    var seen := Seen(r);
    assert seen == e.sent[..|seen|];
    OutOfPrefix(e.sent, |seen|, src);
  }

  /** The client that sees `completed` (or `timeout`) has received the child's whole output, byte
      for byte and in order, together with the engine's whole trace -- across pipe, egress
      thread, relay and gateway.  The one premise is that no descendant of the child outlives
      it with the pipes open. */
  lemma OutputEndToEnd(e: Engine.State, n: nat, r: Relay.State, m: nat, v: Engine.Message,
        src: Source)
    requires Engine.Runs(false, e, n) && Relay.Reachable(r, m) && r.mid.podOut <= e.sent
    requires (v.Completed? || v.Timeout?) && ClientSaw(r, v)
    ensures Seen(r) == e.sent
    ensures Engine.OutOf(Seen(r), src) == ProcessLife.Written(e.life, src)
    ensures v == Engine.Verdict(e.life)
  {
    hide Engine.Runs, Relay.Reachable, Relay.Updates, Relay.Forwards, Engine.OutOf, Engine.HasVerdict, Engine.Verdict,
         ProcessLife.Written;
    Relay.ClientSeesPodOutput(r, m);
    SawMeansSeen(r.up.client, v);
    Engine.OutputIsWhatWasWritten(false, e, n, src);
    VerdictComesLast(e, n, v);
    var seen := Seen(r);
    assert seen <= e.sent;
    var j :| 0 <= j < |seen| && seen[j] == v;
    assert e.sent[j] == v;
  }

  /** The same from the other side, for any client that stayed until the gateway closed: it holds
      the engine's whole trace, and with it the child's whole output, unless what ended the
      session was the `error` of a relay or a worker. */
  lemma OutputArrives(e: Engine.State, n: nat, r: Relay.State, m: nat, src: Source)
    requires Engine.Runs(false, e, n) && Relay.Reachable(r, m) && r.mid.podOut <= e.sent
    requires r.up.gateway.Closed? && !r.up.gone
    ensures Relay.Passed(Relay.Failure) !in r.up.client <==> Seen(r) == e.sent && Engine.HasVerdict(e.sent)
    ensures Relay.Passed(Relay.Failure) !in r.up.client ==>
              Engine.OutOf(Seen(r), src) == ProcessLife.Written(e.life, src)
  {
    HowItEnded(r, m);
    Relay.ClientSeesPodOutput(r, m);
    TerminalComesLast(e, n);
    Engine.OutputIsWhatWasWritten(false, e, n, src);
    hide Engine.Runs, Relay.Reachable, Relay.Updates, Relay.Forwards, Engine.OutOf, ProcessLife.Written,
         Engine.Terminal;
    var seen := Seen(r);
    assert seen <= e.sent;
    if Relay.Passed(Relay.Failure) !in r.up.client {
      assert e.sent[|seen| - 1] == seen[|seen| - 1];
    }
  }

  /** The last thing that such a client receives is a terminal message of the pod or an `error`. */
  lemma HowItEnded(r: Relay.State, m: nat)
    requires Relay.Reachable(r, m) && r.up.gateway.Closed? && !r.up.gone
    ensures var seen := Seen(r);
            if Relay.Passed(Relay.Failure) in r.up.client then forall i :: 0 <= i < |seen| ==> !Engine.Terminal(seen[i])
            else |seen| > 0 && Engine.Terminal(seen[|seen| - 1])
  {
    Relay.ReachableInv(r, m);
    Relay.ClientShows(r.up);
    hide Relay.Reachable, Relay.LoopInv, Relay.PodInv, Relay.EarlyInv, Relay.UpInv, Relay.Updates, Relay.Shows,
         Relay.Forwards, Relay.Final;
    var client, k: nat := r.up.client, |r.up.client| - 1;
    Relay.ShowsUpdates(client, r.up.published, k);
    FailureComesLast(client, r.up.published, k);
    EndOfForwards(r.up.published[..k]);
  }

  lemma FailureComesLast(client: seq<Relay.Reply>, updates: seq<Relay.Update>, k: nat)
    requires Relay.Shows(client, updates, k) && k > 0 && Relay.NoFinal(updates, k - 1)
    ensures Relay.Passed(Relay.Failure) in client <==> updates[k - 1].Failure?
  {
    assert client[k] == Relay.Passed(updates[k - 1]);
    if Relay.Passed(Relay.Failure) in client {
      var i :| 0 <= i <= k && client[i] == Relay.Passed(Relay.Failure);
      assert i > 0 && Relay.Final(updates[i - 1]);
    }
  }

  lemma EndOfForwards(us: seq<Relay.Update>)
    requires |us| > 0 && Relay.NoFinal(us, |us| - 1) && Relay.Final(us[|us| - 1]) && Relay.Done !in us
    ensures var seen := Relay.Forwards(us);
            if us[|us| - 1].Failure? then forall i :: 0 <= i < |seen| ==> !Engine.Terminal(seen[i])
            else |seen| > 0 && Engine.Terminal(seen[|seen| - 1])
  {
    NoTerminalForwarded(us[..|us| - 1]);
  }

  lemma TerminalComesLast(e: Engine.State, n: nat)
    requires Engine.Runs(false, e, n)
    ensures forall i :: 0 <= i < |e.sent| && Engine.Terminal(e.sent[i]) ==> i == |e.sent| - 1
  {
    Engine.TraceGrammar(false, e, n);
    hide Engine.Runs;
  }

  lemma VerdictComesLast(e: Engine.State, n: nat, v: Engine.Message)
    requires Engine.Runs(false, e, n) && (v.Completed? || v.Timeout?)
    ensures forall j :: 0 <= j < |e.sent| && e.sent[j] == v ==> j == |e.sent| - 1
    ensures v in e.sent ==> Engine.HasVerdict(e.sent) && v == Engine.Verdict(e.life)
  {
    hide Engine.Runs, Engine.Verdict, Engine.HasVerdict, Engine.Terminal;
    Engine.TraceGrammar(false, e, n);
    VerdictOfRun(e, n);
    var t := e.sent;
    forall j | 0 <= j < |t| && t[j] == v
      ensures j == |t| - 1
    {
      assert !t[j].Output? && !t[j].Compiling? && !t[j].Started?;
    }
    if v in t {
      assert t[|t| - 1] == v;
      assert Engine.HasVerdict(t) by {
        LastIsVerdict(t);
      }
    }
  }

  lemma LastIsVerdict(t: seq<Engine.Message>)
    requires |t| > 0 && (t[|t| - 1].Completed? || t[|t| - 1].Timeout?)
    ensures Engine.HasVerdict(t)
  {
  }

  lemma VerdictOfRun(e: Engine.State, n: nat)
    requires Engine.Runs(false, e, n)
    ensures Engine.HasVerdict(e.sent) ==> e.sent[|e.sent| - 1] == Engine.Verdict(e.life)
  {
    Engine.RunsSInv(false, e, n);
    hide Engine.Runs, Engine.HandlerInv, Engine.OutputInv, Engine.DrainInv, Engine.InputInv, Engine.FlagInv,
         Engine.TraceInv, Engine.Verdict;
  }

  /** For a compile-only build the same client gets nothing: `completed` comes first, and the
      relay stops listening to the pod.  It holds the exact output only if there is none. */
  lemma CompileOnlyOutputLost(code: int, output: Data, r: Relay.State, m: nat)
    requires Relay.Reachable(r, m) && r.mid.podOut <= Handler.Trace(Handler.CompileOnly(code, output))
    requires ClientSaw(r, Engine.Completed(code, false))
    ensures Seen(r) == [Engine.Compiling, Engine.Completed(code, false)]
    ensures Engine.OutOf(Seen(r), Stdout) == output <==> output == []
  {
    var c := Engine.Completed(code, false);
    SawMeansSeen(r.up.client, c);
    Relay.ClientSeesPodOutput(r, m);
    StopsAtCompleted(r, m, c);
    var seen := Seen(r);
    hide Relay.Reachable, Seen, Relay.Forwards, Relay.Updates;
    var trace := Handler.Trace(Handler.CompileOnly(code, output));
    assert trace[0] == Engine.Compiling && trace[1] == c;
    assert seen <= trace;
    assert |seen| == 2;
    assert seen == [Engine.Compiling, c];
    CompileOnlyCarriesNothing(c);
  }

  lemma CompileOnlyCarriesNothing(c: Engine.Message)
    requires c.Completed?
    ensures Engine.OutOf([Engine.Compiling, c], Stdout) == []
  {
    assert [Engine.Compiling, c][..1] == [Engine.Compiling];
    assert Engine.OutOf([Engine.Compiling], Stdout) == [];
  }

  lemma {:induction false} NoTerminalForwarded(us: seq<Relay.Update>)
    requires Relay.NoFinal(us, |us|)
    ensures forall i :: 0 <= i < |Relay.Forwards(us)| ==> !Engine.Terminal(Relay.Forwards(us)[i])
    decreases |us|
  {
    if |us| > 0 {
      NoTerminalForwarded(us[..|us| - 1]);
      assert !Relay.Final(us[|us| - 1]);
    }
  }

  lemma TerminalForwardedLast(us: seq<Relay.Update>)
    requires Relay.NoFinal(us, |us| - 1)
    ensures forall i :: 0 <= i < |Relay.Forwards(us)| - 1 ==> !Engine.Terminal(Relay.Forwards(us)[i])
  {
    if |us| > 0 {
      NoTerminalForwarded(us[..|us| - 1]);
    }
  }

  /** Nothing of the pod follows a `completed` to the client. */
  lemma StopsAtCompleted(r: Relay.State, m: nat, c: Engine.Message)
    requires Relay.Reachable(r, m) && c.Completed?
    ensures forall i :: 0 <= i < |Seen(r)| && Seen(r)[i] == c ==> i == |Seen(r)| - 1
  {
    Relay.ReachableInv(r, m);
    hide Relay.Reachable, Relay.OutInv, Relay.LoopInv, Relay.PodInv, Relay.EarlyInv, Relay.Final, Relay.Forwards,
         Relay.Updates;
    var client, us := r.up.client, Relay.Updates(r.up.client);
    if client == [] {
      Relay.NothingUpdated();
    } else {
      Relay.ClientShows(r.up);
      hide Relay.UpInv;
      Relay.ShowsUpdates(client, r.up.published, |client| - 1);
    }
    TerminalForwardedLast(us);
  }

  // ---------- stdin ----------

  /** The text that the engine writes for a line the client types, if it is a line. */
  predicate IsLine(t: Relay.Typed, data: Data) {
    match t
    case Raw(text) => data == text + [Engine.NEWLINE]
    case Keyed(m) => m.Object? && m.stdinData == Engine.Is(data)
    case _ => false
  }

  /** A client that waits for `executing` and then types: the program gets the first line and
      end of file, whatever is typed later. */
  lemma FirstLineIsAllTheInput(orphans: bool, e: Engine.State, n: nat, r: Relay.State,
        m: nat, data: Data)
    requires Engine.Runs(orphans, e, n) && Relay.Reachable(r, m) && e.received <= r.down.podIn
    requires r.down.early == 0 && |r.down.typed| > 0 && IsLine(r.down.typed[0], data)
    ensures e.life.p.os.input == [] || e.life.p.os.input == data
  {
    Relay.StdinInOrder(r, m);
    var typed := r.down.typed;
    assert typed[..0] == [] && Relay.Translated([]) == [];
    FirstTranslated(typed);
    LineTranslates(typed[0], data);
    hide Relay.Reachable, Relay.Translated, IsLine, Relay.Translate;
    assert e.received <= Relay.Translated(typed)[0..] == Relay.Translated(typed);
    if e.received == [] {
      NothingReceived(orphans, e, n);
    } else {
      assert e.received[0] == Relay.Translated(typed)[0];
      Engine.FirstInputIsAll(orphans, e, n);
    }
  }

  /** And when all of it arrives.  A client that waits for `executing` and then types, a session
      in which everything has come through and every write has been taken: the program has read
      all the typed data, in order, if and only if none of it follows a close of stdin -- and each
      line typed brings a close with it. */
  lemma TypedInputArrives(orphans: bool, e: Engine.State, n: nat, r: Relay.State, m: nat)
    requires Engine.Runs(orphans, e, n) && Relay.Reachable(r, m) && r.down.early == 0
    requires Relay.Settled(r.down) && r.mid.worker.Waiting? && !r.mid.completed && !r.mid.podClosed
    requires !r.up.gateway.Closing? && !r.up.gateway.Closed?
    requires e.received == r.down.podIn && Engine.Left(e.ingress) == [] && Engine.AllWritten(e.performed)
    ensures var ops := Engine.AllOps(Relay.Translated(r.down.typed));
            e.life.p.os.input == Engine.AllData(ops) <==> !Engine.FeedAfterShut(ops)
  {
    hide Engine.Runs, Relay.Reachable, Engine.AllOps, Engine.AllData, Engine.FeedAfterShut, Engine.AllWritten,
         Relay.Settled;
    Relay.StdinInOrder(r, m);
    Relay.StdinDelivered(r, m);
    NothingTranslated(r.down.typed);
    hide Relay.Translated;
    Engine.MessagesArriveWhole(orphans, e, n);
  }

  /** A client that hangs up (and has not sent a scalar before) leaves no program waiting for input:
      once everything has come through, the child's stdin is closed. */
  lemma HangUpEndsInput(orphans: bool, e: Engine.State, n: nat, r: Relay.State, m: nat, k: nat)
    requires Engine.Runs(orphans, e, n) && Relay.Reachable(r, m) && r.down.early == 0
    requires Relay.Settled(r.down) && r.mid.worker.Waiting? && !r.mid.completed && !r.mid.podClosed
    requires !r.up.gateway.Closing? && !r.up.gateway.Closed?
    requires e.received == r.down.podIn && e.ingress.Test?
    requires k < |r.down.typed| && r.down.typed[k].Hangup?
    requires forall i :: 0 <= i < k ==> !r.down.typed[i].Scalar? && !r.down.typed[i].Hangup?
    ensures e.life.p.stdin.writeEnd < 0
  {
    hide Engine.Runs, Relay.Reachable, Relay.Settled;
    Relay.StdinInOrder(r, m);
    Relay.StdinDelivered(r, m);
    NothingTranslated(r.down.typed);
    Relay.EachIsTranslated(r.down.typed, k);
    hide Relay.Translated;
    Dialogue.InputEndsOnRequest(orphans, e, n);
    var i :| 0 <= i < |e.received| && Relay.StandsFor(r.down.typed[k], e.received[i]);
    assert Dialogue.AsksToClose(e.received[i]);
  }

  lemma NothingTranslated(typed: seq<Relay.Typed>)
    ensures Relay.Translated(typed[..0]) == []
  {
  }

  lemma {:induction false} FirstTranslated(typed: seq<Relay.Typed>)
    requires |typed| > 0
    ensures Relay.Translate(typed[0]) <= Relay.Translated(typed)
    decreases |typed|
  {
    if |typed| > 1 {
      FirstTranslated(typed[..|typed| - 1]);
    } else {
      assert typed[..0] == [];
    }
  }

  lemma LineTranslates(t: Relay.Typed, data: Data)
    requires IsLine(t, data)
    ensures |Relay.Translate(t)| == 1 && Relay.Translate(t)[0].Object?
    ensures Relay.Translate(t)[0].stdinData == Engine.Is(data)
  {
  }

  lemma NothingReceived(orphans: bool, e: Engine.State, n: nat)
    requires Engine.Runs(orphans, e, n) && e.received == []
    ensures e.life.p.os.input == []
  {
    Engine.InputIsWhatWasSent(orphans, e, n);
    hide Engine.Runs;
    assert Engine.AllOps(e.received) == [];
    assert |Engine.Firsts(e.performed)| == |e.performed|;
  }
}
