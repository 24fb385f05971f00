/** The gateway's loops as methods (module Gateway) and as steps (modules Relay, BatchChannel)
    are the same loops; and what that says about the bill. */
module Charging {
  import opened Bytes
  import opened Posix
  import Engine = EngineSession
  import Relay
  import Gateway
  import BatchChannel
  import EndToEnd
  import TaskProtocol

  /** The `status` of an update as the gateway sees it. */
  function StatusOf(u: Relay.Update): Gateway.Status {
    match u
    case Done => Gateway.Completed
    case Failure => Gateway.Error
    case Forwarded(m) =>
      (match m
       case Completed(_, _) => Gateway.Completed
       case CompileError(_) => Gateway.CompileError
       case Timeout(_) => Gateway.Timeout
       case ErrorNote => Gateway.Error
       case _ => Gateway.Progress)
    case _ => Gateway.Progress
  }

  /** The stream that Gateway's methods read is what the channel carries. */
  predicate Carries(stream: seq<Gateway.Update>, us: seq<Relay.Update>) {
    |stream| == |us| && forall i :: 0 <= i < |us| ==> stream[i].status == StatusOf(us[i])
  }

  lemma FinalMeansEnds(u: Relay.Update)
    ensures Relay.Final(u) <==> Gateway.Ends(StatusOf(u), true)
    ensures !u.Forwarded? ==> (Relay.Final(u) <==> Gateway.Ends(StatusOf(u), false))
  {
  }

  /** What the two agree on: how far the loop reads and how much the client gets. */
  lemma LoopsAgree(up: Relay.Up, stream: seq<Gateway.Update>, interactive: bool)
    requires Relay.UpInv(up) && up.gateway.Closed? && up.client != [] && Carries(stream, up.published)
    requires !interactive ==> forall u :: u in up.published ==> !u.Forwarded?
    ensures var k: nat := |up.client| - 1;
            && k == Gateway.Min(Gateway.ReadUntil(stream, interactive), k)
            && (!up.gone ==> k == Gateway.ReadUntil(stream, interactive) && Gateway.EndedAt(stream, k, interactive))
  {
    hide Relay.Final, StatusOf;
    Relay.ClientShows(up);
    hide Relay.UpInv;
    var k: nat, us := |up.client| - 1, up.published;
    forall i | 0 <= i < k
      ensures Gateway.Ends(stream[i].status, interactive) <==> Relay.Final(us[i])
    {
      FinalMeansEnds(us[i]);
      assert us[i] in us;
    }
    if k == |us| || (k > 0 && Relay.Final(us[k - 1])) {
      Gateway.ReadIs(stream, interactive, k);
    } else {
      Gateway.ReadsOn(stream, interactive, k);
    }
  }

  /** Batch: the loop of `ServeBatch`, over what the channel carries, ends after the last update
      and not before; so a client that stays is charged. */
  lemma BatchLoopEnds(c: BatchChannel.Course, n: nat, stream: seq<Gateway.Update>)
    requires BatchChannel.Arises(c, n) && TaskProtocol.EndsOnce(c.statuses) && Carries(stream, c.up.published)
    ensures Gateway.ReadUntil(stream, false) == |stream| && Gateway.EndedAt(stream, |stream|, false)
    ensures c.up.gateway.Closed? && !c.up.gone ==> |c.up.client| == 1 + |stream|
  {
    hide BatchChannel.Arises, Relay.Final, StatusOf, Relay.UpInv, BatchChannel.Published, TaskProtocol.EndsOnce;
    BatchChannel.ArisesInv(c, n);
    BatchChannel.EndsOnceMeans(c.statuses);
    NeverForwarded(c.statuses);
    var us := c.up.published;
    forall i | 0 <= i < |us|
      ensures Gateway.Ends(stream[i].status, false) <==> Relay.Final(us[i])
    {
      FinalMeansEnds(us[i]);
    }
    Gateway.ReadIs(stream, false, |stream|);
    if c.up.gateway.Closed? && !c.up.gone {
      ClosedHasClient(c.up);
      LoopsAgree(c.up, stream, false);
    }
  }

  lemma NeverForwarded(ss: seq<TaskProtocol.Status>)
    ensures forall u :: u in BatchChannel.AllPublished(ss) ==> !u.Forwarded?
  {
  }

  lemma ClosedHasClient(up: Relay.Up)
    requires Relay.UpInv(up) && up.gateway.Closed? && !up.gone
    ensures up.client != []
  {
  }

  /** Interactive: whoever is charged has had a program that ended by itself.  The last update
      that `ServeInteractive` reads is then the engine's own `completed`, and it is true -- even
      for a client that had gone before it could be sent. */
  lemma ChargedMeansCompleted(e: Engine.State, n: nat, r: Relay.State, m: nat, stream: seq<Gateway.Update>)
    requires Engine.Runs(false, e, n) && Relay.Reachable(r, m) && r.mid.podOut <= e.sent
    requires r.up.gateway.Closed? && r.up.client != [] && Carries(stream, r.up.published)
    requires Gateway.ChargesFor(stream, |r.up.client| - 1)
    ensures Engine.HasVerdict(e.sent) && Engine.Verdict(e.life).Completed?
    ensures e.life.p.os.child.Reaped? && e.life.p.os.kills == []
  {
    hide Engine.Runs, Relay.Reachable, Engine.HasVerdict, Engine.Verdict, Relay.Forwards;
    Relay.ReachableInv(r, m);
    var us := r.up.published;
    var read := Gateway.Min(Gateway.ReadUntil(stream, true), |r.up.client|);
    var u := us[read - 1];
    assert u in us && u.Forwarded? && u.message.Completed?;
    ForwardedIsIn(us, read - 1);
    hide Relay.UpInv, Relay.LoopInv, Relay.PodInv, Relay.EarlyInv, Relay.OutInv;
    Relay.RelayedPrefix(us, r.mid);
    var j :| 0 <= j < |Relay.Forwards(us)| && Relay.Forwards(us)[j] == u.message;
    assert e.sent[j] == u.message;
    EndToEnd.VerdictComesLast(e, n, u.message);
    Engine.VerdictIsTrue(false, e, n);
    EndToEnd.VerdictOfRun(e, n);
  }

  lemma {:induction false} ForwardedIsIn(us: seq<Relay.Update>, k: nat)
    requires k < |us| && us[k].Forwarded?
    ensures us[k].message in Relay.Forwards(us)
    decreases |us|
  {
    if k < |us| - 1 {
      ForwardedIsIn(us[..|us| - 1], k);
    }
  }

  /** The worker of module Relay publishes for itself exactly what module Worker proves of
      `handle_interactive_task`. */
  lemma HandlersAgree(r: Relay.State, m: nat)
    requires Relay.Reachable(r, m) && r.mid.worker.Finished?
    ensures exists ss :: TaskProtocol.HandlerStatuses(ss) && r.mid.own == BatchChannel.AllPublished(ss)
  {
    Relay.ReachableOwnInv(r, m);
    var ss: seq<TaskProtocol.Status> :=
      if r.mid.own == [Relay.Failure] then [TaskProtocol.Error]
      else if r.mid.own == [Relay.Provisioning] then [TaskProtocol.Provisioning]
      else [TaskProtocol.Provisioning, TaskProtocol.Error];
    assert BatchChannel.AllPublished(ss) == r.mid.own;
  }
}
