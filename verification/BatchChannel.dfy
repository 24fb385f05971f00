/** One batch task between the worker and the client: the same gateway and status channel as in
    module Relay, with a worker that publishes its statuses itself. */
module BatchChannel {
  import opened Relay
  import Runs
  import TaskProtocol

  /** The gateway's side, and all that the worker has published. */
  datatype Course = Course(up: Up, statuses: seq<TaskProtocol.Status>)

  datatype Move = GatewayMoves(sent: bool) | WorkerPublishes(status: TaskProtocol.Status)

  const AT_START := Course(START.up, [])

  function Published(s: TaskProtocol.Status): Update {
    match s
    case Provisioning => Relay.Provisioning
    case Executing => Relay.Executing
    case Completed => Done
    case Error => Failure
  }

  function AllPublished(ss: seq<TaskProtocol.Status>): seq<Update> {
    seq(|ss|, i requires 0 <= i < |ss| => Published(ss[i]))
  }

  /** The worker learns of a task only when it has been pushed. */
  predicate MayMove(c: Course, m: Move) {
    match m
    case GatewayMoves(_) => GatewayCan(c.up)
    case WorkerPublishes(_) => c.up.pushed
  }

  function AfterMove(c: Course, m: Move): Course
    requires MayMove(c, m)
  {
    match m
    case GatewayMoves(sent) => c.(up := GatewayDoes(c.up, sent))
    case WorkerPublishes(status) => Course(Publish(c.up, [Published(status)]), c.statuses + [status])
  }

  ghost predicate Moves(before: Course, m: Move, after: Course) { MayMove(before, m) && after == AfterMove(before, m) }

  ghost predicate Arises(c: Course, n: nat) { Runs.LeadsTo(Moves, AT_START, c, n) }

  predicate CourseInv(c: Course) { UpInv(c.up) && c.up.published == AllPublished(c.statuses) }

  lemma MoveKeepsInv(c: Course, m: Move)
    requires CourseInv(c) && MayMove(c, m)
    ensures CourseInv(AfterMove(c, m))
  {
    match m {
      case GatewayMoves(sent) =>
        GatewayKeepsUp(c.up, sent);
        GatewayPublishesNothing(c.up, sent);
      case WorkerPublishes(status) =>
        PublishKeepsUp(c.up, [Published(status)]);
        assert AllPublished(c.statuses + [status]) == AllPublished(c.statuses) + [Published(status)];
    }
  }

  lemma {:induction false} ArisesInv(c: Course, n: nat)
    requires Arises(c, n)
    ensures CourseInv(c)
    decreases n
  {
    hide CourseInv, MayMove, AfterMove;
    if n == 0 {
      Runs.NoStep(Moves, AT_START, c);
      StartCourseInv();
    } else {
      var before, m := Runs.LastStep(Moves, AT_START, c, n);
      ArisesInv(before, n - 1);
      MoveKeepsInv(before, m);
    }
  }

  lemma StartCourseInv()
    ensures CourseInv(AT_START)
  {
  }

  /** The worker's terminal statuses are the gateway's final updates. */
  lemma EndsOnceMeans(ss: seq<TaskProtocol.Status>)
    requires TaskProtocol.EndsOnce(ss)
    ensures var us := AllPublished(ss); |us| > 0 && NoFinal(us, |us| - 1) && Final(us[|us| - 1])
  {
    var us := AllPublished(ss);
    forall i | 0 <= i < |us| - 1
      ensures !Final(us[i])
    {
      assert !TaskProtocol.Terminal(ss[i]);
    }
  }

  /** A batch task whose worker has published what module Worker proves it does -- one terminal
      status, as its last message: the gateway has either handed all of it to the client and
      ended its loop on that status, or lost the client, or still has something to read. */
  lemma BatchDelivered(c: Course, n: nat)
    requires Arises(c, n) && TaskProtocol.EndsOnce(c.statuses)
    ensures Updates(c.up.client) <= AllPublished(c.statuses)
    ensures c.up.gateway.Closed? && !c.up.gone ==> Updates(c.up.client) == AllPublished(c.statuses)
    ensures c.up.gateway.Forwarding? ==> GatewayCan(c.up)
  {
    hide Arises, Final, Updates;
    ArisesInv(c, n);
    EndsOnceMeans(c.statuses);
    var client, us := c.up.client, c.up.published;
    if client == [] {
      NothingUpdated();
    } else {
      ClientShows(c.up);
      var k: nat := |client| - 1;
      ShowsUpdates(client, us, k);
      hide UpInv;
      if c.up.gateway.Closed? && !c.up.gone {
        assert k == |us|;
      }
    }
  }
}
