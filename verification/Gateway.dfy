/** The gateway's `/ws/execute` handler from the queue message to the bill: which updates the
    client gets, and when its tenant is charged. */
module Gateway {
  import opened Billing

  /** The `status` of an update, as far as the gateway looks at it. */
  datatype Status = Completed | CompileError | Timeout | Error | Progress

  datatype Update = Update(status: Status, executionTimeMs: real)    // 500.0 when the message has none

  datatype Reply = Queued | ExecutingLocally | LocalResult | LocalFailure | Passed(update: Update)

  /** The client's WebSocket; it takes `patience` more messages before it disconnects. */
  class Client {
    var received: seq<Reply>
    var patience: nat

    constructor (patience: nat)
      ensures received == [] && this.patience == patience
    {
      received, this.patience := [], patience;
    }

    /** `send_json`; `ok` is false when it raises. */
    method Send(r: Reply) returns (ok: bool)
      modifies this
      ensures ok <==> old(patience) > 0
      ensures ok ==> received == old(received) + [r] && patience == old(patience) - 1
      ensures !ok ==> received == old(received) && patience == old(patience)
    {
      ok := patience > 0;
      if ok {
        received := received + [r];
        patience := patience - 1;
      }
    }
  }

  // ---------- how far a forwarding loop reads ----------

  /** The statuses that end the interactive loop, and those that end the batch loop. */
  predicate Ends(s: Status, interactive: bool) {
    if interactive then s != Progress else s == Completed || s == Error
  }

  /** The number of updates read: up to and including the first that ends the loop. */
  function ReadUntil(stream: seq<Update>, interactive: bool): (n: nat)
    ensures n <= |stream|
    ensures forall i :: 0 <= i < n - 1 ==> !Ends(stream[i].status, interactive)
    ensures n < |stream| ==> EndedAt(stream, n, interactive)
    ensures forall i :: 0 <= i < n - 1 ==> !(stream[i].status == Completed || stream[i].status == Error)
    ensures interactive ==> forall i :: 0 <= i < n - 1 ==> stream[i].status == Progress
    ensures n < |stream| ==>
              && n > 0
              && var last := stream[n - 1].status;
                 last == Completed || last == Error || (interactive && last != Progress)
  {
    if |stream| == 0 then 0
    else
      var before := stream[..|stream| - 1];
      var n := ReadUntil(before, interactive);
      if EndedAt(before, n, interactive) then n else |stream|
  }

  predicate EndedAt(stream: seq<Update>, n: nat, interactive: bool) {
    0 < n <= |stream| && Ends(stream[n - 1].status, interactive)
  }

  /** The two ways a loop meets the number: it has just read an update that ends it, or has
      read them all. */
  lemma ReadIs(stream: seq<Update>, interactive: bool, n: nat)
    requires n <= |stream| && forall i :: 0 <= i < n - 1 ==> !Ends(stream[i].status, interactive)
    requires n == |stream| || EndedAt(stream, n, interactive)
    ensures ReadUntil(stream, interactive) == n
  {
    var r := ReadUntil(stream, interactive);
    assert r == |stream| || EndedAt(stream, r, interactive);
  }

  /** As long as nothing has ended it, it reads on. */
  lemma ReadsOn(stream: seq<Update>, interactive: bool, n: nat)
    requires n < |stream| && forall i :: 0 <= i < n ==> !Ends(stream[i].status, interactive)
    ensures ReadUntil(stream, interactive) > n
  {
    var r := ReadUntil(stream, interactive);
    assert r == |stream| || EndedAt(stream, r, interactive);
  }

  function PassAll(us: seq<Update>): seq<Reply> { seq(|us|, i requires 0 <= i < |us| => Passed(us[i])) }

  function Min(x: nat, y: nat): nat { if x < y then x else y }

  // ---------- the three branches ----------

  /** Batch mode.  `stream` is all that the subscription delivers.  The client is charged when
      it has been sent the update that ends the loop -- an `error` as well as a `completed`. */
  method ServeBatch(d: Database, c: Client, b: Bill, stream: seq<Update>) returns (charged: bool)
    requires d.Valid()
    modifies d, c
    ensures d.Valid()
    ensures var n := ReadUntil(stream, false);
            && c.received == old(c.received) + PassAll(stream[..Min(n, old(c.patience))])
            && (charged <==> n <= old(c.patience) && EndedAt(stream, n, false))
            && (charged ==> d.asked == old(d.asked) + [b.(ms := stream[n - 1].executionTimeMs)])
    ensures !charged ==> d.asked == old(d.asked)
  {
    hide ReadUntil, Committed, DeductAll;
    charged := false;
    for i := 0 to |stream|
      invariant !charged && d.Valid() && d.asked == old(d.asked)
      invariant c.received == old(c.received) + PassAll(stream[..i]) && c.patience == old(c.patience) - i
      invariant forall j :: 0 <= j < i ==> !Ends(stream[j].status, false)
    {
      ReadsOn(stream, false, i);
      var ok := c.Send(Passed(stream[i]));
      if !ok {
        return;
      }
      assert PassAll(stream[..i + 1]) == PassAll(stream[..i]) + [Passed(stream[i])];
      if Ends(stream[i].status, false) {
        ReadIs(stream, false, i + 1);
        d.DeductCredits(b.(ms := stream[i].executionTimeMs));
        return true;
      }
    }
    ReadIs(stream, false, |stream|);
    assert stream[..|stream|] == stream;
  }

  /** The last update that the interactive loop reads, with a client that takes `patience` of
      them, is a `completed`. */
  predicate ChargesFor(stream: seq<Update>, patience: nat) {
    var read := Min(ReadUntil(stream, true), patience + 1);
    read > 0 && stream[read - 1].status == Completed
  }

  /** Interactive mode: `last_update` is set before the update is sent, and after the loop the
      client is charged if and only if the last update read is a `completed` -- even when
      it could not be sent. */
  method ServeInteractive(d: Database, c: Client, b: Bill, stream: seq<Update>) returns (charged: bool)
    requires d.Valid()
    modifies d, c
    ensures d.Valid()
    ensures var n := ReadUntil(stream, true);
            var read := Min(n, old(c.patience) + 1);
            && c.received == old(c.received) + PassAll(stream[..Min(n, old(c.patience))])
            && (charged <==> ChargesFor(stream, old(c.patience)))
            && (charged ==> d.asked == old(d.asked) + [b.(ms := stream[read - 1].executionTimeMs)])
    ensures !charged ==> d.asked == old(d.asked)
  {
    hide ReadUntil, Committed, DeductAll;
    charged := false;
    var read := 0;
    while read < |stream|
      invariant read <= |stream| && read <= old(c.patience) && d.Valid() && d.asked == old(d.asked)
      invariant c.received == old(c.received) + PassAll(stream[..read]) && c.patience == old(c.patience) - read
      invariant forall j :: 0 <= j < read ==> !Ends(stream[j].status, true)
    {
      ReadsOn(stream, true, read);
      var lastUpdate := stream[read];
      read := read + 1;
      var ok := c.Send(Passed(lastUpdate));
      assert PassAll(stream[..read]) == PassAll(stream[..read - 1]) + [Passed(lastUpdate)];
      if Ends(lastUpdate.status, true) {
        ReadIs(stream, true, read);
      }
      if !ok || Ends(lastUpdate.status, true) {
        if lastUpdate.status == Completed {
          charged := true;
          d.DeductCredits(b.(ms := lastUpdate.executionTimeMs));
        }
        return;
      }
    }
    ReadIs(stream, true, |stream|);
    assert stream[..|stream|] == stream;
  }

  /** Lightweight batch payloads run in the gateway itself.  A failed run is charged as well,
      for no time; a client that cannot be sent the result is not charged at all. */
  method ServeLocally(d: Database, c: Client, b: Bill, succeeds: bool, ms: real) returns (charged: bool)
    requires d.Valid()
    modifies d, c
    ensures d.Valid()
    ensures charged <==> old(c.patience) >= 2
    ensures charged ==> d.asked == old(d.asked) + [b.(ms := if succeeds then ms else 0.0)]
    ensures charged ==>
              c.received == old(c.received) + [ExecutingLocally, if succeeds then LocalResult else LocalFailure]
    ensures !charged ==> c.received == old(c.received) + if old(c.patience) == 1 then [ExecutingLocally] else []
    ensures !charged ==> d.asked == old(d.asked)
  {
    charged := false;
    var ok := c.Send(ExecutingLocally);
    if !ok {
      return;
    }
    var executionTime := if succeeds then ms else 0.0;
    if succeeds {
      ok := c.Send(LocalResult);
      if !ok {
        // raised inside the try block: the handler of that exception sends in turn
        ok := c.Send(LocalFailure);
      }
    } else {
      ok := c.Send(LocalFailure);
    }
    if !ok {
      return;
    }
    d.DeductCredits(b.(ms := executionTime));
    charged := true;
  }

  datatype Route = Local(succeeds: bool, ms: real) | Interactive(stream: seq<Update>) | Batch(stream: seq<Update>)

  /** A request that has passed the checks, whatever its route, with a client that takes
      `patience` messages: `queued` first, then what the route sends; and the bill, if any. */
  method Serve(d: Database, c: Client, b: Bill, route: Route) returns (charged: bool)
    requires c.received == [] && d.Valid()
    modifies d, c
    ensures d.Valid()
    ensures old(c.patience) == 0 ==> c.received == [] && !charged
    ensures old(c.patience) > 0 ==>
              var left := old(c.patience) - 1;
              match route
              case Local(succeeds, ms) =>
                && c.received == [Queued] + (if left == 0 then [] else [ExecutingLocally])
                                 + (if left < 2 then [] else [if succeeds then LocalResult else LocalFailure])
                && (charged <==> left >= 2)
                && (charged ==> d.asked == old(d.asked) + [b.(ms := if succeeds then ms else 0.0)])
              case Interactive(stream) =>
                var n := ReadUntil(stream, true);
                && c.received == [Queued] + PassAll(stream[..Min(n, left)])
                && (charged <==> ChargesFor(stream, left))
                && (charged ==> d.asked == old(d.asked) + [b.(ms := stream[Min(n, left + 1) - 1].executionTimeMs)])
              case Batch(stream) =>
                var n := ReadUntil(stream, false);
                && c.received == [Queued] + PassAll(stream[..Min(n, left)])
                && (charged <==> n <= left && EndedAt(stream, n, false))
                && (charged ==> d.asked == old(d.asked) + [b.(ms := stream[n - 1].executionTimeMs)])
    ensures !charged ==> d.asked == old(d.asked)
    ensures AtMostOneRow(old(d.db).ledger, d.db.ledger, b.task)
  {
    hide ReadUntil, PassAll, EndedAt, ChargesFor, Committed, DeductAll, AtMostOneRow;
    charged := false;
    var ok := c.Send(Queued);
    if !ok {
      SameRows(d.db.ledger, b.task);
      return;
    }
    match route {
      case Local(succeeds, ms) => charged := ServeLocally(d, c, b, succeeds, ms);
      case Interactive(stream) => charged := ServeInteractive(d, c, b, stream);
      case Batch(stream) => charged := ServeBatch(d, c, b, stream);
    }
    if charged {
      OneBillOneRow(d.initial, old(d.asked), d.raises, d.asked[|old(d.asked)|]);
    } else {
      SameRows(d.db.ledger, b.task);
    }
  }

  /** The ledger after a request of task `task`: at most one row more, and that one its own. */
  predicate AtMostOneRow(before: seq<Row>, after: seq<Row>, task: TaskId) {
    after == before || (|after| == |before| + 1 && after[..|before|] == before && after[|before|].task == task)
  }

  lemma SameRows(rows: seq<Row>, task: TaskId)
    ensures AtMostOneRow(rows, rows, task)
  {
  }

  lemma OneBillOneRow(initial: Db, asked: seq<Bill>, raises: nat -> bool, b: Bill)
    ensures AtMostOneRow(DeductAll(initial, Committed(asked, raises)).ledger,
                         DeductAll(initial, Committed(asked + [b], raises)).ledger, b.task)
  {
    CommittedMore(asked, raises, b);
  }

  // ---------- once per task ----------

  predicate Distinct(rows: seq<Row>) { forall i, j :: 0 <= i < j < |rows| ==> rows[i].task != rows[j].task }

  /** Any number of requests, one after the other, each under a task id of its own: no task
      has two rows in the ledger, on whatever routes the requests went. */
  lemma {:induction false} OneRowPerTask(ledgers: seq<seq<Row>>, tasks: seq<TaskId>)
    requires |ledgers| == |tasks| + 1
    requires Distinct(ledgers[0]) && forall r :: r in ledgers[0] ==> r.task !in tasks
    requires forall k :: 0 <= k < |tasks| ==> AtMostOneRow(ledgers[k], ledgers[k + 1], tasks[k])
    requires forall i, j :: 0 <= i < j < |tasks| ==> tasks[i] != tasks[j]
    ensures Distinct(ledgers[|tasks|])
    ensures forall r :: r in ledgers[|tasks|] ==> r in ledgers[0] || r.task in tasks
    decreases |tasks|
  {
    if |tasks| > 0 {
      var n := |tasks| - 1;
      OneRowPerTask(ledgers[..n + 1], tasks[..n]);
      var before, after := ledgers[n], ledgers[n + 1];
      assert ledgers[..n + 1][n] == before;
      assert AtMostOneRow(before, after, tasks[n]);
      forall i | 0 <= i < |before|
        ensures before[i].task != tasks[n] && (before[i] in ledgers[0] || before[i].task in tasks)
      {
        assert before[i] in before;
        assert tasks[n] in tasks;
        if before[i] !in ledgers[0] {
          var k :| 0 <= k < n && tasks[..n][k] == before[i].task;
          assert tasks[k] == before[i].task;
        }
      }
    }
  }
}
