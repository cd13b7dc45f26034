/**
 Where the intake meets the queue: the request that a commit shows the queue
 (app/api/routes/telegram_commands.py and the column defaults of
 app/models/telegram_command_request.py).
 */
module CommandHandover {
  import opened Prelude
  import Intake = CommandIntake
  import IntakeTheorems = CommandIntakeTheorems
  import Queue = CommandQueue

  const DEFAULT_ATTEMPTS := 3

  /** The columns that the endpoint sets, and the defaults of the others. */
  function QueueRequest(c: Intake.Config, row: Intake.Row, createdAt: real, error: string): Queue.Request {
    Queue.Request(
      createdAt, row.chatId == c.chatId && row.userId == c.userId, row.videoId,
      if row.rejected then Queue.Rejected else Queue.Pending, 0, DEFAULT_ATTEMPTS, None, None, None,
      if row.rejected then Some(error) else None, Queue.ReplyPending, 0, DEFAULT_ATTEMPTS, None)
  }

  /** The queue sees the committed requests and no others. */
  ghost predicate Shows(rows: seq<Intake.Row>, table: Queue.Table) {
    forall id :: id in table <==> exists k :: 0 <= k < |rows| && rows[k].id == id
  }

  /** Every commit of the intake is an arrival that the queue's runs allow: its id
      is above all that the queue has seen, it is authorised, and its limits are
      the defaults.  So the queue's order by id is the order of the updates. */
  lemma CommitIsArrival(
    c: Intake.Config, log: seq<Intake.Event>, w: Intake.World, call: nat, queue: Queue.World, at: real, error: string
  )
    requires Intake.Reached(c, log, w) && Intake.Enabled(c, w, Intake.Committed(call)) && Shows(w.rows, queue.rows)
    ensures var row := w.calls[call].stage.row; var arrival := Queue.Arrived(row.id, QueueRequest(c, row, at, error));
      && Queue.Enabled(queue, arrival)
      && Shows(Intake.Apply(c, w, Intake.Committed(call)).rows, Queue.Apply(queue, arrival).rows)
      && var request := Queue.Apply(queue, arrival).rows[row.id];
         && request.authorized
         && request.videoId == row.videoId
         && request.status == (if row.rejected then Queue.Rejected else Queue.Pending)
         && (row.rejected ==> request.lastError == Some(error))
         && request.attemptCount == 0
         && request.maxAttempts == 3
         && request.replyMaxAttempts == 3
  {
    hide Intake.Reached, Intake.Enabled, Intake.Apply;
    IntakeTheorems.CommitShowsNewId(c, log, w, call);
    IntakeTheorems.CommitView(c, w, call);
    var row := w.calls[call].stage.row;
    CommittedRow(c, log, w, call);
    Arrives(w.rows, queue, row, QueueRequest(c, row, at, error));
    hide Shows;
  }

  lemma CommittedRow(c: Intake.Config, log: seq<Intake.Event>, w: Intake.World, call: nat)
    requires Intake.Reached(c, log, w) && call in w.calls && w.calls[call].stage.Uncommitted?
    ensures w.calls[call].stage.row.chatId == c.chatId && w.calls[call].stage.row.userId == c.userId
  {
    hide Intake.Reached, IntakeTheorems.Inv, IntakeTheorems.OrderInv, IntakeTheorems.Genuine, IntakeTheorems.Preceded,
      Intake.HasRow, Intake.SummaryCommand;
    IntakeTheorems.ReachedInv(c, log, w);
    IntakeTheorems.UncommittedFacts(c, w, call);
    IntakeTheorems.CommandIsSummary(c, w.posted, w.calls[call].payload);
  }

  lemma Arrives(rows: seq<Intake.Row>, queue: Queue.World, row: Intake.Row, request: Queue.Request)
    requires Shows(rows, queue.rows) && forall i :: 0 <= i < |rows| ==> rows[i].id < row.id
    requires request.status == Queue.Pending || request.status == Queue.Rejected
    requires request.leaseToken.None? && request.leaseExpiresAt.None? && request.replyStatus == Queue.ReplyPending
    requires request.replyAttemptCount == 0 && request.maxAttempts >= 0 && request.replyMaxAttempts >= 0
    ensures Queue.Enabled(queue, Queue.Arrived(row.id, request))
    ensures Queue.Apply(queue, Queue.Arrived(row.id, request)).rows == queue.rows[row.id := request]
    ensures Shows(rows + [row], queue.rows[row.id := request])
  {
    AppendShows(rows, queue.rows, row, request);
  }

  lemma AppendShows(rows: seq<Intake.Row>, table: Queue.Table, row: Intake.Row, request: Queue.Request)
    requires Shows(rows, table)
    ensures Shows(rows + [row], table[row.id := request])
  {
    var all, after := rows + [row], table[row.id := request];
    forall id
      ensures id in after <==> exists k :: 0 <= k < |all| && all[k].id == id
    {
      if id in table {
        var k :| 0 <= k < |rows| && rows[k].id == id;
        assert all[k].id == id;
      }
      assert all[|rows|] == row;
      if k :| 0 <= k < |all| && all[k].id == id {
        assert k < |rows| ==> rows[k].id == id;
      }
    }
  }
}
