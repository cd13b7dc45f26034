/**
 The crash-safe coordinator as it runs (app/services/broker_submission.py):
 methods that update the stage object, commit it, and talk to the broker.

 A session's invariant says that everything it has committed and sent so far is
 a run of the submission protocol, so the theorems about runs hold at every
 point of these methods, whatever the broker answers and wherever they crash.
 */
module BrokerSubmission {
  import opened Prelude
  import opened SummaryGateway
  import opened BrokerGateway
  import opened SummaryRow
  import opened FailurePolicy
  import opened BrokerProtocol
  import opened ProtocolInvariant
  import opened ProtocolSteps
  import opened ProtocolTheorems
  import BrokerAnswers
  import Chunking

  /** The time, and how many seconds of sleep were asked for so far. */
  datatype Reading = Reading(time: real, asked: real)

  /** Monotonic seconds; time may pass between any two readings, and a sleep may
      take longer than it was asked to. */
  class Clock {
    var time: real
    ghost var asked: real

    ghost function Read(): Reading
      reads this
    {
      Reading(time, asked)
    }

    constructor (start: real)
      ensures Read() == Reading(start, 0.0)
    {
      time := start;
      asked := 0.0;
    }

    method Now() returns (t: real)
      modifies this
      ensures t == time >= old(time) && asked == old(asked)
    {
      var passed: real := *;
      if passed > 0.0 {
        time := time + passed;
      }
      t := time;
    }

    method Sleep(seconds: real)
      modifies this
      ensures time >= old(time) + seconds && asked == old(asked) + seconds
    {
      var extra: real := *;
      asked := asked + seconds;
      time := time + seconds + (if extra > 0.0 then extra else 0.0);
    }
  }

  /** The object-relational copy of the stage row. */
  class Stage {
    var status: Status
    var attemptCount: int
    var maxAttempts: int
    var epoch: int
    var history: seq<HistoryEntry>
    var plan: Option<Chunking.Plan>
    var nextAttemptAt: Option<real>
    var failureClass: Option<string>
    var failureCode: Option<string>
    var quarantinedAt: Option<real>
    var reconciliation: Reconciliation
    var nextReconcileAt: Option<real>
    var taskId: Option<TaskId>
    var key: Option<Key>

    function Value(): Row
      reads this
    {
      Row(status, attemptCount, maxAttempts, epoch, history, plan, nextAttemptAt, failureClass, failureCode,
          quarantinedAt, reconciliation, nextReconcileAt, taskId, key)
    }

    constructor (row: Row)
      ensures Value() == row
    {
      status, attemptCount, maxAttempts, epoch := row.status, row.attemptCount, row.maxAttempts, row.epoch;
      history, plan, nextAttemptAt := row.history, row.plan, row.nextAttemptAt;
      failureClass, failureCode := row.failureClass, row.failureCode;
      quarantinedAt, reconciliation := row.quarantinedAt, row.reconciliation;
      nextReconcileAt, taskId, key := row.nextReconcileAt, row.taskId, row.key;
    }

    /** `populate_existing`: the volatile copy is overwritten. */
    method Refresh(row: Row)
      modifies this
      ensures Value() == row
    {
      status, attemptCount, maxAttempts, epoch := row.status, row.attemptCount, row.maxAttempts, row.epoch;
      history, plan, nextAttemptAt := row.history, row.plan, row.nextAttemptAt;
      failureClass, failureCode := row.failureClass, row.failureCode;
      quarantinedAt, reconciliation := row.quarantinedAt, row.reconciliation;
      nextReconcileAt, taskId, key := row.nextReconcileAt, row.taskId, row.key;
    }

    method NoteFailure(outcome: Outcome)
      modifies this
      ensures Value() == SummaryRow.NoteFailure(old(Value()), outcome)
    {
      failureClass := Some(outcome.failureClass);
      failureCode := Some(outcome.failureCode);
      nextAttemptAt := outcome.retryAt;
    }

    method NoteHistory(outcome: Outcome, at: real)
      modifies this
      ensures Value() == SummaryRow.NoteHistory(old(Value()), outcome, at)
    {
      var entry := HistoryEntry(epoch, outcome.failureClass, outcome.failureCode, at);
      history := LastEntries(history + [entry], Max(1, maxAttempts));
    }

    method AdvanceEpoch()
      modifies this
      ensures Value() == SummaryRow.AdvanceEpoch(old(Value()))
    {
      epoch := epoch + 1;
      taskId := None;
      key := None;
    }

    method Dispose(disposition: Disposition, at: real)
      modifies this
      ensures Value() == SummaryRow.Dispose(old(Value()), disposition, at)
    {
      match disposition {
        case Quarantine =>
          quarantinedAt := Some(at);
          reconciliation := AwaitingOperator;
          nextReconcileAt := None;
          status := PendingRetry;
        case Terminal =>
          status := Failed;
          reconciliation := NotReconciling;
          plan := None;
        case Retry =>
          status := PendingRetry;
          reconciliation := NotReconciling;
      }
    }

    method Correlate(task: Option<TaskId>, known: Option<Key>)
      modifies this
      ensures Value() == SummaryRow.Correlate(old(Value()), task, known)
    {
      if task.Some? {
        taskId := task;
      }
      if known.Some? {
        key := known;
      }
    }

    method ClearFailure()
      modifies this
      ensures Value() == SummaryRow.ClearFailure(old(Value()))
    {
      failureClass, failureCode, nextAttemptAt, quarantinedAt := None, None, None, None;
      reconciliation := NotReconciling;
      nextReconcileAt := None;
    }

    /** `save_completed` */
    method SaveProgress(output: string)
      requires plan.Some? && 0 <= plan.value.nextStep < |plan.value.steps|
      modifies this
      ensures Value() == SummaryRow.SaveProgress(old(Value()), output)
    {
      attemptCount := Max(0, attemptCount - 1);
      var next := Chunking.CompleteStep(plan.value, output);
      if next.nextStep >= |next.steps| {
        plan := None;
      } else {
        plan := Some(next);
      }
    }
  }

  class Video {
    var summary: Option<string>

    constructor (saved: Option<string>)
      ensures summary == saved
    {
      summary := saved;
    }
  }

  /** What the broker has answered to a request. */
  datatype Answer = ToPost(post: PostReply) | ToGet(reply: GetReply)

  /** The answer that an event acts on. */
  function ActsOn(e: Event): Option<Answer> {
    match e
    case PostRefused(post, _) => Some(ToPost(post))
    case TaskAccepted(post) => Some(ToPost(post))
    case PollRefused(reply, _) => Some(ToGet(reply))
    case OutputStored(reply) => Some(ToGet(reply))
    case ReconcileWaited(reply, _) => Some(ToGet(reply))
    case ReconcileRefused(reply, _) => Some(ToGet(reply))
    case ReconcileStored(reply, _) => Some(ToGet(reply))
    case _ => None
  }

  /** The database and the broker connection of one stage.  `heard` is an answer
      that nothing has been made of yet: the next event must act on exactly that
      answer, and no event may act on any other. */
  class Session {
    const settings: Settings
    const maxAttempts: nat
    var db: Db
    ghost var log: seq<Event>
    ghost var machine: Machine
    ghost var heard: Option<Answer>

    /** The log is a run from a new stage, and what is durable is its state. */
    ghost predicate Valid()
      reads this
    {
      Reached(settings, maxAttempts, log, machine) && machine.db == db
    }

    constructor (s: Settings, attempts: nat)
      ensures Valid() && settings == s && maxAttempts == attempts && log == []
      ensures db == Db(NewRow(attempts), None) && heard.None?
    {
      heard := None;
      settings, maxAttempts := s, attempts;
      db := Db(NewRow(attempts), None);
      log := [];
      machine := Start(attempts);
      StartReached(s, attempts);
    }

    ghost method Record(e: Event)
      requires Reached(settings, maxAttempts, log, machine) && Enabled(settings, machine, e) && heard == ActsOn(e)
      modifies this`log, this`machine, this`heard
      ensures Reached(settings, maxAttempts, log, machine) && heard.None?
      ensures log == old(log) + [e] && machine == Apply(settings, old(machine), e)
    {
      ReachedExtends(settings, maxAttempts, log, machine, e);
      hide Reached;
      machine := Apply(settings, machine, e);
      log := log + [e];
      heard := None;
    }

    method Commit(stage: Stage, video: Video, ghost e: Event)
      requires Valid() && Enabled(settings, machine, e) && heard == ActsOn(e)
      requires Apply(settings, machine, e).db == Db(stage.Value(), video.summary)
      modifies this
      ensures Valid() && heard.None? && db == Db(stage.Value(), video.summary)
      ensures log == old(log) + [e] && machine == Apply(settings, old(machine), e)
    {
      hide Reached, Enabled, Apply;
      Record(e);
      db := Db(stage.Value(), video.summary);
    }

    /** The process dies: what was not committed is gone. */
    method Restart(stage: Stage, video: Video)
      requires Valid()
      modifies this, stage, video
      ensures Valid() && heard.None? && db == old(db) && machine.phase.Idle? && log == old(log) + [Crashed]
      ensures stage.Value() == db.row && video.summary == db.summary
    {
      hide Reached;
      heard := None;
      Record(Crashed);
      stage.Refresh(db.row);
      video.summary := db.summary;
    }

    /** The POST, answered in any way the gateway can report. */
    method SubmitTask() returns (reply: PostReply)
      requires Valid() && machine.phase.Submitting? && heard.None?
      modifies this`log, this`machine, this`heard
      ensures Valid() && heard == Some(ToPost(reply))
      ensures Sent(reply) ==> log == old(log) + [Posted] && machine == Apply(settings, old(machine), Posted)
      ensures !Sent(reply) ==> log == old(log) && machine == old(machine)
    {
      hide Reached;
      reply := *;
      if Sent(reply) {
        Record(Posted);
      }
      heard := Some(ToPost(reply));
    }

    /** One result GET; "still running" is nothing to act on. */
    method PollTask() returns (reply: GetReply)
      requires Valid() && machine.phase.Polling? && heard.None?
      modifies this`log, this`machine, this`heard
      ensures Valid() && heard == (if BrokerAnswers.StillRunning(reply) then None else Some(ToGet(reply)))
      ensures log == old(log) + [ResultPolled] && machine == old(machine)
    {
      hide Reached;
      reply := *;
      Record(ResultPolled);
      heard := if BrokerAnswers.StillRunning(reply) then None else Some(ToGet(reply));
    }

    /** The reconciler's GET. */
    method ReconcileTask(ghost at: real) returns (reply: GetReply)
      requires Valid() && MayReconcile(settings, machine, at) && heard.None?
      modifies this`log, this`machine, this`heard
      ensures Valid() && heard == Some(ToGet(reply))
      ensures log == old(log) + [ReconcilePolled(at)] && machine == old(machine)
    {
      hide Reached;
      reply := *;
      Record(ReconcilePolled(at));
      heard := Some(ToGet(reply));
    }
  }

  function Polls(log: seq<Event>): nat {
    if log == [] then 0 else Polls(log[..|log| - 1]) + (if log[|log| - 1].ResultPolled? then 1 else 0)
  }

  /** Waits for a poll: each ends in the poll or at the deadline. */
  function Waits(log: seq<Event>): nat {
    if log == [] then 0
    else
      var last := log[|log| - 1];
      Waits(log[..|log| - 1]) + (if last.ResultPolled? || last.PollDeadlinePassed? then 1 else 0)
  }

  lemma PollsAppend(log: seq<Event>, e: Event)
    ensures Polls(log + [e]) == Polls(log) + (if e.ResultPolled? then 1 else 0)
    ensures Waits(log + [e]) == Waits(log) + (if e.ResultPolled? || e.PollDeadlinePassed? then 1 else 0)
  {
    assert (log + [e])[..|log|] == log;
  }

  /** An attempt that ends because its time has run out. */
  predicate Expires(e: Event) {
    e.PostDeadlinePassed? || e.PollDeadlinePassed?
  }

  /** The log has only grown; its new polls took a second each, and there are
      fewer of them than the seconds until the time is due; no more than a second
      of sleep was asked for before a poll or before giving up; and nothing was
      given up before it was due. */
  ghost predicate Polled(before: seq<Event>, after: seq<Event>, from: Reading, to: Reading, due: real) {
    && before <= after
    && from.time <= to.time
    && Polls(before) <= Polls(after) <= Polls(before) + Max(0, Ceil(due - from.time) - 1)
    && (Polls(after) - Polls(before)) as real <= to.time - from.time
    && to.asked - from.asked <= (Waits(after) - Waits(before)) as real
    && forall i :: |before| <= i < |after| && Expires(after[i]) ==> to.time >= due
  }

  lemma PolledNothing(log: seq<Event>, e: Event, from: Reading, to: Reading, due: real)
    requires !e.ResultPolled? && from.time <= to.time && from.asked == to.asked && (Expires(e) ==> to.time >= due)
    ensures Polled(log, log, from, to, due) && Polled(log, log + [e], from, to, due)
  {
    PollsAppend(log, e);
  }

  lemma PolledAfter(
    log: seq<Event>, e: Event, after: seq<Event>, from: Reading, later: Reading, to: Reading, due: real, laterDue: real
  )
    requires !e.ResultPolled? && !Expires(e) && Polled(log + [e], after, later, to, laterDue)
    requires from.time <= later.time && from.asked == later.asked
    requires due <= laterDue && laterDue - later.time <= due - from.time
    ensures Polled(log, after, from, to, due)
  {
    PollsAppend(log, e);
    CeilMonotone(laterDue - later.time, due - from.time);
    assert log <= log + [e];
  }

  lemma PolledLater(
    log: seq<Event>, after: seq<Event>, from: Reading, later: Reading, to: Reading, due: real, laterDue: real
  )
    requires Polled(log, after, later, to, laterDue) && from.time <= later.time && from.asked == later.asked
    requires due <= laterDue && laterDue - later.time <= due - from.time
    ensures Polled(log, after, from, to, due)
  {
    CeilMonotone(laterDue - later.time, due - from.time);
  }

  lemma PolledUntilNow(log: seq<Event>, after: seq<Event>, from: Reading, to: Reading, now: Reading, due: real)
    requires Polled(log, after, from, to, due) && to.time <= now.time && to.asked == now.asked
    ensures Polled(log, after, from, now, due)
  {
  }

  lemma PolledSo(
    before: seq<Event>, middle: seq<Event>, e: Event, polls: nat, from: Reading, to: Reading, due: real
  )
    requires before <= middle && Polls(middle) == Polls(before) + polls && Waits(middle) == Waits(before) + polls
    requires polls as real <= to.time - from.time && (polls > 0 ==> polls as real < due - from.time)
    requires from.time <= to.time && !e.ResultPolled? && (Expires(e) ==> to.time >= due)
    requires to.asked - from.asked <= polls as real + (if e.PollDeadlinePassed? then 1.0 else 0.0)
    requires forall i :: |before| <= i < |middle| ==> !Expires(middle[i])
    ensures Polled(before, middle + [e], from, to, due)
  {
    PollsAppend(middle, e);
  }

  lemma PolledFurther(log: seq<Event>, after: seq<Event>, e: Event, from: Reading, to: Reading, due: real)
    requires !e.ResultPolled? && !Expires(e) && Polled(log, after, from, to, due)
    ensures Polled(log, after + [e], from, to, due)
  {
    PollsAppend(after, e);
  }

  /** A deadline shared by consecutive steps bounds all of them together. */
  lemma PolledTwice(
    a: seq<Event>, b: seq<Event>, c: seq<Event>, from: Reading, middle: Reading, to: Reading, due: real
  )
    requires Polled(a, b, from, middle, due) && Polled(b, c, middle, to, due)
    ensures Polled(a, c, from, to, due)
  {
  }

  lemma CeilMonotone(a: real, b: real)
    requires a <= b
    ensures Ceil(a) <= Ceil(b)
  {
  }

  /** What a poll's answer makes of the machine. */
  lemma PollAnswerView(s: Settings, m: Machine, reply: GetReply, at: real)
    requires m.phase.Polling? && StepInRange(m.db.row)
    ensures var answer := BrokerGateway.PollTask(reply, m.phase.task, m.phase.operation.kind == PARTIAL);
      && (answer.Err? ==>
            && Possible(answer.error, Some(m.phase.task))
            && Enabled(s, m, PollRefused(reply, at))
            && Apply(s, m, PollRefused(reply, at)).db
               == m.db.(row := ErrorRow(m.db.row, answer.error, at, m.phase.key, Some(m.phase.task))))
      && (answer.Ok? && answer.value.Some? ==>
            && Enabled(s, m, OutputStored(reply))
            && Apply(s, m, OutputStored(reply)).db == StoreOutput(m.db, answer.value.value))
  {
    hide BrokerGateway.PollTask, BrokerGateway.ReconcileTask, BrokerGateway.SubmitTask, Decide, ErrorRow,
      TimeoutRow, ResidueRow, LocalFailureRow, StoreOutput, ReconcileStore, ReconcileErrorRow, Possible;
    var answer := BrokerGateway.PollTask(reply, m.phase.task, m.phase.operation.kind == PARTIAL);
    if answer.Err? {
      PollErrors(reply, m.phase.task, m.phase.operation.kind == PARTIAL);
    }
  }

  /** What the answer to a POST makes of the machine. */
  lemma PostAnswerView(s: Settings, m: Machine, reply: PostReply, at: real)
    requires (m.phase.Submitting? && !Sent(reply)) || (m.phase.Answering? && Sent(reply))
    ensures var answer := BrokerGateway.SubmitTask(reply, m.phase.key);
      && (answer.Err? ==>
            && Possible(answer.error, None)
            && Enabled(s, m, PostRefused(reply, at))
            && Apply(s, m, PostRefused(reply, at)).db
               == m.db.(row := ErrorRow(m.db.row, answer.error, at, m.phase.key, None)))
      && (answer.Ok? ==>
            && answer.value.key == m.phase.key
            && Enabled(s, m, TaskAccepted(reply))
            && Apply(s, m, TaskAccepted(reply)).db
               == m.db.(row := AcceptRow(m.db.row, answer.value.taskId, m.phase.key))
            && Apply(s, m, TaskAccepted(reply)).phase
               == Polling(m.phase.operation, m.phase.key, answer.value.taskId))
  {
    var answer := BrokerGateway.SubmitTask(reply, m.phase.key);
    if answer.Err? {
      SubmitErrors(reply, m.phase.key);
    } else {
      AcceptedKey(reply, m.phase.key);
    }
    hide BrokerGateway.PollTask, BrokerGateway.ReconcileTask, BrokerGateway.SubmitTask, Decide, ErrorRow,
      TimeoutRow, ResidueRow, LocalFailureRow, StoreOutput, ReconcileStore, ReconcileErrorRow, Possible;
  }

  lemma PrepareView(s: Settings, m: Machine, at: real, operation: Operation)
    requires MayAttempt(m, at) && Decide(s, m.db.row.plan) == Submit(operation)
    ensures Enabled(s, m, StagePrepared(at))
    ensures var key := KeyOf(s.stageId, m.db.row.epoch, operation);
      && Apply(s, m, StagePrepared(at)).db == m.db.(row := PrepareRow(m.db.row, key))
      && Apply(s, m, StagePrepared(at)).phase == Submitting(operation, key)
  {
    hide BrokerGateway.PollTask, BrokerGateway.ReconcileTask, BrokerGateway.SubmitTask, Decide;
  }

  lemma DeadlineView(s: Settings, m: Machine, at: real)
    requires m.phase.Submitting?
    ensures Enabled(s, m, PostDeadlinePassed(at))
    ensures Apply(s, m, PostDeadlinePassed(at)).db == m.db.(row := ErrorRow(m.db.row, TIMEOUT, at, m.phase.key, None))
  {
    hide BrokerGateway.PollTask, BrokerGateway.ReconcileTask, BrokerGateway.SubmitTask, Decide, ErrorRow;
  }

  lemma ResidueView(s: Settings, m: Machine, at: real)
    requires m.phase.Idle? && Attemptable(m.db.row, at) && Residue(m.db.row)
    ensures Enabled(s, m, ResidueQuarantined(at))
    ensures Apply(s, m, ResidueQuarantined(at)) == Rest(m, ResidueRow(m.db.row, at))
  {
    hide BrokerGateway.PollTask, BrokerGateway.ReconcileTask, BrokerGateway.SubmitTask, Decide, ResidueRow;
  }

  /** The row while a submission is in the worker's hands. */
  lemma InFlightView(s: Settings, m: Machine)
    requires Inv(s, m) && (m.phase.Submitting? || m.phase.Answering? || m.phase.Polling?)
    ensures Undisposed(m.db.row) && StepInRange(m.db.row)
    ensures m.phase.operation.kind == PARTIAL <==> AtPartial(m.db.row)
    ensures m.db.row.key == Some(m.phase.key)
    ensures !m.phase.Polling? ==> m.db.row.taskId.None?
    ensures m.phase.Polling? ==> m.db.row.taskId == Some(m.phase.task)
    ensures RowInv(s, m.db.row) && Outstanding(m.db.row)
  {
    SubmitRank(s, m.db.row);
    hide PlanInv, PostsInv, Decide, Rank, HistoryInv;
  }

  lemma PollDeadlineView(s: Settings, m: Machine, at: real)
    requires m.phase.Polling?
    ensures Enabled(s, m, PollDeadlinePassed(at))
  {
  }

  lemma PostedView(s: Settings, m: Machine)
    requires m.phase.Submitting?
    ensures Enabled(s, m, Posted)
    ensures Apply(s, m, Posted)
      == m.(phase := Answering(m.phase.operation, m.phase.key), posts := m.posts + [m.phase.key])
  {
  }

  lemma EndingIsIdle(s: Settings, m: Machine, e: Event)
    requires Enabled(s, m, e)
    requires e.PostRefused? || e.PostDeadlinePassed? || e.OutputStored? || e.PollDeadlinePassed? || e.PollRefused?
      || e.ResidueQuarantined?
    ensures Apply(s, m, e).phase.Idle?
  {
    hide BrokerGateway.PollTask, BrokerGateway.ReconcileTask, BrokerGateway.SubmitTask, Decide, ErrorRow,
      TimeoutRow, ResidueRow, LocalFailureRow, StoreOutput, ReconcileStore, ReconcileErrorRow;
  }

  datatype SubmissionOutcome = Done(text: string) | NotDone(disposition: Disposition)

  /** Which disposition a row shows after a failed submission. */
  function RowDisposition(row: Row): Disposition {
    if row.quarantinedAt.Some? then Quarantine else if row.status == Failed then Terminal else Retry
  }

  /** A retry goes on in the next epoch, with nothing outstanding. */
  predicate NextEpoch(before: Row, after: Row) {
    && after.epoch == before.epoch + 1
    && after.attemptCount == before.attemptCount < after.maxAttempts
    && after.plan == before.plan
    && after.taskId.None?
    && !Outstanding(after)
  }

  lemma FailureEnding(s: Settings, m: Machine, e: Event)
    requires Inv(s, m) && Enabled(s, m, e)
    requires e.PostRefused? || e.PostDeadlinePassed? || e.PollRefused? || e.PollDeadlinePassed?
    ensures var after := Apply(s, m, e).db;
      after.summary == m.db.summary && (RowDisposition(after.row) == Retry ==> NextEpoch(m.db.row, after.row))
  {
    hide PlanInv, PostsInv, HistoryInv, Decide, BrokerGateway.SubmitTask, BrokerGateway.PollTask, ErrorRow, TimeoutRow,
      Possible;
    match e {
      case PostRefused(post, at) =>
        SubmitErrors(post, m.phase.key);
        ErrorEndings(m.db.row, BrokerGateway.SubmitTask(post, m.phase.key).error, at, m.phase.key, None);
      case PostDeadlinePassed(at) =>
        TimeoutView(m.db.row, at, m.phase.key);
        TimeoutEnding(m.db.row, at, Some(m.phase.key), None);
      case PollRefused(reply, at) =>
        PollErrors(reply, m.phase.task, m.phase.operation.kind == PARTIAL);
        ErrorEndings(m.db.row, PollAnswer(m, reply).error, at, m.phase.key, Some(m.phase.task));
      case PollDeadlinePassed(at) =>
        TimeoutEnding(m.db.row, at, Some(m.phase.key), Some(m.phase.task));
    }
  }

  lemma TimeoutView(row: Row, at: real, key: Key)
    ensures ErrorRow(row, TIMEOUT, at, key, None) == TimeoutRow(row, at, Some(key), None)
  {
  }

  /** How an attempt leaves the database: progress, the summary, or a failure
      whose disposition is the one returned. */
  ghost predicate Ends(before: Db, after: Db, r: SubmissionOutcome) {
    match r
    case NotDone(disposition) =>
      && disposition == RowDisposition(after.row)
      && after.summary == before.summary
      && (disposition == Retry ==> NextEpoch(before.row, after.row))
    case Done(text) =>
      && text != ""
      && StepInRange(before.row)
      && if AtPartial(before.row) then Advances(before.row, after.row, text) && after.summary == before.summary
         else
           && Finishes(before.row.(taskId := after.row.taskId, key := after.row.key), after.row)
           && after.summary == Some(text)
  }

  lemma EndsAfterAcceptance(before: Db, task: TaskId, key: Key, after: Db, r: SubmissionOutcome)
    requires Ends(before.(row := AcceptRow(before.row, task, key)), after, r)
    ensures Ends(before, after, r)
  {
  }

  /** A completed partial step moves the plan on and costs the stage no attempt. */
  ghost predicate Progresses(row: Row, after: Row, text: string)
    requires StepInRange(row) && AtPartial(row)
  {
    after == row.(
      plan := Some(Chunking.CompleteStep(row.plan.value, text)), status := PendingRetry, taskId := None, key := None,
      failureClass := None, failureCode := None, nextAttemptAt := None, quarantinedAt := None,
      reconciliation := NotReconciling, nextReconcileAt := None)
  }

  lemma ProgressIsFree(row: Row, key: Key, after: Row, text: string)
    requires row.attemptCount >= 0 && StepInRange(row) && AtPartial(row)
    requires Advances(PrepareRow(row, key), after, text)
    ensures Progresses(row, after, text)
  {
  }

  /** What an attempt comes to for the row that it started from. */
  ghost predicate Concludes(before: Db, after: Db, r: SubmissionOutcome) {
    match r
    case NotDone(disposition) =>
      && disposition == RowDisposition(after.row)
      && after.summary == before.summary
      && (disposition == Retry ==>
            NextEpoch(before.row.(attemptCount := before.row.attemptCount + 1), after.row))
    case Done(text) =>
      && text != ""
      && StepInRange(before.row)
      && if AtPartial(before.row) then Progresses(before.row, after.row, text) && after.summary == before.summary
         else after.row.status == Completed && after.summary == Some(text)
  }

  lemma EndsAfterPreparation(before: Db, key: Key, after: Db, r: SubmissionOutcome)
    requires before.row.attemptCount >= 0
    requires Ends(before.(row := PrepareRow(before.row, key)), after, r)
    ensures Concludes(before, after, r)
  {
    if r.Done? && AtPartial(before.row) {
      ProgressIsFree(before.row, key, after.row, r.text);
    }
  }

  predicate Undisposed(row: Row) {
    row.quarantinedAt.None? && row.status != Failed
  }

  class Coordinator {
    const clock: Clock
    const timeoutSeconds: real

    constructor (c: Clock, timeout: real)
      ensures clock == c && timeoutSeconds == timeout
    {
      clock, timeoutSeconds := c, timeout;
    }

    /** When polling ends that begins now: at the deadline when one is given. */
    function Due(deadline: Option<real>, now: real): real {
      if deadline.Some? then deadline.value else now + timeoutSeconds
    }

    /** Another worker has already handled this confirmed terminal task. */
    predicate Overtaken(row: Row, task: Option<TaskId>, terminalConfirmed: bool) {
      terminalConfirmed && task.Some? && row.taskId != task
    }

    /** `_apply_outcome`: a confirmed terminal task is handled on the row as the
        database has it, and only while it is still the current task. */
    method ApplyOutcome(
      session: Session, stage: Stage, video: Video, outcome: Outcome, at: real,
      task: Option<TaskId>, terminalConfirmed: bool, ghost e: Event
    ) returns (r: SubmissionOutcome)
      requires session.Valid()
      requires !Overtaken(session.db.row, task, terminalConfirmed) ==>
        var found := if terminalConfirmed && task.Some? then session.db.row else stage.Value();
        && Enabled(session.settings, session.machine, e)
        && session.heard == ActsOn(e)
        && Undisposed(found)
        && Apply(session.settings, session.machine, e).db
           == Db(SummaryRow.ApplyOutcome(found, outcome, at, task, terminalConfirmed), video.summary)
      modifies session, stage
      ensures session.Valid() && r == NotDone(outcome.disposition)
      ensures Overtaken(old(session.db.row), task, terminalConfirmed) ==>
        && session.log == old(session.log)
        && session.machine == old(session.machine)
        && session.db == old(session.db)
        && stage.Value() == session.db.row
      ensures !Overtaken(old(session.db.row), task, terminalConfirmed) ==>
        && Enabled(session.settings, old(session.machine), e)
        && session.log == old(session.log) + [e]
        && session.heard.None?
        && session.machine == Apply(session.settings, old(session.machine), e)
        && session.db == Db(stage.Value(), video.summary)
        && outcome.disposition == RowDisposition(stage.Value())
    {
      hide Reached, Enabled, Apply;
      r := NotDone(outcome.disposition);
      if terminalConfirmed && task.Some? {
        stage.Refresh(session.db.row);
        if stage.taskId != task {
          return;
        }
      }
      stage.NoteFailure(outcome);
      if terminalConfirmed && task.Some? && outcome.failureClass in SAFE_CLASSES {
        stage.NoteHistory(outcome, at);
      }
      if CanAdvanceEpoch(terminalConfirmed, task, stage.taskId, outcome.failureClass,
                         stage.attemptCount, stage.maxAttempts, stage.epoch) {
        stage.AdvanceEpoch();
      }
      stage.Dispose(outcome.disposition, at);
      session.Commit(stage, video, e);
    }

    /** `_classify` */
    method Classify(
      session: Session, stage: Stage, video: Video, err: BrokerError, at: real,
      key: Key, task: Option<TaskId>, ghost e: Event
    ) returns (r: SubmissionOutcome)
      requires session.Valid() && Enabled(session.settings, session.machine, e) && session.heard == ActsOn(e)
      requires session.db == Db(stage.Value(), video.summary) && Undisposed(stage.Value())
      requires err.code == "broker_task_failed" && KnownTask(task, err).Some? ==>
        Correlate(stage.Value(), KnownTask(task, err), Some(key)) == stage.Value()
      requires Apply(session.settings, session.machine, e).db
        == Db(ErrorRow(stage.Value(), err, at, key, task), video.summary)
      modifies session, stage
      ensures session.Valid() && session.log == old(session.log) + [e] && session.heard.None?
      ensures session.machine == Apply(session.settings, old(session.machine), e)
      ensures session.db == Db(stage.Value(), video.summary)
      ensures r == NotDone(RowDisposition(stage.Value()))
    {
      hide Reached, Enabled, Apply, SummaryRow.ApplyOutcome;
      var known := KnownTask(task, err);
      stage.Correlate(known, Some(key));
      var outcome := ErrorOutcome(stage.Value(), err, at, known);
      hide ErrorOutcome;
      r := ApplyOutcome(session, stage, video, outcome, at, known, err.code == "broker_task_failed", e);
    }

    /** `_quarantine` with the indeterminate timeout */
    method Quarantine(
      session: Session, stage: Stage, video: Video, at: real, key: Option<Key>, task: Option<TaskId>, ghost e: Event
    ) returns (r: SubmissionOutcome)
      requires session.Valid() && Enabled(session.settings, session.machine, e) && session.heard == ActsOn(e)
      requires Undisposed(stage.Value())
      requires Apply(session.settings, session.machine, e).db
        == Db(TimeoutRow(stage.Value(), at, key, task), video.summary)
      modifies session, stage
      ensures session.Valid() && session.log == old(session.log) + [e] && session.heard.None?
      ensures session.machine == Apply(session.settings, old(session.machine), e)
      ensures session.db == Db(stage.Value(), video.summary)
      ensures r == NotDone(RowDisposition(stage.Value()))
    {
      hide Reached, Enabled, Apply, SummaryRow.ApplyOutcome;
      stage.Correlate(task, key);
      var outcome := FailurePolicy.Classify(
        Broker, "broker_timeout", stage.attemptCount, stage.maxAttempts, at, Some("indeterminate"));
      r := ApplyOutcome(session, stage, video, outcome, at, task, false, e);
    }

    /** `_complete`: progress, cleared markers and the dropped task id reach the
        database in one commit. */
    method Complete(
      session: Session, stage: Stage, video: Video, text: string, finalize: bool, ghost e: Event
    ) returns (r: SubmissionOutcome)
      requires session.Valid() && Enabled(session.settings, session.machine, e) && session.heard == ActsOn(e)
      requires StepInRange(stage.Value()) && (finalize <==> !AtPartial(stage.Value()))
      requires Apply(session.settings, session.machine, e).db == StoreOutput(Db(stage.Value(), video.summary), text)
      modifies session, stage, video
      ensures session.Valid() && session.log == old(session.log) + [e] && session.heard.None?
      ensures session.machine == Apply(session.settings, old(session.machine), e)
      ensures session.db == Db(stage.Value(), video.summary)
      ensures session.db == StoreOutput(old(Db(stage.Value(), video.summary)), text) && r == Done(text)
    {
      hide Reached, Enabled, Apply, SummaryRow.SaveProgress, SummaryRow.ClearFailure;
      ghost var before := Db(stage.Value(), video.summary);
      if stage.plan.Some? {
        stage.SaveProgress(text);
      }
      ghost var saved := stage.Value();
      stage.ClearFailure();
      if finalize {
        video.summary := Some(text);
        stage.status := Completed;
      } else {
        stage.status := PendingRetry;
        stage.taskId := None;
        stage.key := None;
      }
      assert Db(stage.Value(), video.summary) == StoreOutput(before, text);
      hide StoreOutput;
      session.Commit(stage, video, e);
      r := Done(text);
    }

    /** The stage is durable under the accepted marker and its task is polled. */
    ghost predicate Waiting(
      session: Session, stage: Stage, video: Video, operation: Operation, key: Key, task: TaskId
    )
      reads session, stage, video
    {
      && session.Valid()
      && session.machine.phase == Polling(operation, key, task)
      && session.db == Db(stage.Value(), video.summary)
      && stage.taskId == Some(task)
      && stage.key == Some(key)
      && Undisposed(stage.Value())
      && StepInRange(stage.Value())
      && (operation.kind == PARTIAL <==> AtPartial(stage.Value()))
    }

    /** The wait before a poll: no more than a second is asked for; the deadline is
        looked at before and after it. */
    method WaitForPoll(deadline: real) returns (due: bool)
      modifies clock
      ensures clock.time >= old(clock.time) && clock.asked <= old(clock.asked) + 1.0
      ensures due ==> old(clock.time) + 1.0 <= clock.time < deadline
      ensures !due ==> clock.time >= deadline
    {
      var now := clock.Now();
      var remaining := deadline - now;
      if remaining <= 0.0 {
        return false;
      }
      clock.Sleep(if remaining < 1.0 then remaining else 1.0);
      now := clock.Now();
      return now < deadline;
    }

    /** The poll loop after the task is durable.  It sleeps at least a second
        before every poll that it makes, so the deadline bounds their number. */
    method PollUntil(
      session: Session, stage: Stage, video: Video, at: real, deadline: real, key: Key, task: TaskId,
      operation: Operation
    ) returns (r: SubmissionOutcome, ghost e: Event)
      requires Waiting(session, stage, video, operation, key, task) && session.heard.None?
      modifies session, stage, video, clock
      ensures session.Valid() && session.heard.None?
      ensures session.db == Db(stage.Value(), video.summary)
      ensures Polled(old(session.log), session.log, old(clock.Read()), clock.Read(), deadline)
      ensures Enabled(session.settings, old(session.machine), e)
      ensures session.machine == Apply(session.settings, old(session.machine), e)
      ensures r.Done? <==> e.OutputStored?
      ensures r.Done? ==> session.db == StoreOutput(old(session.db), r.text) && r.text != ""
      ensures r.NotDone? ==> r.disposition == RowDisposition(session.db.row)
      ensures e.OutputStored? || e.PollDeadlinePassed? || e.PollRefused?
    {
      hide Reached, Apply, Enabled, Polled, Polls, Waits, StoreOutput, RowDisposition;
      ghost var m := session.machine;
      ghost var polls := 0;
      PollDeadlineView(session.settings, m, at);
      while true
        invariant Waiting(session, stage, video, operation, key, task) && session.machine == m && session.heard.None?
        invariant old(session.log) <= session.log
        invariant Polls(session.log) == Polls(old(session.log)) + polls
        invariant Waits(session.log) == Waits(old(session.log)) + polls
        invariant forall i :: |old(session.log)| <= i < |session.log| ==> !Expires(session.log[i])
        invariant polls as real <= clock.time - old(clock.time)
        invariant clock.asked - old(clock.asked) <= polls as real
        invariant polls > 0 ==> clock.time < deadline
        decreases deadline - clock.time
      {
        var due := WaitForPoll(deadline);
        if !due {
          e := PollDeadlinePassed(at);
          PolledSo(old(session.log), session.log, e, polls, old(clock.Read()), clock.Read(), deadline);
          r := TimeOut(session, stage, video, at, key, task, e);
          return;
        }
        ghost var logBefore := session.log;
        var reply := session.PollTask();
        PollsAppend(logBefore, ResultPolled);
        polls := polls + 1;
        BrokerAnswers.StillPendingIff(reply, task, operation.kind == PARTIAL);
        if BrokerGateway.PollTask(reply, task, operation.kind == PARTIAL) != Ok(None) {
          hide BrokerGateway.PollTask;
          ghost var polled := session.log;
          r, e := Conclude(session, stage, video, at, key, task, operation, reply);
          PolledSo(old(session.log), polled, e, polls, old(clock.Read()), clock.Read(), deadline);
          return;
        }
        hide BrokerGateway.PollTask;
      }
    }

    /** A poll that is not "still pending" ends the attempt. */
    method Conclude(
      session: Session, stage: Stage, video: Video, at: real, key: Key, task: TaskId, operation: Operation,
      reply: GetReply
    ) returns (r: SubmissionOutcome, ghost e: Event)
      requires Waiting(session, stage, video, operation, key, task)
      requires BrokerGateway.PollTask(reply, task, operation.kind == PARTIAL) != Ok(None)
      requires session.heard == Some(ToGet(reply))
      modifies session, stage, video
      ensures session.Valid() && session.heard.None?
      ensures session.db == Db(stage.Value(), video.summary)
      ensures session.log == old(session.log) + [e]
      ensures Enabled(session.settings, old(session.machine), e)
      ensures session.machine == Apply(session.settings, old(session.machine), e)
      ensures r.Done? <==> e.OutputStored?
      ensures r.Done? ==> session.db == StoreOutput(old(session.db), r.text) && r.text != ""
      ensures r.NotDone? ==> r.disposition == RowDisposition(session.db.row)
      ensures e.OutputStored? || e.PollRefused?
    {
      var answer := BrokerGateway.PollTask(reply, task, operation.kind == PARTIAL);
      PollAnswerView(session.settings, session.machine, reply, at);
      hide Reached, Enabled, Apply, BrokerGateway.PollTask, ErrorRow, StoreOutput;
      if answer.Err? {
        e := PollRefused(reply, at);
        r := Classify(session, stage, video, answer.error, at, key, Some(task), e);
      } else {
        e := OutputStored(reply);
        PolledText(reply, task, operation.kind == PARTIAL);
        r := Complete(session, stage, video, answer.value.value, operation.kind != PARTIAL, e);
      }
    }

    method TimeOut(
      session: Session, stage: Stage, video: Video, at: real, key: Key, task: TaskId, ghost e: Event
    ) returns (r: SubmissionOutcome)
      requires session.Valid() && session.heard.None?
      requires e == PollDeadlinePassed(at) && Enabled(session.settings, session.machine, e)
      requires session.machine.phase.key == key && session.machine.phase.task == task
      requires session.db == Db(stage.Value(), video.summary) && Undisposed(stage.Value())
      modifies session, stage
      ensures session.Valid() && session.log == old(session.log) + [e] && session.heard.None?
      ensures session.machine == Apply(session.settings, old(session.machine), e)
      ensures session.db == Db(stage.Value(), video.summary)
      ensures r == NotDone(RowDisposition(stage.Value()))
    {
      hide Reached, TimeoutRow;
      r := Quarantine(session, stage, video, at, Some(key), Some(task), e);
    }

    ghost predicate Attempted(session: Session, stage: Stage, video: Video, before: Db, r: SubmissionOutcome)
      reads session, stage, video
    {
      && session.Valid()
      && session.heard.None?
      && session.machine.phase.Idle?
      && session.db == Db(stage.Value(), video.summary)
      && Ends(before, session.db, r)
    }

    /** The stage is durable under the prepared marker: the POST, then the task
        id made durable, then the polls. */
    method SubmitPrepared(
      session: Session, stage: Stage, video: Video, at: real, deadline: Option<real>, operation: Operation, key: Key
    ) returns (r: SubmissionOutcome)
      requires session.Valid() && session.heard.None? && session.machine.phase == Submitting(operation, key)
      requires session.db == Db(stage.Value(), video.summary)
      modifies session, stage, video, clock
      ensures Attempted(session, stage, video, old(session.db), r)
      ensures deadline.Some? && old(clock.time) >= deadline.value ==>
        session.log == old(session.log) + [PostDeadlinePassed(at)]
      ensures Polled(old(session.log), session.log, old(clock.Read()), clock.Read(), Due(deadline, old(clock.time)))
    {
      ghost var s, m := session.settings, session.machine;
      RunKeepsInv(s, session.maxAttempts, session.log, m);
      InFlightView(s, m);
      hide Reached, Enabled, Apply, Inv;
      if deadline.Some? {
        var now := clock.Now();
        if deadline.value - now <= 0.0 {
          DeadlineView(s, m, at);
          r := Classify(session, stage, video, TIMEOUT, at, key, None, PostDeadlinePassed(at));
          PolledNothing(old(session.log), PostDeadlinePassed(at), old(clock.Read()), clock.Read(), deadline.value);
          EndingIsIdle(s, m, PostDeadlinePassed(at));
          FailureEnding(s, m, PostDeadlinePassed(at));
          return;
        }
      }
      PostedView(s, m);
      var reply := session.SubmitTask();
      ghost var posted := clock.Read();
      r := Answered(session, stage, video, at, deadline, operation, key, reply);
      if Sent(reply) {
        PolledAfter(old(session.log), Posted, session.log, old(clock.Read()), posted, clock.Read(),
                    Due(deadline, old(clock.time)), Due(deadline, posted.time));
      } else {
        PolledLater(old(session.log), session.log, old(clock.Read()), posted, clock.Read(),
                    Due(deadline, old(clock.time)), Due(deadline, posted.time));
      }
    }

    /** Once the POST is answered. */
    method Answered(
      session: Session, stage: Stage, video: Video, at: real, deadline: Option<real>, operation: Operation, key: Key,
      reply: PostReply
    ) returns (r: SubmissionOutcome)
      requires session.Valid() && session.heard == Some(ToPost(reply))
      requires session.db == Db(stage.Value(), video.summary)
      requires session.machine.phase == (if Sent(reply) then Answering(operation, key) else Submitting(operation, key))
      modifies session, stage, video, clock
      ensures Attempted(session, stage, video, old(session.db), r)
      ensures Polled(old(session.log), session.log, old(clock.Read()), clock.Read(), Due(deadline, old(clock.time)))
    {
      ghost var s, m := session.settings, session.machine;
      RunKeepsInv(s, session.maxAttempts, session.log, m);
      InFlightView(s, m);
      PostAnswerView(s, m, reply, at);
      hide Reached, Enabled, Apply, Inv, BrokerGateway.SubmitTask;
      match BrokerGateway.SubmitTask(reply, key) {
        case Err(err) =>
          hide ErrorRow, NextEpoch;
          r := Classify(session, stage, video, err, at, key, None, PostRefused(reply, at));
          PolledNothing(old(session.log), PostRefused(reply, at), clock.Read(), clock.Read(),
                        Due(deadline, clock.time));
          EndingIsIdle(s, m, PostRefused(reply, at));
          FailureEnding(s, m, PostRefused(reply, at));
        case Ok(accepted) =>
          r := Accept(session, stage, video, at, deadline, operation, key, accepted, TaskAccepted(reply));
      }
    }

    /** The task id and the key become durable together, then the polls begin. */
    method Accept(
      session: Session, stage: Stage, video: Video, at: real, deadline: Option<real>, operation: Operation, key: Key,
      accepted: AcceptedTask, ghost e: Event
    ) returns (r: SubmissionOutcome)
      requires session.Valid() && Enabled(session.settings, session.machine, e) && session.heard == ActsOn(e)
      requires !e.ResultPolled? && !Expires(e)
      requires session.db == Db(stage.Value(), video.summary)
      requires stage.key == Some(key) && accepted.key == key
      requires Apply(session.settings, session.machine, e).db
        == session.db.(row := AcceptRow(session.db.row, accepted.taskId, key))
      requires Apply(session.settings, session.machine, e).phase == Polling(operation, key, accepted.taskId)
      modifies session, stage, video, clock
      ensures Attempted(session, stage, video, old(session.db), r)
      ensures Polled(old(session.log), session.log, old(clock.Read()), clock.Read(), Due(deadline, old(clock.time)))
    {
      hide Reached, Enabled, Apply;
      stage.taskId := Some(accepted.taskId);
      stage.key := Some(accepted.key);
      stage.reconciliation := Accepted;
      session.Commit(stage, video, e);
      hide Ends, AcceptRow, Polled;
      r := AwaitResult(session, stage, video, at, deadline, operation, key, accepted.taskId);
      PolledAfter(old(session.log), e, session.log, old(clock.Read()), old(clock.Read()), clock.Read(),
                  Due(deadline, old(clock.time)), Due(deadline, old(clock.time)));
      EndsAfterAcceptance(old(session.db), accepted.taskId, accepted.key, session.db, r);
    }

    /** Once the task id is durable. */
    method AwaitResult(
      session: Session, stage: Stage, video: Video, at: real, deadline: Option<real>, operation: Operation, key: Key,
      task: TaskId
    ) returns (r: SubmissionOutcome)
      requires session.Valid() && session.heard.None? && session.db == Db(stage.Value(), video.summary)
      requires session.machine.phase == Polling(operation, key, task)
      modifies session, stage, video, clock
      ensures Attempted(session, stage, video, old(session.db), r)
      ensures Polled(old(session.log), session.log, old(clock.Read()), clock.Read(), Due(deadline, old(clock.time)))
    {
      ghost var s, m := session.settings, session.machine;
      RunKeepsInv(s, session.maxAttempts, session.log, m);
      InFlightView(s, m);
      hide Reached, Enabled, Apply, Inv;
      var until: real;
      if deadline.Some? {
        until := deadline.value;
      } else {
        var now := clock.Now();
        until := now + timeoutSeconds;
      }
      ghost var e: Event;
      ghost var started := clock.Read();
      r, e := PollUntil(session, stage, video, at, until, key, task, operation);
      PolledLater(old(session.log), session.log, old(clock.Read()), started, clock.Read(),
                  Due(deadline, old(clock.time)), until);
      EndingIsIdle(s, m, e);
      if r.Done? {
        StoringEnds(s, old(session.db), r.text);
      } else {
        FailureEnding(s, m, e);
      }
    }

    /** `attempt`: crash residue is quarantined without any request; otherwise
        the key is durable before the POST and the task id before the polls. */
    method Attempt(
      session: Session, stage: Stage, video: Video, context: Context, at: real, operation: Operation,
      deadline: Option<real>
    ) returns (r: SubmissionOutcome)
      requires session.Valid() && session.heard.None?
      requires session.machine.phase.Idle? && Attemptable(session.db.row, at)
      requires stage.Value() == session.db.row.(attemptCount := session.db.row.attemptCount + 1)
      requires video.summary == session.db.summary
      requires context == Context(session.settings.stageId, session.db.row.epoch)
      requires !Residue(session.db.row) ==> Decide(session.settings, session.db.row.plan) == Submit(operation)
      modifies session, stage, video, clock
      ensures session.Valid() && session.heard.None? && session.machine.phase.Idle?
      ensures session.db == Db(stage.Value(), video.summary)
      ensures Residue(old(session.db.row)) ==>
        && r == NotDone(Disposition.Quarantine)
        && session.log == old(session.log) + [ResidueQuarantined(at)]
        && clock.Read() == old(clock.Read())
        && session.db == old(session.db).(row := ResidueRow(old(session.db.row), at))
      ensures Concludes(old(session.db), session.db, r)
      ensures !Residue(old(session.db.row)) && deadline.Some? && old(clock.time) >= deadline.value ==>
        session.log == old(session.log) + [StagePrepared(at), PostDeadlinePassed(at)]
      ensures Polled(old(session.log), session.log, old(clock.Read()), clock.Read(), Due(deadline, old(clock.time)))
    {
      ghost var s, m := session.settings, session.machine;
      RunKeepsInv(s, session.maxAttempts, session.log, m);
      if stage.reconciliation == Prepared || stage.reconciliation == Accepted {
        var task := if stage.reconciliation == Accepted then stage.taskId else None;
        ResidueView(s, m, at);
        TimeoutEnding(stage.Value(), at, stage.key, task);
        hide Reached, Enabled, Apply, Inv, TimeoutRow;
        r := Quarantine(session, stage, video, at, stage.key, task, ResidueQuarantined(at));
        PolledNothing(old(session.log), ResidueQuarantined(at), clock.Read(), clock.Read(), Due(deadline, clock.time));
        return;
      }
      var key := KeyOf(context.stageId, context.epoch, operation);
      PrepareView(s, m, at, operation);
      hide Reached, Enabled, Apply, Decide;
      stage.key := Some(key);
      stage.reconciliation := Prepared;
      session.Commit(stage, video, StagePrepared(at));
      hide Ends, Concludes, Inv, PrepareRow, Polled;
      r := SubmitPrepared(session, stage, video, at, deadline, operation, key);
      PolledAfter(old(session.log), StagePrepared(at), session.log, old(clock.Read()), old(clock.Read()), clock.Read(),
                  Due(deadline, old(clock.time)), Due(deadline, old(clock.time)));
      EndsAfterPreparation(old(session.db), key, session.db, r);
    }
  }
}
