/** Every event keeps the protocol's invariant. */
module ProtocolSteps {
  import opened Prelude
  import opened SummaryGateway
  import opened BrokerGateway
  import opened SummaryRow
  import opened FailurePolicy
  import opened BrokerProtocol
  import opened ProtocolInvariant
  import Chunking

  // -------------------------------------------------- the current operation

  lemma PlanShape(s: Settings, plan: Chunking.Plan)
    requires PlanInv(s, Some(plan))
    ensures |plan.steps| == LastStep(s) + 1 >= 3
    ensures plan.steps[|plan.steps| - 1].Final?
    ensures forall i :: 0 <= i < |plan.steps| - 1 ==> plan.steps[i].Partial?
    ensures 0 <= plan.nextStep < |plan.steps|
    ensures plan.steps[plan.nextStep].Partial? ==>
      plan.nextStep + 1 < |plan.steps| && plan.steps[plan.nextStep].ordinal == plan.nextStep
    ensures plan.steps[plan.nextStep].Final? ==> plan.nextStep + 1 == |plan.steps|
  {
    var built := Chunking.BuildPlan(s.transcript, s.chunking).value.value;
    Chunking.BuilderMeetsValidator(s.transcript, s.chunking);
    hide Chunking.BuildPlan;
    forall i | 0 <= i < |plan.steps|
      ensures SameRange(plan.steps[i], built.steps[i])
    {
    }
    var limits := Chunking.SplitLimits(Chunking.ActiveConfig(plan.config)).value;
    assert Chunking.StepOk(plan.steps, plan.nextStep, |s.transcript|, limits.0, limits.1);
  }

  /** The key of the current operation ranks at the row's progress. */
  lemma SubmitRank(s: Settings, row: Row)
    requires PlanInv(s, row.plan) && Decide(s, row.plan).Submit?
    ensures StepInRange(row)
    ensures 0 <= StepIndex(row.plan) <= LastStep(s)
    ensures var operation := Decide(s, row.plan).operation;
      && Rank(s, KeyOf(s.stageId, row.epoch, operation)) == Progress(row)
      && (operation.kind == PARTIAL <==> AtPartial(row))
  {
    hide Chunking.BuildPlan, Chunking.PlanOk, Chunking.EstimatedRequestTokens;
    if row.plan.Some? {
      PlanShape(s, row.plan.value);
    }
  }

  // ----------------------------------------------------- how a failure ends

  ghost predicate Quarantines(row: Row, after: Row, task: Option<TaskId>) {
    && after.quarantinedAt.Some?
    && after == row.(failureClass := after.failureClass, failureCode := after.failureCode, nextAttemptAt := None,
                     quarantinedAt := after.quarantinedAt, reconciliation := AwaitingOperator,
                     nextReconcileAt := None, status := PendingRetry, taskId := task)
  }

  ghost predicate GivesUp(row: Row, after: Row, task: Option<TaskId>) {
    && after == row.(failureClass := after.failureClass, failureCode := after.failureCode, nextAttemptAt := None,
                     history := after.history, reconciliation := NotReconciling, status := Failed,
                     plan := None, taskId := task)
    && (after.history == row.history || Appends(row, after))
  }

  ghost predicate Retries(row: Row, after: Row) {
    && after == row.(failureClass := after.failureClass, failureCode := after.failureCode,
                     nextAttemptAt := after.nextAttemptAt, history := after.history, epoch := row.epoch + 1,
                     reconciliation := NotReconciling, status := PendingRetry, taskId := None, key := None)
    && Appends(row, after)
    && row.attemptCount < row.maxAttempts
  }

  ghost predicate Appends(row: Row, after: Row) {
    && |after.history| == |row.history| + 1
    && after.history[..|row.history|] == row.history
    && after.history[|row.history|].epoch == row.epoch
  }

  lemma HistoryNeverTruncated(row: Row, outcome: Outcome, at: real)
    requires EpochInv(row) && HistoryInv(row) && row.status != Failed
    ensures Appends(row, NoteHistory(row, outcome, at))
  {
  }

  /** The broker reported the task as failed with a safe class, and attempts are
      left. */
  predicate SafelyFailed(row: Row, err: BrokerError) {
    && err.code == "broker_task_failed"
    && err.failureClass.Some?
    && err.failureClass.value in SAFE_CLASSES
    && row.attemptCount < row.maxAttempts
  }

  lemma OutcomeMeaning(row: Row, err: BrokerError, at: real, task: Option<TaskId>)
    requires Possible(err, task) && row.attemptCount > 0
    ensures var outcome := ErrorOutcome(row, err, at, KnownTask(task, err));
      && (outcome.disposition == Retry <==> SafelyFailed(row, err))
      && (outcome.disposition == Retry ==> KnownTask(task, err).Some? && outcome.failureClass in SAFE_CLASSES)
      && (outcome.disposition != Retry ==> outcome.retryAt.None?)
      && (outcome.disposition == Quarantine ==>
            outcome.failureClass !in SAFE_CLASSES || err.code != "broker_task_failed")
      && (outcome.disposition == Terminal && outcome.failureClass in SAFE_CLASSES ==>
            row.attemptCount >= row.maxAttempts)
  {
    hide Backoff;
  }

  /** The three endings of an error: quarantine, failure, or a retry in a new
      epoch; the last exactly for a task that the broker itself reported as
      failed with a safe class while attempts remain. */
  lemma ErrorEndings(row: Row, err: BrokerError, at: real, key: Key, task: Option<TaskId>)
    requires EpochInv(row) && HistoryInv(row) && Outstanding(row) && row.status != Failed
    requires Possible(err, task) && row.taskId == task && row.key == Some(key)
    ensures var after := ErrorRow(row, err, at, key, task);
      var known := KnownTask(task, err);
      Quarantines(row, after, known) || GivesUp(row, after, known) || Retries(row, after)
    ensures Retries(row, ErrorRow(row, err, at, key, task)) <==> SafelyFailed(row, err)
  {
    var known := KnownTask(task, err);
    var correlated := Correlate(row, known, Some(key));
    assert correlated == row.(taskId := known);
    OutcomeMeaning(correlated, err, at, task);
    var outcome := ErrorOutcome(correlated, err, at, known);
    var noted := NoteFailure(correlated, outcome);
    HistoryNeverTruncated(noted, outcome, at);
    hide NoteHistory, Appends, HistoryInv, ErrorOutcome;
  }

  lemma TimeoutEnding(row: Row, at: real, key: Option<Key>, task: Option<TaskId>)
    requires key.Some? ==> row.key == key
    requires task.Some? ==> row.taskId == task
    ensures Quarantines(row, TimeoutRow(row, at, key, task), row.taskId)
  {
  }

  /** A cancelled or expired task is quarantined, although its own code is in the
      table of terminal codes: the broker's code and class replace it. */
  lemma CancelledTaskIsQuarantined(row: Row, reply: GetReply, task: TaskId, key: Key, partial: bool, at: real)
    requires reply.GetAnswered? && reply.httpStatus == 200 && (reply.body.TaskCancelled? || reply.body.TaskExpired?)
    requires row.taskId == Some(task) && row.key == Some(key)
    ensures PollTask(reply, task, partial).Err? && PollTask(reply, task, partial).error.code in TERMINAL_CODES
    ensures Quarantines(row, ErrorRow(row, PollTask(reply, task, partial).error, at, key, Some(task)), Some(task))
  {
  }

  // ------------------------------------------------ the invariant afterwards

  lemma AfterQuarantine(s: Settings, m: Machine, after: Row, task: Option<TaskId>)
    requires Inv(s, m) && Outstanding(m.db.row) && Quarantines(m.db.row, after, task)
    ensures Inv(s, Rest(m, after))
  {
    hide PlanInv, Increasing, Rank;
    assert RowInv(s, after);
    assert PostsInv(s, Rest(m, after));
  }

  lemma AfterGivingUp(s: Settings, m: Machine, after: Row, task: Option<TaskId>)
    requires Inv(s, m) && Residue(m.db.row) && GivesUp(m.db.row, after, task)
    ensures Inv(s, Rest(m, after))
  {
    hide Increasing, Rank;
    var row := m.db.row;
    forall i | 0 <= i < |after.history|
      ensures after.history[i].epoch == i
    {
      if i < |row.history| {
        assert after.history[..|row.history|][i] == after.history[i];
      }
    }
    assert RowInv(s, after);
    assert PostsInv(s, Rest(m, after));
  }

  lemma AfterRetry(s: Settings, m: Machine, after: Row)
    requires Inv(s, m) && Residue(m.db.row) && Retries(m.db.row, after)
    ensures Inv(s, Rest(m, after))
  {
    hide PlanInv, Increasing, Rank;
    var row := m.db.row;
    forall i | 0 <= i < |after.history|
      ensures after.history[i].epoch == i
    {
      if i < |row.history| {
        assert after.history[..|row.history|][i] == after.history[i];
      }
    }
  }

  lemma AfterError(s: Settings, m: Machine, err: BrokerError, at: real, key: Key, task: Option<TaskId>)
    requires Inv(s, m) && Residue(m.db.row)
    requires Possible(err, task) && m.db.row.taskId == task && m.db.row.key == Some(key)
    ensures Inv(s, Rest(m, ErrorRow(m.db.row, err, at, key, task)))
  {
    ErrorEndings(m.db.row, err, at, key, task);
    hide Inv, ErrorRow, Quarantines, GivesUp, Retries;
    var after := ErrorRow(m.db.row, err, at, key, task);
    var known := KnownTask(task, err);
    if Quarantines(m.db.row, after, known) {
      AfterQuarantine(s, m, after, known);
    } else if GivesUp(m.db.row, after, known) {
      AfterGivingUp(s, m, after, known);
    } else {
      AfterRetry(s, m, after);
    }
  }

  // ------------------------------------------------------- event by event

  lemma SavingKeeps(s: Settings, m: Machine, at: real)
    requires Inv(s, m) && Enabled(s, m, PlanSaved(at))
    ensures Inv(s, Apply(s, m, PlanSaved(at)))
  {
    Chunking.BuilderMeetsValidator(s.transcript, s.chunking);
  }

  lemma PreparingKeeps(s: Settings, m: Machine, at: real)
    requires Inv(s, m) && Enabled(s, m, StagePrepared(at))
    ensures Inv(s, Apply(s, m, StagePrepared(at)))
  {
    SubmitRank(s, m.db.row);
    hide PlanInv, Increasing, Rank, Decide;
  }

  lemma PostingKeeps(s: Settings, m: Machine)
    requires Inv(s, m) && Enabled(s, m, Posted)
    ensures Inv(s, Apply(s, m, Posted))
  {
    SubmitRank(s, m.db.row);
    hide PlanInv, Rank, Decide;
  }

  lemma AcceptingKeeps(s: Settings, m: Machine, post: PostReply)
    requires Inv(s, m) && Enabled(s, m, TaskAccepted(post))
    ensures Inv(s, Apply(s, m, TaskAccepted(post)))
  {
    hide PlanInv, Increasing, Rank, Decide, SubmitTask, LastStep;
    AcceptedKey(post, m.phase.key);
    var accepted := SubmitTask(post, m.phase.key).value;
    assert RowInv(s, AcceptRow(m.db.row, accepted.taskId, accepted.key));
  }

  lemma TasksDoNotMatter(s: Settings, m: Machine, tasks: map<TaskId, Operation>)
    requires Inv(s, m)
    ensures Inv(s, m.(tasks := tasks))
  {
    hide RowInv, Increasing, Rank;
  }

  lemma RefusalKeeps(s: Settings, m: Machine, post: PostReply, at: real)
    requires Inv(s, m) && Enabled(s, m, PostRefused(post, at))
    ensures Inv(s, Apply(s, m, PostRefused(post, at)))
  {
    var err := SubmitTask(post, m.phase.key).error;
    SubmitErrors(post, m.phase.key);
    AfterError(s, m, err, at, m.phase.key, None);
    hide Inv, ErrorRow, Possible;
    var rested := Rest(m, ErrorRow(m.db.row, err, at, m.phase.key, None));
    TasksDoNotMatter(s, rested, Remember(m.tasks, err.taskId, m.phase.operation));
  }

  lemma DeadlineKeeps(s: Settings, m: Machine, e: Event, at: real)
    requires e == PostDeadlinePassed(at) || e == PollDeadlinePassed(at)
    requires Inv(s, m) && Enabled(s, m, e)
    ensures Inv(s, Apply(s, m, e))
  {
    var row := m.db.row;
    var task := if e.PollDeadlinePassed? then Some(m.phase.task) else None;
    var key := Some(m.phase.key);
    TimeoutEnding(row, at, key, task);
    assert e.PostDeadlinePassed? ==>
      ErrorRow(row, TIMEOUT, at, m.phase.key, None) == TimeoutRow(row, at, key, task);
    AfterQuarantine(s, m, TimeoutRow(row, at, key, task), row.taskId);
    hide Inv, TimeoutRow;
  }

  lemma PollRefusalKeeps(s: Settings, m: Machine, reply: GetReply, at: real)
    requires Inv(s, m) && Enabled(s, m, PollRefused(reply, at))
    ensures Inv(s, Apply(s, m, PollRefused(reply, at)))
  {
    PollErrors(reply, m.phase.task, m.phase.operation.kind == PARTIAL);
    hide PollTask;
    AfterError(s, m, PollAnswer(m, reply).error, at, m.phase.key, Some(m.phase.task));
    hide Inv, ErrorRow;
  }

  lemma ResidueKeeps(s: Settings, m: Machine, at: real)
    requires Inv(s, m) && Enabled(s, m, ResidueQuarantined(at))
    ensures Inv(s, Apply(s, m, ResidueQuarantined(at)))
  {
    var row := m.db.row;
    var counted := row.(attemptCount := row.attemptCount + 1);
    var m' := m.(db := m.db.(row := counted));
    assert Inv(s, m') by {
      hide PlanInv, Increasing, Rank;
      assert RowInv(s, counted);
    }
    var task := if row.reconciliation == Accepted then row.taskId else None;
    TimeoutEnding(counted, at, row.key, task);
    AfterQuarantine(s, m', ResidueRow(row, at), row.taskId);
    hide Inv;
  }

  lemma LocalFailureIsTerminal(row: Row, code: string, at: real)
    ensures LocalFailureRow(row, code, at).status == Failed
  {
  }

  lemma LocalFailureKeeps(s: Settings, m: Machine, at: real)
    requires Inv(s, m) && Enabled(s, m, LocallyFailed(at))
    ensures Inv(s, Apply(s, m, LocallyFailed(at)))
  {
    var code := Decide(s, m.db.row.plan).code;
    LocalFailureIsTerminal(m.db.row, code, at);
    hide Increasing, Rank, Decide, Backoff, Classify;
    assert RowInv(s, LocalFailureRow(m.db.row, code, at));
  }

  // --------------------------------------------------------- stored results

  lemma ProgressKeepsPlan(s: Settings, plan: Chunking.Plan, output: string)
    requires PlanInv(s, Some(plan)) && output != ""
    requires 0 <= plan.nextStep < |plan.steps| && plan.steps[plan.nextStep].Partial?
    ensures PlanInv(s, Some(Chunking.CompleteStep(plan, output)))
  {
    PlanShape(s, plan);
    Chunking.CompletionKeepsPlanValid(plan, s.transcript, output);
    hide Chunking.PlanOk, Chunking.BuildPlan;
  }

  ghost predicate Advances(row: Row, after: Row, output: string)
    requires StepInRange(row) && AtPartial(row)
  {
    after == row.(
      attemptCount := Max(0, row.attemptCount - 1), plan := Some(Chunking.CompleteStep(row.plan.value, output)),
      status := PendingRetry, taskId := None, key := None, failureClass := None, failureCode := None,
      nextAttemptAt := None, quarantinedAt := None, reconciliation := NotReconciling, nextReconcileAt := None)
  }

  ghost predicate Finishes(row: Row, after: Row) {
    && after.attemptCount <= row.attemptCount <= after.attemptCount + 1
    && after == row.(
      attemptCount := after.attemptCount, plan := None, status := Completed, failureClass := None,
      failureCode := None, nextAttemptAt := after.nextAttemptAt, quarantinedAt := None,
      reconciliation := NotReconciling, nextReconcileAt := None)
  }

  /** A stored result moves the plan on by one partial step or ends the stage. */
  lemma StoringEnds(s: Settings, db: Db, output: string)
    requires RowInv(s, db.row) && Outstanding(db.row)
    ensures StepInRange(db.row)
    ensures AtPartial(db.row) ==>
      && Advances(db.row, StoreOutput(db, output).row, output)
      && ReconcileStore(db, output) == StoreOutput(db, output)
      && StoreOutput(db, output).summary == db.summary
    ensures !AtPartial(db.row) ==>
      && Finishes(db.row, StoreOutput(db, output).row)
      && Finishes(db.row, ReconcileStore(db, output).row)
      && StoreOutput(db, output).summary == ReconcileStore(db, output).summary == Some(output)
  {
    if db.row.plan.Some? {
      PlanShape(s, db.row.plan.value);
    }
    hide PlanInv, KeyInv;
  }

  lemma PostsAfterProgress(s: Settings, m: Machine, after: Row)
    requires PostsInv(s, m) && Live(m.db.row) && after.maxAttempts == m.db.row.maxAttempts
    requires Progress(after) == Progress(m.db.row) + 1
    ensures PostsInv(s, Rest(m, after))
  {
    hide Increasing, Rank, LastStep, Progress;
  }

  lemma RowAfterProgress(s: Settings, row: Row, after: Row, output: string)
    requires RowInv(s, row) && Outstanding(row) && StepInRange(row) && AtPartial(row)
    requires Advances(row, after, output) && PlanInv(s, after.plan)
    ensures RowInv(s, after) && Live(row) && Live(after) && Progress(after) == Progress(row) + 1
  {
    hide PlanInv, KeyInv, HistoryInv;
    assert KeyInv(s, after) by {
      SettledHasKeyInv(s, after);
    }
    assert HistoryInv(after) by {
      SameHistory(row, after);
    }
  }

  lemma SettledHasKeyInv(s: Settings, row: Row)
    requires !Outstanding(row)
    ensures KeyInv(s, row)
  {
  }

  lemma SameHistory(row: Row, after: Row)
    requires HistoryInv(row) && after.history == row.history && after.epoch == row.epoch
    requires row.status != Failed && after.status != Failed
    ensures HistoryInv(after)
  {
  }

  lemma AfterProgress(s: Settings, m: Machine, after: Row, output: string)
    requires Inv(s, m) && Outstanding(m.db.row) && StepInRange(m.db.row) && AtPartial(m.db.row)
    requires Advances(m.db.row, after, output) && output != ""
    ensures Inv(s, Rest(m, after))
  {
    hide PlanInv, PostsInv, RowInv;
    assert PlanInv(s, m.db.row.plan) by {
      PlanOfRow(s, m.db.row);
    }
    ProgressKeepsPlan(s, m.db.row.plan.value, output);
    RowAfterProgress(s, m.db.row, after, output);
    PostsAfterProgress(s, m, after);
  }

  lemma PlanOfRow(s: Settings, row: Row)
    requires RowInv(s, row)
    ensures PlanInv(s, row.plan)
  {
    hide PlanInv, KeyInv, HistoryInv;
  }

  lemma AfterFinish(s: Settings, m: Machine, after: Row, output: string)
    requires Inv(s, m) && Outstanding(m.db.row) && Finishes(m.db.row, after)
    ensures Inv(s, m.(db := Db(after, Some(output)), phase := Idle))
  {
    hide Increasing, Rank;
    assert RowInv(s, after);
  }

  lemma StoringKeeps(s: Settings, m: Machine, reply: GetReply)
    requires Inv(s, m) && Enabled(s, m, OutputStored(reply))
    ensures Inv(s, Apply(s, m, OutputStored(reply)))
  {
    PolledText(reply, m.phase.task, m.phase.operation.kind == PARTIAL);
    hide PollTask;
    var output := PollAnswer(m, reply).value.value;
    StoringEnds(s, m.db, output);
    hide StoreOutput, ReconcileStore;
    if AtPartial(m.db.row) {
      AfterProgress(s, m, StoreOutput(m.db, output).row, output);
    } else {
      AfterFinish(s, m, StoreOutput(m.db, output).row, output);
    }
    hide Inv;
  }

  // --------------------------------------------------------- reconciliation

  lemma UnlockingKeeps(s: Settings, m: Machine, at: real)
    requires Inv(s, m) && Enabled(s, m, Unlocked(at))
    ensures Inv(s, Apply(s, m, Unlocked(at)))
  {
    hide PlanInv, Increasing, Rank, Decide;
    assert RowInv(s, UnlockRow(m.db.row, at));
    assert PostsInv(s, Rest(m, UnlockRow(m.db.row, at)));
  }

  lemma WaitingKeeps(s: Settings, m: Machine, reply: GetReply, at: real)
    requires Inv(s, m) && Enabled(s, m, ReconcileWaited(reply, at))
    ensures Inv(s, Apply(s, m, ReconcileWaited(reply, at)))
  {
    hide PlanInv, Increasing, Rank, Decide, ReconcileTask;
    assert RowInv(s, ReconcileWaitRow(m.db.row, at));
    assert PostsInv(s, Rest(m, ReconcileWaitRow(m.db.row, at)));
  }

  lemma ReconcileRefusalRow(s: Settings, row: Row, err: Option<BrokerError>, at: real)
    requires RowInv(s, row) && row.reconciliation == GetEligible
    ensures var after := ReconcileErrorRow(row, err, at);
      && RowInv(s, after)
      && after.status != Completed
      && (Live(after) ==> Outstanding(after) && Progress(after) == Progress(row))
      && after.maxAttempts == row.maxAttempts
  {
    assert PlanInv(s, None);
    hide PlanInv, Decide;
  }

  lemma ReconcileRefusalKeeps(s: Settings, m: Machine, reply: GetReply, at: real)
    requires Inv(s, m) && Enabled(s, m, ReconcileRefused(reply, at))
    ensures Inv(s, Apply(s, m, ReconcileRefused(reply, at)))
  {
    hide Decide, ReconcileTask, RowInv, Increasing, Rank;
    ReconcileRefusalRow(s, m.db.row, ReconcileAnswer(m, reply).error, at);
    assert m.db.summary.None? by {
      OutstandingIsOpen(s, m.db.row);
    }
    hide ReconcileErrorRow;
  }

  lemma OutstandingIsOpen(s: Settings, row: Row)
    requires RowInv(s, row) && Outstanding(row)
    ensures Live(row)
  {
  }

  lemma ReconcileStoringKeeps(s: Settings, m: Machine, reply: GetReply, at: real)
    requires Inv(s, m) && Enabled(s, m, ReconcileStored(reply, at))
    ensures Inv(s, Apply(s, m, ReconcileStored(reply, at)))
  {
    PolledText(reply, m.db.row.taskId.value, AtPartial(m.db.row));
    assert ReconcileAnswer(m, reply).value.value != "";
    hide PollTask, ReconcileTask;
    var output := ReconcileAnswer(m, reply).value.value;
    StoringEnds(s, m.db, output);
    hide StoreOutput, ReconcileStore;
    if AtPartial(m.db.row) {
      AfterProgress(s, m, ReconcileStore(m.db, output).row, output);
    } else {
      AfterFinish(s, m, ReconcileStore(m.db, output).row, output);
    }
    hide Inv;
  }

  // ------------------------------------------------------------ all together

  lemma StepKeepsInv(s: Settings, m: Machine, e: Event)
    requires Inv(s, m) && Enabled(s, m, e)
    ensures Inv(s, Apply(s, m, e))
  {
    match e {
      case PlanSaved(at) => SavingKeeps(s, m, at);
      case StagePrepared(at) => PreparingKeeps(s, m, at);
      case Posted => PostingKeeps(s, m);
      case PostDeadlinePassed(at) => DeadlineKeeps(s, m, e, at);
      case PostRefused(post, at) => RefusalKeeps(s, m, post, at);
      case TaskAccepted(post) => AcceptingKeeps(s, m, post);
      case PollDeadlinePassed(at) => DeadlineKeeps(s, m, e, at);
      case PollRefused(reply, at) => PollRefusalKeeps(s, m, reply, at);
      case OutputStored(reply) => StoringKeeps(s, m, reply);
      case ResidueQuarantined(at) => ResidueKeeps(s, m, at);
      case LocallyFailed(at) => LocalFailureKeeps(s, m, at);
      case Unlocked(at) => UnlockingKeeps(s, m, at);
      case ReconcileWaited(reply, at) => WaitingKeeps(s, m, reply, at);
      case ReconcileRefused(reply, at) => ReconcileRefusalKeeps(s, m, reply, at);
      case ReconcileStored(reply, at) => ReconcileStoringKeeps(s, m, reply, at);
      case ReconcilePlanRejected(at) => hide PlanInv;
      case ResultPolled => hide Inv;
      case ReconcilePolled(at) => hide Inv;
      case Crashed => hide RowInv, Increasing, Rank;
    }
  }
}
