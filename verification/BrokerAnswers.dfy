/**
 What every answer of the broker comes to for the durable row, said of the
 answers themselves (app/services/broker_gateway.py,
 app/services/broker_submission.py, app/services/summary_failure_policy.py and
 the reconciler of app/services/pipeline.py).
 */
module BrokerAnswers {
  import opened Prelude
  import opened SummaryGateway
  import opened BrokerGateway
  import opened SummaryRow
  import opened FailurePolicy
  import opened BrokerProtocol
  import opened ProtocolInvariant
  import opened ProtocolSteps
  import opened ProtocolTheorems
  import SummaryOutput
  import Chunking

  // ------------------------------------------------------------------ POST

  /** The POST left, or may have left, without an answer that settles whether
      there is a task. */
  predicate Ambiguous(reply: PostReply) {
    match reply
    case RequestTooLarge => false
    case PostAnswered(status, _, _, _) => status == 200 || status == 201 || status == 202
    case _ => true
  }

  function PostCode(reply: PostReply): string {
    match reply
    case RequestTooLarge => "broker_input_too_large"
    case DeadlineBeforePost => "broker_timeout"
    case PostTransportFailed => "broker_transport_error"
    case DeadlineAfterPost => "broker_timeout"
    case PostUnexpected => "broker_task_indeterminate"
    case PostAnswered(status, location, _, problem) =>
      if status == 200 || status == 201 || status == 202 then
        if location.None? then "broker_location_invalid" else "broker_protocol_error"
      else RejectionCode(problem)
  }

  function RejectionCode(problem: Option<string>): string {
    if problem == Some("unauthorized") then "broker_unauthorized"
    else if problem == Some("invalid_request") || problem == Some("unprocessable") then "broker_invalid_request"
    else "broker_protocol_error"
  }

  /** Waiting for the operator, with the plan and the key kept. */
  ghost predicate Waits(row: Row, after: Row, at: real) {
    && after.status == PendingRetry
    && after.quarantinedAt == Some(at)
    && after.reconciliation == AwaitingOperator
    && after.nextAttemptAt.None?
    && after.plan == row.plan
    && after.key == row.key
    && after.epoch == row.epoch
    && after.attemptCount == row.attemptCount
  }

  ghost predicate Fails(row: Row, after: Row) {
    && after.status == Failed
    && after.quarantinedAt.None?
    && after.reconciliation == NotReconciling
    && after.nextAttemptAt.None?
    && after.plan.None?
    && after.epoch == row.epoch
    && after.attemptCount == row.attemptCount
  }

  /** What is made of a POST that gives no task. */
  ghost predicate PostEnds(row: Row, reply: PostReply, at: real, after: Row) {
    && (if Ambiguous(reply) then Waits(row, after, at) else Fails(row, after))
    && after.failureCode == Some(PostCode(reply))
    && after.failureClass == Some(if Ambiguous(reply) then "indeterminate" else "permanent")
    && after.taskId == NamedTask(reply)
    && after.key == row.key
    && after.history == row.history
  }

  /** The task that an ambiguous answer may name. */
  function NamedTask(reply: PostReply): Option<TaskId> {
    if Ambiguous(reply) && reply.PostAnswered? then reply.location else None
  }

  lemma PostErrorIs(reply: PostReply, key: Key)
    requires BrokerGateway.SubmitTask(reply, key).Err?
    ensures BrokerGateway.SubmitTask(reply, key).error == BrokerError(PostCode(reply), None, None, NamedTask(reply))
    ensures PostCode(reply) in {
      "broker_timeout", "broker_transport_error", "broker_task_indeterminate", "broker_location_invalid",
      "broker_protocol_error", "broker_input_too_large", "broker_unauthorized", "broker_invalid_request"}
    ensures Ambiguous(reply) <==> LeavesOpen(PostCode(reply), NamedTask(reply))
  {
  }

  predicate LeavesOpen(code: string, task: Option<TaskId>) {
    || code == "broker_timeout"
    || code == "broker_transport_error"
    || code == "broker_task_indeterminate"
    || code == "broker_location_invalid"
    || (code == "broker_protocol_error" && task.Some?)
  }

  lemma PostOutcome(row: Row, code: string, task: Option<TaskId>, at: real)
    requires code in {
      "broker_timeout", "broker_transport_error", "broker_task_indeterminate", "broker_location_invalid",
      "broker_protocol_error", "broker_input_too_large", "broker_unauthorized", "broker_invalid_request"}
    ensures ErrorOutcome(row, BrokerError(code, None, None, task), at, task) ==
      if LeavesOpen(code, task) then Outcome("indeterminate", code, Quarantine, None)
      else Outcome("permanent", code, Terminal, None)
  {
    hide Backoff;
  }

  lemma PostErrorEnds(row: Row, reply: PostReply, key: Key, at: real)
    requires BrokerGateway.SubmitTask(reply, key).Err?
    requires row.taskId.None? && row.key == Some(key) && row.quarantinedAt.None?
    ensures PostEnds(row, reply, at, ErrorRow(row, BrokerGateway.SubmitTask(reply, key).error, at, key, None))
  {
    hide BrokerGateway.SubmitTask, ErrorOutcome, PostCode, Ambiguous, LeavesOpen, CanAdvanceEpoch;
    PostErrorIs(reply, key);
    var correlated := row.(taskId := NamedTask(reply));
    PostOutcome(correlated, PostCode(reply), NamedTask(reply), at);
    assert Correlate(row, NamedTask(reply), Some(key)) == correlated;
    assert PostCode(reply) != "broker_task_failed";
    NeverConfirmed(NamedTask(reply), correlated, ErrorOutcome(
      correlated, BrokerError(PostCode(reply), None, None, NamedTask(reply)), at, NamedTask(reply)));
  }

  lemma NeverConfirmed(task: Option<TaskId>, row: Row, o: Outcome)
    ensures !CanAdvanceEpoch(
      false, task, row.taskId, o.failureClass, row.attemptCount, row.maxAttempts, row.epoch)
  {
  }

  lemma PostRefusedView(s: Settings, m: Machine, reply: PostReply, at: real)
    requires Inv(s, m) && Enabled(s, m, PostRefused(reply, at))
    ensures m.phase.Submitting? || m.phase.Answering?
    ensures BrokerGateway.SubmitTask(reply, m.phase.key).Err?
    ensures Apply(s, m, PostRefused(reply, at)).db.row
      == ErrorRow(m.db.row, BrokerGateway.SubmitTask(reply, m.phase.key).error, at, m.phase.key, None)
    ensures m.db.row.taskId.None? && m.db.row.key == Some(m.phase.key) && m.db.row.quarantinedAt.None?
  {
    hide PlanInv, PostsInv, KeyInv, Decide, HistoryInv, BrokerGateway.SubmitTask, BrokerGateway.PollTask, ErrorRow;
  }

  /** A POST that gives no task ends in quarantine exactly if it is ambiguous, and
      in failure otherwise; it is never sent again by itself. */
  lemma PostRefusalEndsIff(s: Settings, m: Machine, reply: PostReply, at: real)
    requires Inv(s, m) && Enabled(s, m, PostRefused(reply, at))
    ensures PostEnds(m.db.row, reply, at, Apply(s, m, PostRefused(reply, at)).db.row)
  {
    hide Inv, Enabled, Apply, PostEnds, ErrorRow, BrokerGateway.SubmitTask;
    PostRefusedView(s, m, reply, at);
    PostErrorEnds(m.db.row, reply, m.phase.key, at);
  }

  /** A POST gives a task exactly if it is answered 201 or 202 with a location and
      a well-formed envelope; the row then names the task of that location. */
  lemma PostAcceptedIff(s: Settings, m: Machine, reply: PostReply)
    ensures Enabled(s, m, TaskAccepted(reply)) <==>
      && m.phase.Answering?
      && reply.PostAnswered?
      && (reply.httpStatus == 201 || reply.httpStatus == 202)
      && reply.location.Some?
      && reply.envelopeValid
    ensures Enabled(s, m, TaskAccepted(reply)) ==>
      var after := Apply(s, m, TaskAccepted(reply)).db.row;
      after == m.db.row.(taskId := reply.location, key := Some(m.phase.key), reconciliation := Accepted)
  {
  }

  /** A timeout, before the POST, while polling or found as residue, leaves the
      stage to the operator with whatever is known about the task. */
  lemma TimeoutEffect(s: Settings, m: Machine, e: Event)
    requires Inv(s, m) && Enabled(s, m, e) && (e.PostDeadlinePassed? || e.PollDeadlinePassed? || e.ResidueQuarantined?)
    ensures var row, after := m.db.row, Apply(s, m, e).db.row;
      && Waits(if e.ResidueQuarantined? then row.(attemptCount := row.attemptCount + 1) else row, after, e.at)
      && after.taskId == row.taskId
      && after.history == row.history
      && after.failureCode == Some("broker_timeout")
      && after.failureClass == Some("indeterminate")
  {
    hide PlanInv, PostsInv, KeyInv, Decide, HistoryInv, BrokerGateway.SubmitTask, BrokerGateway.PollTask,
      BrokerGateway.ReconcileTask;
  }

  // ------------------------------------------------------------- result GET

  /** The broker reports the task as failed, in the form it must have. */
  predicate Reported(reply: GetReply) {
    && reply.GetAnswered?
    && reply.httpStatus == 200
    && reply.body.TaskFailed?
    && WellFormedClass(reply.body.failureClass)
    && reply.body.brokerCode != ""
    && reply.body.message != ""
  }

  predicate Safe(reply: GetReply) {
    && Reported(reply)
    && (reply.body.failureClass == "transient_safe" || reply.body.failureClass == "transient_unsent")
  }

  /** A failure class, or else a broker code, that is final. */
  predicate Hopeless(failureClass: string, code: string) {
    && failureClass != "indeterminate"
    && (|| failureClass in {"client_invalid", "policy_rejected", "backend_rejected", "output_invalid", "internal"}
        || code in {
             "broker_output_invalid", "broker_output_incomplete", "broker_task_failed", "broker_task_cancelled",
             "broker_task_expired", "broker_invalid_request", "broker_input_too_large", "broker_protocol_error",
             "broker_chunk_plan_invalid", "broker_location_invalid", "broker_unauthorized"})
  }

  predicate Unprocessable(body: ResultBody, partial: bool) {
    && body.Succeeded?
    && body.envelopeValid
    && (|| body.finishReason != "stop"
        || (partial && SummaryOutput.ValidateBrokerPartialOutput(body.content).None?)
        || (!partial && SummaryOutput.ValidateBrokerOutput(body.content).None?))
  }

  /** The answer settles that there will be no summary. */
  predicate Settled(reply: GetReply, partial: bool) {
    && reply.GetAnswered?
    && if reply.httpStatus != 200
       then reply.problem in {Some("unauthorized"), Some("invalid_request"), Some("unprocessable")}
       else
         || Unprocessable(reply.body, partial)
         || (Reported(reply) && !Safe(reply) && Hopeless(reply.body.failureClass, reply.body.brokerCode))
  }

  /** Nothing is known about the task: no usable answer, or one about a task that
      was cancelled, has expired, or failed for reasons unknown. */
  predicate Unknown(reply: GetReply) {
    match reply
    case GetTransportFailed => true
    case GetUnexpected => true
    case GetAnswered(status, body, problem) =>
      if status != 200 then problem !in {Some("unauthorized"), Some("invalid_request"), Some("unprocessable")}
      else
        match body
        case Malformed => true
        case StillPending => false
        case Succeeded(valid, _, _) => !valid
        case TaskFailed(class_, code, _) => !Reported(reply) || (!Safe(reply) && !Hopeless(class_, code))
        case TaskCancelled => true
        case TaskExpired => true
  }

  function PollCode(reply: GetReply): string {
    match reply
    case GetTransportFailed => "broker_transport_error"
    case GetUnexpected => "broker_task_indeterminate"
    case GetAnswered(status, body, problem) =>
      if status != 200 then RejectionCode(problem)
      else
        match body
        case Succeeded(valid, finish, _) =>
          if !valid then "broker_protocol_error"
          else if finish == "length" then "broker_output_incomplete" else "broker_output_invalid"
        case TaskFailed(_, code, _) => if Reported(reply) then code else "broker_protocol_error"
        case TaskCancelled => "task_cancelled"
        case TaskExpired => "task_expired"
        case _ => "broker_protocol_error"
  }

  /** Another attempt in the next epoch, after the backoff. */
  ghost predicate Retried(row: Row, after: Row, at: real) {
    && after.status == PendingRetry
    && after.quarantinedAt.None?
    && after.reconciliation == NotReconciling
    && after.epoch == row.epoch + 1
    && after.taskId.None?
    && after.key.None?
    && after.plan == row.plan
    && after.attemptCount == row.attemptCount
    && after.attemptCount >= 1
    && after.nextAttemptAt == Some(at + RetryWait(after.attemptCount))
  }

  lemma SafeClasses(c: string)
    ensures c in SAFE_CLASSES <==> c == "transient_safe" || c == "transient_unsent"
  {
  }

  /** What is made of a poll's error. */
  ghost predicate Disposed(reply: GetReply, task: TaskId, partial: bool, row: Row, at: real, err: BrokerError) {
    var o := ErrorOutcome(row, err, at, Some(task));
    && KnownTask(Some(task), err) == Some(task)
    && (o.disposition == Quarantine <==> Unknown(reply))
    && (o.disposition == Retry <==> Safe(reply) && row.attemptCount < Max(1, row.maxAttempts))
    && (o.disposition == Terminal <==>
          Settled(reply, partial) || (Safe(reply) && row.attemptCount >= Max(1, row.maxAttempts)))
    && (o.disposition == Retry && row.attemptCount >= 1 ==> o.retryAt == Some(at + RetryWait(row.attemptCount)))
    && o.failureCode == PollCode(reply)
    && (Reported(reply) ==> o.failureClass == reply.body.failureClass)
    && (err.code == "broker_task_failed" <==> Reported(reply))
  }

  lemma ReportDisposed(reply: GetReply, task: TaskId, partial: bool, row: Row, at: real)
    requires Reported(reply)
    ensures BrokerGateway.PollTask(reply, task, partial)
      == Err(BrokerError("broker_task_failed", Some(reply.body.failureClass), Some(reply.body.brokerCode), Some(task)))
    ensures Disposed(reply, task, partial, row, at, BrokerGateway.PollTask(reply, task, partial).error)
  {
    hide Backoff, RetryWait;
    var class_, code := reply.body.failureClass, reply.body.brokerCode;
    BrokerRetryIff(code, row.attemptCount, row.maxAttempts, at, Some(class_));
  }

  /** A code without a class: these three leave the task unknown. */
  predicate UnknownCode(code: string) {
    code == "broker_protocol_error" || code == "broker_transport_error" || code == "broker_task_indeterminate"
  }

  lemma UnclassifiedOutcome(row: Row, err: BrokerError, at: real, task: TaskId)
    requires err.failureClass.None? && err.brokerCode.None?
    requires UnknownCode(err.code)
      || err.code in {"broker_unauthorized", "broker_invalid_request", "broker_output_incomplete",
                      "broker_output_invalid"}
    ensures var o := ErrorOutcome(row, err, at, Some(task));
      o.failureCode == err.code && o.disposition == if UnknownCode(err.code) then Quarantine else Terminal
  {
    hide Backoff;
  }

  lemma EndedOutcome(row: Row, err: BrokerError, at: real, task: TaskId)
    requires err.failureClass == Some("terminal") && err.code != "broker_protocol_error"
    requires err.brokerCode == Some("task_cancelled") || err.brokerCode == Some("task_expired")
    ensures var o := ErrorOutcome(row, err, at, Some(task));
      o.disposition == Quarantine && Some(o.failureCode) == err.brokerCode
  {
    hide Backoff;
  }

  /** The error of an answer that is no report of a failed task. */
  lemma OtherError(reply: GetReply, task: TaskId, partial: bool)
    requires BrokerGateway.PollTask(reply, task, partial).Err? && !Reported(reply)
    ensures var err := BrokerGateway.PollTask(reply, task, partial).error;
      && (err.taskId.None? || err.taskId == Some(task))
      && err.code != "broker_task_failed"
      && !Safe(reply)
      && match err.failureClass
         case Some(class_) =>
           && class_ == "terminal"
           && err.code != "broker_protocol_error"
           && (err.brokerCode == Some("task_cancelled") || err.brokerCode == Some("task_expired"))
           && err.brokerCode == Some(PollCode(reply))
           && Unknown(reply)
           && !Settled(reply, partial)
         case None =>
           && err.brokerCode.None?
           && err.code == PollCode(reply)
           && (UnknownCode(err.code)
               || err.code in {"broker_unauthorized", "broker_invalid_request", "broker_output_incomplete",
                               "broker_output_invalid"})
           && (Unknown(reply) <==> UnknownCode(err.code))
           && (Settled(reply, partial) <==> !UnknownCode(err.code))
  {
    hide SummaryOutput.ValidateBrokerOutput, SummaryOutput.ValidateBrokerPartialOutput, Hopeless;
  }

  lemma OtherDisposed(reply: GetReply, task: TaskId, partial: bool, row: Row, at: real)
    requires BrokerGateway.PollTask(reply, task, partial).Err? && !Reported(reply)
    ensures Disposed(reply, task, partial, row, at, BrokerGateway.PollTask(reply, task, partial).error)
  {
    hide BrokerGateway.PollTask, ErrorOutcome, Unknown, Settled, Safe, PollCode, Reported, UnknownCode, RetryWait;
    OtherError(reply, task, partial);
    var err := BrokerGateway.PollTask(reply, task, partial).error;
    if err.failureClass.Some? {
      EndedOutcome(row, err, at, task);
    } else {
      UnclassifiedOutcome(row, err, at, task);
    }
  }

  lemma PollDisposition(reply: GetReply, task: TaskId, partial: bool, row: Row, at: real)
    requires BrokerGateway.PollTask(reply, task, partial).Err?
    ensures Disposed(reply, task, partial, row, at, BrokerGateway.PollTask(reply, task, partial).error)
  {
    hide Disposed, BrokerGateway.PollTask;
    if Reported(reply) {
      ReportDisposed(reply, task, partial, row, at);
    } else {
      OtherDisposed(reply, task, partial, row, at);
    }
  }

  /** What a poll that gives no text comes to: the operator is asked exactly if
      nothing is known about the task; the stage is retried exactly if the task
      failed safely and attempts are left, and fails otherwise. */
  lemma PollRefusalEndsIff(s: Settings, m: Machine, reply: GetReply, at: real)
    requires Inv(s, m) && Enabled(s, m, PollRefused(reply, at))
    ensures var row, after := m.db.row, Apply(s, m, PollRefused(reply, at)).db.row;
      var partial := m.phase.operation.kind == PARTIAL;
      && (Unknown(reply) || Safe(reply) || Settled(reply, partial))
      && (if Unknown(reply) then Waits(row, after, at) && after.taskId == row.taskId
          else if Safe(reply) && row.attemptCount < row.maxAttempts then Retried(row, after, at)
          else Fails(row, after))
      && after.failureCode == Some(PollCode(reply))
      && (Reported(reply) ==> after.failureClass == Some(reply.body.failureClass))
      && after.history == (if Safe(reply)
           then row.history + [HistoryEntry(row.epoch, reply.body.failureClass, reply.body.brokerCode, at)]
           else row.history)
  {
    var row := m.db.row;
    var partial := m.phase.operation.kind == PARTIAL;
    PollDisposition(reply, m.phase.task, partial, row, at);
    hide Unknown, Safe, Settled, PollCode, Reported, ErrorOutcome, BrokerGateway.PollTask, ErrorRow, PlanInv, PostsInv,
      KeyInv, Decide, HistoryInv, Waits, Retried, Fails;
    SafeIsReported(reply);
    var err := PollAnswer(m, reply).error;
    PollErrors(reply, m.phase.task, partial);
    ErrorEndings(row, err, at, m.phase.key, Some(m.phase.task));
    ErrorFields(row, err, at, m.phase.key, m.phase.task);
    ErrorHistory(row, err, at, m.phase.key, m.phase.task);
    EndingShape(row, ErrorRow(row, err, at, m.phase.key, Some(m.phase.task)), at, Some(m.phase.task));
    PollRefusedView(s, m, reply, at);
  }

  lemma SafeIsReported(reply: GetReply)
    ensures Safe(reply) <==> Reported(reply) && reply.body.failureClass in SAFE_CLASSES
    ensures Reported(reply) ==> PollCode(reply) == reply.body.brokerCode
  {
  }

  /** A safe failure of the row's task is entered into the history, and no other. */
  lemma ErrorHistory(row: Row, err: BrokerError, at: real, key: Key, task: TaskId)
    requires EpochInv(row) && HistoryInv(row) && row.status != Failed
    requires row.taskId == Some(task) && row.key == Some(key) && KnownTask(Some(task), err) == Some(task)
    ensures var o := ErrorOutcome(row, err, at, Some(task));
      ErrorRow(row, err, at, key, Some(task)).history ==
      if err.code == "broker_task_failed" && o.failureClass in SAFE_CLASSES
      then row.history + [HistoryEntry(row.epoch, o.failureClass, o.failureCode, at)] else row.history
  {
    hide ErrorOutcome, CanAdvanceEpoch;
    assert Correlate(row, Some(task), Some(key)) == row;
  }

  lemma PollRefusedView(s: Settings, m: Machine, reply: GetReply, at: real)
    requires Enabled(s, m, PollRefused(reply, at))
    ensures Apply(s, m, PollRefused(reply, at)).db.row
      == ErrorRow(m.db.row, PollAnswer(m, reply).error, at, m.phase.key, Some(m.phase.task))
  {
    hide BrokerGateway.PollTask, ErrorRow;
  }

  /** What an error about the row's own task notes. */
  lemma ErrorFields(row: Row, err: BrokerError, at: real, key: Key, task: TaskId)
    requires row.taskId == Some(task) && row.key == Some(key) && KnownTask(Some(task), err) == Some(task)
    ensures var o := ErrorOutcome(row, err, at, Some(task)); var after := ErrorRow(row, err, at, key, Some(task));
      && after.failureClass == Some(o.failureClass)
      && after.failureCode == Some(o.failureCode)
      && after.nextAttemptAt == o.retryAt
      && match o.disposition
         case Quarantine => after.quarantinedAt == Some(at) && after.reconciliation == AwaitingOperator
         case Terminal => after.status == Failed
         case Retry => after.status == PendingRetry && after.reconciliation == NotReconciling
  {
    hide ErrorOutcome, CanAdvanceEpoch, LastEntries;
    assert Correlate(row, Some(task), Some(key)) == row;
  }

  lemma EndingShape(row: Row, after: Row, at: real, task: Option<TaskId>)
    requires Quarantines(row, after, task) || GivesUp(row, after, task) || Retries(row, after)
    requires row.quarantinedAt.None? && row.taskId == task && row.attemptCount >= 1
    ensures after.status == Failed ==> Fails(row, after)
    ensures after.quarantinedAt == Some(at) ==> Waits(row, after, at) && after.taskId == row.taskId
    ensures Retries(row, after) && after.nextAttemptAt == Some(at + RetryWait(row.attemptCount)) ==>
      Retried(row, after, at)
  {
    hide Appends, RetryWait;
  }

  predicate StillRunning(reply: GetReply) {
    reply.GetAnswered? && reply.httpStatus == 200 && reply.body.StillPending?
  }

  lemma StillPendingIff(reply: GetReply, task: TaskId, partial: bool)
    ensures BrokerGateway.PollTask(reply, task, partial) == Ok(None) <==> StillRunning(reply)
  {
    hide SummaryOutput.ValidateBrokerOutput, SummaryOutput.ValidateBrokerPartialOutput;
  }

  /** The text that the answer delivers: a finished generation, valid for the kind
      of the operation. */
  function Delivered(reply: GetReply, partial: bool): Option<string> {
    if reply.GetAnswered? && reply.httpStatus == 200 && reply.body.Succeeded? && reply.body.envelopeValid
       && reply.body.finishReason == "stop" then
      if partial then SummaryOutput.ValidateBrokerPartialOutput(reply.body.content)
      else SummaryOutput.ValidateBrokerOutput(reply.body.content)
    else None
  }

  /** Every answer to a poll waits, delivers or refuses, and not two of them. */
  lemma PollAnswerIff(s: Settings, m: Machine, reply: GetReply, at: real)
    requires m.phase.Polling? && StepInRange(m.db.row)
    ensures var partial := m.phase.operation.kind == PARTIAL;
      && (PollAnswer(m, reply) == Ok(None) <==> StillRunning(reply))
      && (Enabled(s, m, OutputStored(reply)) <==> Delivered(reply, partial).Some?)
      && (Enabled(s, m, PollRefused(reply, at)) <==> !StillRunning(reply) && Delivered(reply, partial).None?)
      && (Enabled(s, m, PollRefused(reply, at)) <==> Unknown(reply) || Safe(reply) || Settled(reply, partial))
  {
    hide SummaryOutput.ValidateBrokerOutput, SummaryOutput.ValidateBrokerPartialOutput, Decide;
  }

  /** The delivered text becomes the output of the current partial step or the
      video's summary. */
  lemma DeliveredIsStored(s: Settings, m: Machine, reply: GetReply)
    requires Inv(s, m) && Enabled(s, m, OutputStored(reply))
    ensures var partial, after := m.phase.operation.kind == PARTIAL, Apply(s, m, OutputStored(reply)).db;
      && StepInRange(m.db.row)
      && Delivered(reply, partial).Some?
      && (partial <==> AtPartial(m.db.row))
      && TextStored(m.db, after, Delivered(reply, partial).value)
  {
    StoringView(s, m, reply);
    hide Inv, Enabled, Apply, Delivered, BrokerGateway.PollTask, RowInv, StoreOutput, TextStored;
    PollAnswerIff(s, m, reply, 0.0);
    DeliveredAnswer(reply, m.phase.task, m.phase.operation.kind == PARTIAL);
    StoredIsTextStored(s, m.db, PollAnswer(m, reply).value.value);
  }

  lemma StoringView(s: Settings, m: Machine, reply: GetReply)
    requires Inv(s, m) && Enabled(s, m, OutputStored(reply))
    ensures m.phase.Polling? && StepInRange(m.db.row) && RowInv(s, m.db.row) && Outstanding(m.db.row)
    ensures m.phase.operation.kind == PARTIAL <==> AtPartial(m.db.row)
    ensures PollAnswer(m, reply).Ok? && PollAnswer(m, reply).value.Some?
    ensures Apply(s, m, OutputStored(reply)).db == StoreOutput(m.db, PollAnswer(m, reply).value.value)
  {
    hide BrokerGateway.PollTask, StoreOutput, PlanInv, PostsInv, Decide, HistoryInv, Rank;
    SubmitRank(s, m.db.row);
  }

  lemma DeliveredAnswer(reply: GetReply, task: TaskId, partial: bool)
    requires Delivered(reply, partial).Some?
    ensures BrokerGateway.PollTask(reply, task, partial) == Ok(Delivered(reply, partial))
    ensures BrokerGateway.ReconcileTask(reply, task, partial) == Ok(Delivered(reply, partial))
  {
    hide SummaryOutput.ValidateBrokerOutput, SummaryOutput.ValidateBrokerPartialOutput;
  }

  /** A stored text: progress by one partial step, or the summary. */
  ghost predicate TextStored(before: Db, after: Db, text: string)
    requires StepInRange(before.row)
  {
    && after.row.quarantinedAt.None?
    && after.row.reconciliation == NotReconciling
    && after.row.failureCode.None?
    && after.row.failureClass.None?
    && if AtPartial(before.row) then
         && after.summary == before.summary
         && after.row.status == PendingRetry
         && after.row.taskId.None?
         && after.row.nextAttemptAt.None?
         && after.row.attemptCount == Max(0, before.row.attemptCount - 1)
         && after.row.epoch == before.row.epoch
         && after.row.plan == Some(Chunking.CompleteStep(before.row.plan.value, text))
       else
         && after.summary == Some(text)
         && after.row.status == Completed
         && after.row.plan.None?
  }

  // --------------------------------------------------------- reconciliation

  /** The broker says that the task has ended without a result, for a reason that
      it names. */
  predicate Over(reply: GetReply) {
    && reply.GetAnswered?
    && reply.httpStatus == 200
    && (|| reply.body.TaskCancelled?
        || reply.body.TaskExpired?
        || (Reported(reply) && reply.body.failureClass != "indeterminate"))
  }

  /** Another GET in a minute, with nothing else changed but the failure noted. */
  ghost predicate StaysOpen(row: Row, after: Row, at: real) {
    after == row.(failureClass := after.failureClass, failureCode := after.failureCode, reconciliation := GetEligible,
                  nextReconcileAt := Some(at + 60.0))
  }

  /** What one GET of the reconciler comes to. */
  ghost predicate Reconciled(before: Db, after: Db, partial: bool, e: Event, at: real)
    requires StepInRange(before.row)
  {
    match e
    case ReconcileWaited(reply, t) =>
      && t == at
      && StillRunning(reply)
      && after == before.(row := before.row.(nextReconcileAt := Some(at + 60.0)))
    case ReconcileRefused(reply, t) =>
      && t == at
      && !StillRunning(reply)
      && Delivered(reply, partial).None?
      && after.summary == before.summary
      && after.row.taskId == before.row.taskId
      && if Over(reply) then after.row.status == Failed && after.row.quarantinedAt.None? && after.row.plan.None?
           && after.row.reconciliation == NotReconciling
         else StaysOpen(before.row, after.row, at) && after.row.failureClass == Some("indeterminate")
    case ReconcileStored(reply, t) =>
      && t == at
      && Delivered(reply, partial).Some?
      && TextStored(before, after, Delivered(reply, partial).value)
    case _ => false
  }

  lemma ReconcileErrorIs(reply: GetReply, task: TaskId, partial: bool)
    requires BrokerGateway.ReconcileTask(reply, task, partial).Err?
    ensures !StillRunning(reply) && Delivered(reply, partial).None?
    ensures var err := BrokerGateway.ReconcileTask(reply, task, partial).error;
      Over(reply) <==> err.Some? && GetOr(err.value.failureClass, "indeterminate") != "indeterminate"
  {
    hide SummaryOutput.ValidateBrokerOutput, SummaryOutput.ValidateBrokerPartialOutput;
  }

  lemma CompletesIff(s: Settings, m: Machine, e: Event)
    requires Inv(s, m) && Enabled(s, m, e) && (e.ReconcileWaited? || e.ReconcileRefused? || e.ReconcileStored?)
    ensures StepInRange(m.db.row)
    ensures Apply(s, m, e).db.row.status == Completed <==> e.ReconcileStored? && !AtPartial(m.db.row)
    ensures Apply(s, m, e).db.row.status == Completed ==> Apply(s, m, e).db.summary.Some?
  {
    hide BrokerGateway.ReconcileTask, PlanInv, PostsInv, Decide, HistoryInv;
  }

  lemma ReconcileErrorMeaning(row: Row, err: Option<BrokerError>, at: real)
    ensures var after := ReconcileErrorRow(row, err, at);
      && after.taskId == row.taskId
      && if err.Some? && GetOr(err.value.failureClass, "indeterminate") != "indeterminate" then
           && after.status == Failed
           && after.quarantinedAt.None?
           && after.plan.None?
           && after.reconciliation == NotReconciling
         else StaysOpen(row, after, at) && after.failureClass == Some("indeterminate")
  {
  }

  lemma ReconcileApplies(s: Settings, m: Machine, e: Event)
    requires Inv(s, m) && Enabled(s, m, e) && (e.ReconcileWaited? || e.ReconcileRefused? || e.ReconcileStored?)
    ensures StepInRange(m.db.row) && m.db.row.taskId.Some? && RowInv(s, m.db.row) && Outstanding(m.db.row)
    ensures var answer := BrokerGateway.ReconcileTask(e.reply, m.db.row.taskId.value, AtPartial(m.db.row));
      && (e.ReconcileWaited? ==>
            answer == Ok(None) && Apply(s, m, e).db == m.db.(row := ReconcileWaitRow(m.db.row, e.at)))
      && (e.ReconcileRefused? ==>
            answer.Err? && Apply(s, m, e).db == m.db.(row := ReconcileErrorRow(m.db.row, answer.error, e.at)))
      && (e.ReconcileStored? ==>
            answer.Ok? && answer.value.Some? && Apply(s, m, e).db == ReconcileStore(m.db, answer.value.value))
  {
    hide BrokerGateway.ReconcileTask, RowInv, PostsInv, ReconcileErrorRow, ReconcileStore, ReconcileWaitRow;
  }

  lemma ReconcileAnswerIs(reply: GetReply, task: TaskId, partial: bool)
    ensures var answer := BrokerGateway.ReconcileTask(reply, task, partial);
      && (answer == Ok(None) <==> StillRunning(reply))
      && (answer.Ok? && answer.value.Some? ==> Delivered(reply, partial) == answer.value)
  {
    hide SummaryOutput.ValidateBrokerOutput, SummaryOutput.ValidateBrokerPartialOutput;
  }

  lemma StoredIsTextStored(s: Settings, before: Db, text: string)
    requires RowInv(s, before.row) && Outstanding(before.row)
    ensures StepInRange(before.row)
    ensures TextStored(before, StoreOutput(before, text), text)
    ensures TextStored(before, ReconcileStore(before, text), text)
  {
    StoringEnds(s, before, text);
    hide RowInv, StoreOutput, ReconcileStore;
  }

  /** The reconciler keeps a stage open exactly while the broker has not said how
      the task ended: after a failed request, an unusable answer, an invalid text
      or an indeterminate failure it asks again in a minute; it stores a valid
      text, and gives the stage up for a task that is over. */
  lemma ReconcileEffect(s: Settings, m: Machine, e: Event, at: real)
    requires Inv(s, m) && Enabled(s, m, e)
    requires (e.ReconcileWaited? || e.ReconcileRefused? || e.ReconcileStored?) && e.at == at
    ensures StepInRange(m.db.row)
    ensures Reconciled(m.db, Apply(s, m, e).db, AtPartial(m.db.row), e, at)
    ensures Apply(s, m, e).db.row.status == Completed <==> e.ReconcileStored? && !AtPartial(m.db.row)
    ensures Apply(s, m, e).db.row.status == Completed ==> Apply(s, m, e).db.summary.Some?
  {
    hide Inv, Enabled, Apply, RowInv, BrokerGateway.ReconcileTask, StillRunning, Delivered, Over, ReconcileErrorRow,
      ReconcileStore, TextStored, StaysOpen;
    CompletesIff(s, m, e);
    ReconcileApplies(s, m, e);
    var partial := AtPartial(m.db.row);
    var answer := BrokerGateway.ReconcileTask(e.reply, m.db.row.taskId.value, partial);
    ReconcileAnswerIs(e.reply, m.db.row.taskId.value, partial);
    if answer.Err? {
      ReconcileErrorIs(e.reply, m.db.row.taskId.value, partial);
      ReconcileErrorMeaning(m.db.row, answer.error, at);
    } else if answer.value.Some? {
      StoredIsTextStored(s, m.db, answer.value.value);
    }
  }
}
