/**
 The durable row of one summary stage and what each commit writes to it
 (app/models/pipeline_stage.py, app/services/broker_submission.py and the broker
 part of app/services/pipeline.py), as functions from row to row.

 Display texts and time stamps that nothing reads back are not kept.
 */
module SummaryRow {
  import opened Prelude
  import opened SummaryGateway
  import opened FailurePolicy
  import opened BrokerGateway
  import Chunking

  datatype Status = Pending | PendingRetry | Completed | Failed

  datatype Reconciliation = NotReconciling | Prepared | Accepted | AwaitingOperator | GetEligible

  datatype HistoryEntry = HistoryEntry(epoch: int, failureClass: string, failureCode: string, observedAt: real)

  datatype Row = Row(
    status: Status,
    attemptCount: int,
    maxAttempts: int,
    epoch: int,
    history: seq<HistoryEntry>,
    plan: Option<Chunking.Plan>,
    nextAttemptAt: Option<real>,
    failureClass: Option<string>,
    failureCode: Option<string>,
    quarantinedAt: Option<real>,
    reconciliation: Reconciliation,
    nextReconcileAt: Option<real>,
    taskId: Option<TaskId>,
    key: Option<Key>)

  /** What a commit makes durable: the stage row and the video's summary. */
  datatype Db = Db(row: Row, summary: Option<string>)

  /** Fixed for the life of a stage. */
  datatype Settings = Settings(
    stageId: int,
    transcript: string,
    chunking: Chunking.Config,
    singleInstructions: string,
    partialInstructions: string,
    finalInstructions: string)

  function NewRow(maxAttempts: int): Row {
    Row(Pending, 0, maxAttempts, 0, [], None, None, None, None, None, NotReconciling, None, None, None)
  }

  predicate Live(row: Row) {
    row.status == Pending || row.status == PendingRetry
  }

  /** `_attempt_summary_stage` goes on to the broker route. */
  predicate Attemptable(row: Row, now: real) {
    && Live(row)
    && row.quarantinedAt.None?
    && (row.nextAttemptAt.Some? ==> row.nextAttemptAt.value <= now)
  }

  predicate Residue(row: Row) {
    row.reconciliation == Prepared || row.reconciliation == Accepted
  }

  // ------------------------------------------------------------ operations

  const SEPARATOR := "\n\n---\n\n"

  function JoinOutputs(outputs: seq<string>): string {
    if outputs == [] then ""
    else if |outputs| == 1 then outputs[0]
    else outputs[0] + SEPARATOR + JoinOutputs(outputs[1..])
  }

  function SingleOperation(s: Settings): Operation {
    Operation(SINGLE, 0, s.singleInstructions + s.transcript)
  }

  function PartialOperation(s: Settings, ordinal: int, start: int, end: int): Operation
    requires 0 <= start <= end <= |s.transcript|
  {
    Operation(PARTIAL, ordinal, s.partialInstructions + s.transcript[start..end])
  }

  function FinalOperation(s: Settings, outputs: seq<string>): Operation {
    Operation(FINAL, 0, s.finalInstructions + JoinOutputs(outputs))
  }

  function OutputTexts(steps: seq<Chunking.Step>): (texts: seq<string>)
    ensures |texts| == |steps|
    ensures forall i :: 0 <= i < |steps| ==> texts[i] == GetOr(steps[i].output, "")
  {
    seq(|steps|, i requires 0 <= i < |steps| => GetOr(steps[i].output, ""))
  }

  const CONTEXT_EXCEEDED := "backend_context_exceeded"
  const PLAN_INVALID := "broker_chunk_plan_invalid"

  /** The operation of a plan's current step, or the local failure code. */
  function StepOperation(s: Settings, plan: Chunking.Plan): Result<Operation, string>
    requires 0 <= plan.nextStep < |plan.steps|
  {
    var n := |plan.steps|;
    match plan.steps[plan.nextStep]
    case Partial(ordinal, start, end, _, _) =>
      if 0 <= start < end <= |s.transcript| then Ok(PartialOperation(s, ordinal, start, end))
      else Err(PLAN_INVALID)
    case Final(ordinal, _, _) =>
      var texts := OutputTexts(plan.steps[..n - 1]);
      if exists i :: 0 <= i < n - 1 && texts[i] == "" then Err(PLAN_INVALID)
      else
        var operation := FinalOperation(s, texts);
        match Chunking.EstimatedRequestTokens(|operation.prompt|, Chunking.ActiveConfig(plan.config))
        case Err(_) => Err(PLAN_INVALID)
        case Ok(tokens) =>
          if tokens > plan.config.contextTokens then Err(CONTEXT_EXCEEDED)
          else Ok(Operation(FINAL, ordinal, operation.prompt))
  }

  datatype Decision = SavePlan(plan: Chunking.Plan) | Submit(operation: Operation) | FailLocally(code: string)

  /** What an attempt does next with a stage that has nothing outstanding. */
  function Decide(s: Settings, plan: Option<Chunking.Plan>): Decision {
    match plan
    case None =>
      (match Chunking.BuildPlan(s.transcript, s.chunking)
       case Err(_) => FailLocally(CONTEXT_EXCEEDED)
       case Ok(None) => Submit(SingleOperation(s))
       case Ok(Some(built)) => SavePlan(built))
    case Some(saved) =>
      if !Chunking.PlanOk(saved, s.transcript) then FailLocally(PLAN_INVALID)
      else
        match StepOperation(s, saved)
        case Err(code) => FailLocally(code)
        case Ok(operation) => Submit(operation)
  }

  // ------------------------------------------------------- commits: submission

  function PrepareRow(row: Row, key: Key): Row {
    row.(attemptCount := row.attemptCount + 1, key := Some(key), reconciliation := Prepared)
  }

  function AcceptRow(row: Row, task: TaskId, key: Key): Row {
    row.(taskId := Some(task), key := Some(key), reconciliation := Accepted)
  }

  /** Records whichever correlation is known. */
  function Correlate(row: Row, task: Option<TaskId>, key: Option<Key>): Row {
    row.(taskId := if task.Some? then task else row.taskId, key := if key.Some? then key else row.key)
  }

  /** Python's `entries[-n:]` for positive n. */
  function LastEntries(entries: seq<HistoryEntry>, n: int): seq<HistoryEntry>
    requires n >= 1
  {
    if |entries| <= n then entries else entries[|entries| - n..]
  }

  function NoteFailure(row: Row, outcome: Outcome): Row {
    row.(failureClass := Some(outcome.failureClass), failureCode := Some(outcome.failureCode),
         nextAttemptAt := outcome.retryAt)
  }

  function NoteHistory(row: Row, outcome: Outcome, at: real): Row {
    var entry := HistoryEntry(row.epoch, outcome.failureClass, outcome.failureCode, at);
    row.(history := LastEntries(row.history + [entry], Max(1, row.maxAttempts)))
  }

  function AdvanceEpoch(row: Row): Row {
    row.(epoch := row.epoch + 1, taskId := None, key := None)
  }

  function Dispose(row: Row, disposition: Disposition, at: real): Row {
    match disposition
    case Quarantine =>
      row.(quarantinedAt := Some(at), reconciliation := AwaitingOperator, nextReconcileAt := None,
           status := PendingRetry)
    case Terminal => row.(status := Failed, reconciliation := NotReconciling, plan := None)
    case Retry => row.(status := PendingRetry, reconciliation := NotReconciling)
  }

  /** `_apply_outcome` on the row it finds in the database. */
  function ApplyOutcome(row: Row, outcome: Outcome, at: real, task: Option<TaskId>, terminalConfirmed: bool): Row {
    if terminalConfirmed && task.Some? && row.taskId != task then row
    else
      var noted := NoteFailure(row, outcome);
      var audited :=
        if terminalConfirmed && task.Some? && outcome.failureClass in SAFE_CLASSES
        then NoteHistory(noted, outcome, at) else noted;
      var advanced :=
        if CanAdvanceEpoch(terminalConfirmed, task, audited.taskId, outcome.failureClass,
                           audited.attemptCount, audited.maxAttempts, audited.epoch)
        then AdvanceEpoch(audited) else audited;
      Dispose(advanced, outcome.disposition, at)
  }

  function ErrorCode(err: BrokerError): string {
    if err.brokerCode.Some? && err.brokerCode.value != "" then err.brokerCode.value else err.code
  }

  function ErrorOutcome(row: Row, err: BrokerError, at: real, task: Option<TaskId>): Outcome {
    if task.Some? && err.code == "broker_protocol_error" then
      Outcome("indeterminate", "broker_protocol_error", Quarantine, None)
    else Classify(Broker, ErrorCode(err), row.attemptCount, row.maxAttempts, at, err.failureClass)
  }

  function KnownTask(task: Option<TaskId>, err: BrokerError): Option<TaskId> {
    if task.Some? then task else err.taskId
  }

  /** `_classify` */
  function ErrorRow(row: Row, err: BrokerError, at: real, key: Key, task: Option<TaskId>): Row {
    var known := KnownTask(task, err);
    var correlated := Correlate(row, known, Some(key));
    ApplyOutcome(correlated, ErrorOutcome(correlated, err, at, known), at, known, err.code == "broker_task_failed")
  }

  const TIMEOUT := BrokerError("broker_timeout", Some("indeterminate"), None, None)

  /** `_quarantine` with the indeterminate timeout */
  function TimeoutRow(row: Row, at: real, key: Option<Key>, task: Option<TaskId>): Row {
    var correlated := Correlate(row, task, key);
    ApplyOutcome(
      correlated,
      Classify(Broker, "broker_timeout", row.attemptCount, row.maxAttempts, at, Some("indeterminate")),
      at, task, false)
  }

  function ResidueRow(row: Row, at: real): Row {
    var counted := row.(attemptCount := row.attemptCount + 1);
    TimeoutRow(counted, at, row.key, if row.reconciliation == Accepted then row.taskId else None)
  }

  function ClearFailure(row: Row): Row {
    row.(failureClass := None, failureCode := None, nextAttemptAt := None, quarantinedAt := None,
         reconciliation := NotReconciling, nextReconcileAt := None)
  }

  /** `save_completed`: progress gives the attempt back and moves the plan on. */
  function SaveProgress(row: Row, output: string): Row
    requires row.plan.Some? && 0 <= row.plan.value.nextStep < |row.plan.value.steps|
  {
    var next := Chunking.CompleteStep(row.plan.value, output);
    row.(attemptCount := Max(0, row.attemptCount - 1),
         plan := if next.nextStep >= |next.steps| then None else Some(next))
  }

  predicate StepInRange(row: Row) {
    row.plan.Some? ==> 0 <= row.plan.value.nextStep < |row.plan.value.steps|
  }

  predicate AtPartial(row: Row)
    requires StepInRange(row)
  {
    row.plan.Some? && row.plan.value.steps[row.plan.value.nextStep].Partial?
  }

  /** `_complete` for the operation that the row is at. */
  function StoreOutput(db: Db, output: string): Db
    requires StepInRange(db.row)
  {
    var row := ClearFailure(if db.row.plan.Some? then SaveProgress(db.row, output) else db.row);
    if AtPartial(db.row) then Db(row.(status := PendingRetry, taskId := None, key := None), db.summary)
    else Db(row.(status := Completed), Some(output))
  }

  function LocalClass(code: string): string {
    if code == CONTEXT_EXCEEDED then "backend_rejected" else "internal"
  }

  /** `_record_local_broker_failure` */
  function LocalFailureRow(row: Row, code: string, at: real): Row {
    var counted := row.(attemptCount := row.attemptCount + 1);
    var outcome := Classify(Broker, code, counted.attemptCount, counted.maxAttempts, at, Some(LocalClass(code)));
    NoteFailure(counted, outcome).(
      status := if outcome.disposition == Terminal then Failed else PendingRetry,
      plan := None, taskId := None, key := None)
  }

  // --------------------------------------------------- commits: reconciliation

  /** `make_quarantine_get_eligible` */
  predicate CanUnlock(row: Row) {
    row.quarantinedAt.Some? && row.taskId.Some? && row.reconciliation == AwaitingOperator
  }

  function UnlockRow(row: Row, at: real): Row {
    row.(reconciliation := GetEligible, nextReconcileAt := Some(at))
  }

  predicate Reconcilable(row: Row, now: real) {
    && row.quarantinedAt.Some?
    && row.taskId.Some?
    && row.reconciliation == GetEligible
    && (row.nextReconcileAt.Some? ==> row.nextReconcileAt.value <= now)
  }

  const RECONCILE_DELAY_SECONDS := 60.0

  function ReconcileWaitRow(row: Row, now: real): Row {
    row.(nextReconcileAt := Some(now + RECONCILE_DELAY_SECONDS))
  }

  function ReconcileErrorRow(row: Row, err: Option<BrokerError>, now: real): Row {
    var code := match err case Some(e) => ErrorCode(e) case None => "broker_task_failed";
    var class_ := match err case Some(e) => GetOr(e.failureClass, "indeterminate") case None => "indeterminate";
    var noted := row.(failureCode := Some(code), failureClass := Some(class_));
    if class_ == "indeterminate" then
      noted.(reconciliation := GetEligible, nextReconcileAt := Some(now + RECONCILE_DELAY_SECONDS))
    else noted.(status := Failed, quarantinedAt := None, reconciliation := NotReconciling, plan := None)
  }

  /** A quarantined row whose plan no longer validates is given up. */
  function ReconcileInvalidRow(row: Row): Row {
    row.(status := Failed, failureClass := Some("internal"), failureCode := Some(PLAN_INVALID),
         plan := None, quarantinedAt := None, reconciliation := NotReconciling)
  }

  /** A reconciled result: progress for a partial step, the summary otherwise. */
  function ReconcileStore(db: Db, output: string): Db
    requires StepInRange(db.row)
  {
    var row := db.row;
    var cleared := row.(failureClass := None, failureCode := None, quarantinedAt := None,
                        reconciliation := NotReconciling, nextReconcileAt := None,
                        attemptCount := if row.plan.Some? then Max(0, row.attemptCount - 1) else row.attemptCount);
    if AtPartial(row) then
      Db(cleared.(plan := Some(Chunking.CompleteStep(row.plan.value, output)), status := PendingRetry,
                  taskId := None, key := None, nextAttemptAt := None),
         db.summary)
    else Db(cleared.(status := Completed, plan := None), Some(output))
  }
}
