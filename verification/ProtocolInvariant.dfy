/** What every reachable state of the submission protocol satisfies. */
module ProtocolInvariant {
  import opened Prelude
  import opened SummaryGateway
  import opened BrokerGateway
  import opened SummaryRow
  import opened FailurePolicy
  import opened BrokerProtocol
  import Chunking

  // ------------------------------------------------------------------ plans

  predicate SameRange(a: Chunking.Step, b: Chunking.Step) {
    && a.ordinal == b.ordinal
    && match a
       case Partial(_, start, end, _, _) => b.Partial? && start == b.start && end == b.end
       case Final(_, _, _) => b.Final?
  }

  /** The saved plan is the built plan with some progress. */
  ghost predicate SamePlan(a: Chunking.Plan, b: Chunking.Plan) {
    && a.config == b.config
    && |a.steps| == |b.steps|
    && forall i :: 0 <= i < |a.steps| ==> SameRange(a.steps[i], b.steps[i])
  }

  ghost predicate PlanInv(s: Settings, plan: Option<Chunking.Plan>) {
    plan.Some? ==>
      && Chunking.PlanOk(plan.value, s.transcript)
      && Chunking.BuildPlan(s.transcript, s.chunking).Ok?
      && Chunking.BuildPlan(s.transcript, s.chunking).value.Some?
      && SamePlan(plan.value, Chunking.BuildPlan(s.transcript, s.chunking).value.value)
  }

  /** Index of the last step of the plan that the settings lead to; 0 for a
      transcript that fits one request. */
  function LastStep(s: Settings): nat {
    match Chunking.BuildPlan(s.transcript, s.chunking)
    case Ok(Some(built)) => Max(0, |built.steps| - 1)
    case _ => 0
  }

  function StepIndex(plan: Option<Chunking.Plan>): int {
    if plan.Some? then plan.value.nextStep else 0
  }

  // -------------------------------------------------------------------- row

  predicate Quarantined(row: Row) {
    row.reconciliation == AwaitingOperator || row.reconciliation == GetEligible
  }

  predicate Outstanding(row: Row) {
    row.reconciliation != NotReconciling
  }

  ghost predicate EpochInv(row: Row) {
    && row.maxAttempts >= 0
    && 0 <= row.epoch <= row.attemptCount
    && row.epoch <= Max(0, row.maxAttempts - 1)
    && (Outstanding(row) ==> row.epoch < row.attemptCount)
  }

  /** The history holds the terminal facts of epochs 0, 1, ... in order. */
  ghost predicate HistoryInv(row: Row) {
    && row.epoch <= |row.history| <= row.epoch + 1
    && (row.status != Failed ==> |row.history| == row.epoch)
    && forall i :: 0 <= i < |row.history| ==> row.history[i].epoch == i
  }

  ghost predicate StatusInv(row: Row) {
    && (row.quarantinedAt.Some? <==> Quarantined(row))
    && (Outstanding(row) ==> Live(row))
    && (row.plan.Some? ==> Live(row))
  }

  /** The task id is on the row exactly while a known task is unresolved, and
      after the end. */
  ghost predicate TaskInv(row: Row) {
    && (Live(row) && !Outstanding(row) ==> row.taskId.None?)
    && (row.reconciliation == Prepared ==> row.taskId.None?)
    && (row.reconciliation == Accepted || row.reconciliation == GetEligible ==> row.taskId.Some?)
  }

  /** Whatever is outstanding is the current operation under its own key. */
  ghost predicate KeyInv(s: Settings, row: Row) {
    Outstanding(row) ==>
      && Decide(s, row.plan).Submit?
      && row.key == Some(KeyOf(s.stageId, row.epoch, Decide(s, row.plan).operation))
  }

  ghost predicate RowInv(s: Settings, row: Row) {
    && PlanInv(s, row.plan)
    && EpochInv(row)
    && HistoryInv(row)
    && StatusInv(row)
    && TaskInv(row)
    && KeyInv(s, row)
  }

  // ------------------------------------------------------------------ phase

  ghost predicate PhaseInv(s: Settings, m: Machine) {
    var row := m.db.row;
    match m.phase
    case Idle => true
    case Submitting(operation, key) => InFlight(s, row, operation, key) && row.reconciliation == Prepared
    case Answering(operation, key) => InFlight(s, row, operation, key) && row.reconciliation == Prepared
    case Polling(operation, key, task) =>
      InFlight(s, row, operation, key) && row.reconciliation == Accepted && row.taskId == Some(task)
  }

  ghost predicate InFlight(s: Settings, row: Row, operation: Operation, key: Key) {
    && Decide(s, row.plan) == Submit(operation)
    && key == KeyOf(s.stageId, row.epoch, operation)
    && row.key == Some(key)
  }

  // ------------------------------------------------------------------ posts

  function OperationIndex(s: Settings, kind: string, ordinal: int): int {
    if kind == PARTIAL then ordinal else if kind == FINAL then LastStep(s) else 0
  }

  /** Submission epoch plus plan step of a key. */
  function Rank(s: Settings, key: Key): int {
    key.epoch + OperationIndex(s, key.kind, key.ordinal)
  }

  ghost predicate Increasing(s: Settings, posts: seq<Key>) {
    forall i, j :: 0 <= i < j < |posts| ==> Rank(s, posts[i]) < Rank(s, posts[j])
  }

  function Progress(row: Row): int {
    row.epoch + StepIndex(row.plan)
  }

  ghost predicate PostsInv(s: Settings, m: Machine) {
    && Increasing(s, m.posts)
    && (forall i :: 0 <= i < |m.posts| ==> 0 <= Rank(s, m.posts[i]) <= Max(0, m.db.row.maxAttempts - 1) + LastStep(s))
    && (Live(m.db.row) ==> forall i :: 0 <= i < |m.posts| ==> Rank(s, m.posts[i]) <= Progress(m.db.row))
    && (Live(m.db.row) && (!Outstanding(m.db.row) || m.phase.Submitting?) ==>
          forall i :: 0 <= i < |m.posts| ==> Rank(s, m.posts[i]) < Progress(m.db.row))
  }

  ghost predicate Inv(s: Settings, m: Machine) {
    && RowInv(s, m.db.row)
    && (m.db.summary.Some? <==> m.db.row.status == Completed)
    && PhaseInv(s, m)
    && PostsInv(s, m)
  }

  lemma StartInv(s: Settings, maxAttempts: nat)
    ensures Inv(s, Start(maxAttempts))
  {
  }
}
