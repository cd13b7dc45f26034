/**
 How far the attempt counter of a summary stage goes on the broker route
 (app/services/pipeline.py, app/services/broker_submission.py): it can pass
 `max_attempts`, exactly by residue that is found when the attempts are used up.
 */
module AttemptLimit {
  import opened Prelude
  import opened SummaryGateway
  import opened BrokerGateway
  import opened SummaryRow
  import opened FailurePolicy
  import opened BrokerProtocol
  import opened ProtocolInvariant
  import opened ProtocolSteps
  import opened ProtocolTheorems
  import Chunking
  import Views = BrokerSubmission

  // ------------------------------------------------------- what a step does

  /** What one event makes of a row, as far as the counter is concerned. */
  ghost predicate CountStep(s: Settings, row: Row, after: Row, e: Event) {
    && after.maxAttempts == row.maxAttempts
    && match e
       case ResidueQuarantined(_) =>
         && Live(row) && Residue(row)
         && Quarantined(after) && Tries(row, after)
       case StagePrepared(_) =>
         && Live(row) && !Outstanding(row)
         && Residue(after) && Tries(row, after)
       case LocallyFailed(_) =>
         && Live(row) && !Outstanding(row)
         && !Live(after) && after.attemptCount == row.attemptCount + 1
       case _ =>
         || (after.attemptCount == row.attemptCount && Keeps(row, after))
         || (Live(row) && Residue(row) && Retries(row, after))
         || Gains(row, after)
  }

  /** An attempt more, at the same step of the same epoch. */
  predicate Tries(row: Row, after: Row) {
    && after.attemptCount == row.attemptCount + 1
    && after.epoch == row.epoch
    && after.plan == row.plan
  }

  /** The counter stays, and nothing outstanding is dropped without an end. */
  predicate Keeps(row: Row, after: Row) {
    Live(after) ==>
      && Live(row)
      && after.epoch == row.epoch
      && StepIndex(after.plan) == StepIndex(row.plan)
      && (Outstanding(row) <==> Outstanding(after))
      && (Quarantined(row) ==> Quarantined(after))
  }

  /** A stored result: the attempt is given back, the stage moves on or ends. */
  predicate Gains(row: Row, after: Row) {
    && Live(row) && Outstanding(row)
    && after.attemptCount <= row.attemptCount
    && (Live(after) ==>
          && after.attemptCount == Max(0, row.attemptCount - 1)
          && after.epoch == row.epoch
          && StepIndex(after.plan) == StepIndex(row.plan) + 1
          && !Outstanding(after))
  }

  lemma RefusalCounts(s: Settings, m: Machine, e: Event)
    requires Inv(s, m) && Enabled(s, m, e) && (e.PostRefused? || e.PollRefused?)
    ensures CountStep(s, m.db.row, Apply(s, m, e).db.row, e)
  {
    hide PlanInv, PostsInv, KeyInv, Decide, BrokerGateway.SubmitTask, BrokerGateway.PollTask, ErrorRow, Possible,
      SafelyFailed;
    match e {
      case PostRefused(post, at) =>
        SubmitErrors(post, m.phase.key);
        ErrorEndings(m.db.row, BrokerGateway.SubmitTask(post, m.phase.key).error, at, m.phase.key, None);
      case PollRefused(reply, at) =>
        PollErrors(reply, m.phase.task, m.phase.operation.kind == PARTIAL);
        ErrorEndings(m.db.row, PollAnswer(m, reply).error, at, m.phase.key, Some(m.phase.task));
    }
  }

  lemma DeadlineCounts(s: Settings, m: Machine, e: Event)
    requires Inv(s, m) && Enabled(s, m, e) && (e.PostDeadlinePassed? || e.PollDeadlinePassed? || e.ResidueQuarantined?)
    ensures CountStep(s, m.db.row, Apply(s, m, e).db.row, e)
  {
    hide PlanInv, PostsInv, KeyInv, HistoryInv, Decide, TimeoutRow, ErrorRow;
    var row := m.db.row;
    match e {
      case PostDeadlinePassed(at) =>
        Views.TimeoutView(row, at, m.phase.key);
        TimeoutEnding(row, at, Some(m.phase.key), None);
      case PollDeadlinePassed(at) => TimeoutEnding(row, at, Some(m.phase.key), Some(m.phase.task));
      case ResidueQuarantined(at) =>
        var counted := row.(attemptCount := row.attemptCount + 1);
        TimeoutEnding(counted, at, row.key, if row.reconciliation == Accepted then row.taskId else None);
    }
  }

  lemma StoringCounts(s: Settings, m: Machine, e: Event)
    requires Inv(s, m) && Enabled(s, m, e) && (e.OutputStored? || e.ReconcileStored?)
    ensures CountStep(s, m.db.row, Apply(s, m, e).db.row, e)
  {
    hide PlanInv, PostsInv, KeyInv, HistoryInv, Decide, BrokerGateway.PollTask, BrokerGateway.ReconcileTask,
      StoreOutput, ReconcileStore;
    StoringEnds(s, m.db, if e.OutputStored? then PollAnswer(m, e.reply).value.value
                         else ReconcileAnswer(m, e.reply).value.value);
  }

  lemma LocalFailureCounts(row: Row, code: string, at: real)
    ensures var after := LocalFailureRow(row, code, at);
      after.attemptCount == row.attemptCount + 1 && after.maxAttempts == row.maxAttempts
  {
  }

  lemma OtherCounts(s: Settings, m: Machine, e: Event)
    requires Inv(s, m) && Enabled(s, m, e)
    requires !e.PostRefused? && !e.PollRefused? && !e.PostDeadlinePassed? && !e.PollDeadlinePassed?
    requires !e.ResidueQuarantined? && !e.OutputStored? && !e.ReconcileStored? && !e.PlanSaved?
    ensures CountStep(s, m.db.row, Apply(s, m, e).db.row, e)
  {
    hide PlanInv, PostsInv, KeyInv, HistoryInv, Decide, BrokerGateway.SubmitTask, BrokerGateway.PollTask,
      BrokerGateway.ReconcileTask, LocalFailureRow;
    if e.LocallyFailed? {
      LocalFailureCounts(m.db.row, Decide(s, m.db.row.plan).code, e.at);
      LocalFailureIsTerminal(m.db.row, Decide(s, m.db.row.plan).code, e.at);
    }
  }

  lemma SavingCounts(s: Settings, m: Machine, e: Event)
    requires Inv(s, m) && Enabled(s, m, e) && e.PlanSaved?
    ensures CountStep(s, m.db.row, Apply(s, m, e).db.row, e)
  {
    Chunking.BuilderMeetsValidator(s.transcript, s.chunking);
    hide PlanInv, PostsInv, KeyInv, HistoryInv, Chunking.BuildPlan, Chunking.PlanOk;
  }

  lemma StepCounts(s: Settings, m: Machine, e: Event)
    requires Inv(s, m) && Enabled(s, m, e)
    ensures CountStep(s, m.db.row, Apply(s, m, e).db.row, e)
  {
    hide Inv, Enabled, Apply, CountStep;
    match e {
      case PostRefused(_, _) => RefusalCounts(s, m, e);
      case PollRefused(_, _) => RefusalCounts(s, m, e);
      case PostDeadlinePassed(_) => DeadlineCounts(s, m, e);
      case PollDeadlinePassed(_) => DeadlineCounts(s, m, e);
      case ResidueQuarantined(_) => DeadlineCounts(s, m, e);
      case OutputStored(_) => StoringCounts(s, m, e);
      case ReconcileStored(_, _) => StoringCounts(s, m, e);
      case PlanSaved(_) => SavingCounts(s, m, e);
      case _ => OtherCounts(s, m, e);
    }
  }

  // ------------------------------------------------ when the limit is kept

  /** The counter is within the limit, with an attempt left while nothing is
      outstanding. */
  predicate WithinLimit(row: Row) {
    && row.attemptCount <= row.maxAttempts
    && (Live(row) && !Outstanding(row) && row.maxAttempts >= 1 ==> row.attemptCount < row.maxAttempts)
  }

  /** The attempts that can pass the limit: finding residue, and any attempt at all
      when none is allowed. */
  predicate Risky(maxAttempts: nat, e: Event) {
    e.ResidueQuarantined? || (maxAttempts == 0 && (e.StagePrepared? || e.LocallyFailed?))
  }

  /** Each of them finds an attempt left on the row. */
  ghost predicate RisksCovered(maxAttempts: nat, log: seq<Event>, states: seq<Machine>) {
    && |states| == |log| + 1
    && forall i: nat :: i < |log| && Risky(maxAttempts, log[i]) ==> states[i].db.row.attemptCount < maxAttempts
  }

  ghost predicate LimitKept(maxAttempts: nat, states: seq<Machine>) {
    forall i: nat :: i < |states| ==> states[i].db.row.attemptCount <= maxAttempts
  }

  lemma StepWithinLimit(s: Settings, m: Machine, e: Event)
    requires Inv(s, m) && Enabled(s, m, e) && WithinLimit(m.db.row)
    requires Risky(m.db.row.maxAttempts, e) ==> m.db.row.attemptCount < m.db.row.maxAttempts
    ensures WithinLimit(Apply(s, m, e).db.row)
  {
    hide PlanInv, PostsInv, KeyInv, HistoryInv, Enabled, Apply;
    StepCounts(s, m, e);
    hide StepIndex, Appends;
  }

  lemma {:induction false} StatesWithinLimit(
      s: Settings, maxAttempts: nat, log: seq<Event>, states: seq<Machine>, i: nat)
    requires Run(s, maxAttempts, log, states) && RisksCovered(maxAttempts, log, states) && i <= |log|
    ensures WithinLimit(states[i].db.row)
  {
    hide Inv, Enabled, Apply, Moves, WithinLimit;
    if i == 0 {
      StartWithinLimit(maxAttempts);
    } else {
      StatesWithinLimit(s, maxAttempts, log, states, i - 1);
      StatesKeepInv(s, maxAttempts, log, states, i - 1);
      StepOfRun(s, maxAttempts, log, states, i - 1);
      StepWithinLimit(s, states[i - 1], log[i - 1]);
    }
  }

  lemma StartWithinLimit(maxAttempts: nat)
    ensures WithinLimit(Start(maxAttempts).db.row)
  {
  }

  /** An uncovered risk passes the limit at once. */
  lemma RiskPassesLimit(s: Settings, m: Machine, e: Event)
    requires Inv(s, m) && Enabled(s, m, e) && Risky(m.db.row.maxAttempts, e)
    requires m.db.row.attemptCount >= m.db.row.maxAttempts
    ensures Apply(s, m, e).db.row.attemptCount > m.db.row.maxAttempts
  {
    hide Inv, Enabled, Apply;
    StepCounts(s, m, e);
  }

  /** The exact condition: a run keeps the attempt counter within `max_attempts`
      exactly if residue is only ever found while an attempt is left.  (With no
      attempts allowed, any submission or local failure passes the limit.) */
  lemma AttemptLimitKeptIff(s: Settings, maxAttempts: nat, log: seq<Event>, states: seq<Machine>)
    requires Run(s, maxAttempts, log, states)
    ensures LimitKept(maxAttempts, states) <==> RisksCovered(maxAttempts, log, states)
  {
    hide Moves, Inv, Enabled, Apply;
    if RisksCovered(maxAttempts, log, states) {
      forall i: nat | i < |states|
        ensures states[i].db.row.attemptCount <= maxAttempts
      {
        StatesWithinLimit(s, maxAttempts, log, states, i);
        StatesKeepInv(s, maxAttempts, log, states, i);
      }
    } else {
      var i: nat :| i < |log| && Risky(maxAttempts, log[i]) && states[i].db.row.attemptCount >= maxAttempts;
      StatesKeepInv(s, maxAttempts, log, states, i);
      StepOfRun(s, maxAttempts, log, states, i);
      RiskPassesLimit(s, states[i], log[i]);
      assert states[i + 1].db.row.attemptCount > maxAttempts;
    }
  }

  // ------------------------------------------------------------ how far past

  /** What the present step has cost beyond epoch and progress. */
  function Surplus(row: Row): nat {
    if Quarantined(row) then 2 else if Outstanding(row) then 1 else 0
  }

  ghost predicate CountInv(s: Settings, row: Row) {
    && (Live(row) ==> row.attemptCount <= row.epoch + StepIndex(row.plan) + Surplus(row))
    && row.attemptCount <= Max(1, row.maxAttempts) + LastStep(s) + 1
  }

  lemma StepWithinPlan(s: Settings, plan: Option<Chunking.Plan>)
    requires PlanInv(s, plan)
    ensures 0 <= StepIndex(plan) <= LastStep(s)
  {
    if plan.Some? {
      PlanShape(s, plan.value);
    }
    hide PlanInv, LastStep;
  }

  lemma CountFollows(s: Settings, row: Row, after: Row, e: Event)
    requires CountStep(s, row, after, e) && CountInv(s, row) && EpochInv(row) && EpochInv(after)
    requires 0 <= StepIndex(row.plan) <= LastStep(s) && StepIndex(after.plan) <= LastStep(s)
    ensures CountInv(s, after)
  {
    hide StepIndex, LastStep, Appends;
  }

  lemma StepKeepsCount(s: Settings, m: Machine, e: Event)
    requires Inv(s, m) && Enabled(s, m, e) && CountInv(s, m.db.row)
    ensures CountInv(s, Apply(s, m, e).db.row)
  {
    hide Enabled, Apply, CountInv, CountStep, PlanInv, EpochInv, HistoryInv, StatusInv, TaskInv, KeyInv, PhaseInv,
      PostsInv;
    var row, after := m.db.row, Apply(s, m, e).db.row;
    StepKeepsInv(s, m, e);
    StepCounts(s, m, e);
    StepWithinPlan(s, row.plan);
    StepWithinPlan(s, after.plan);
    CountFollows(s, row, after, e);
  }

  lemma StartCount(s: Settings, maxAttempts: nat)
    ensures CountInv(s, Start(maxAttempts).db.row)
  {
    hide LastStep;
  }

  lemma {:induction false} StatesKeepCount(
      s: Settings, maxAttempts: nat, log: seq<Event>, states: seq<Machine>, i: nat)
    requires Run(s, maxAttempts, log, states) && i <= |log|
    ensures CountInv(s, states[i].db.row)
  {
    hide Inv, Enabled, Apply, Moves, CountInv;
    if i == 0 {
      StartCount(s, maxAttempts);
    } else {
      StatesKeepCount(s, maxAttempts, log, states, i - 1);
      StepOfRun(s, maxAttempts, log, states, i - 1);
      StepKeepsCount(s, states[i - 1], log[i - 1]);
    }
  }

  /** However often residue is found, the counter passes `max_attempts` by no more
      than the further steps of the plan and one. */
  lemma AttemptsAreBounded(s: Settings, maxAttempts: nat, log: seq<Event>, m: Machine)
    requires Reached(s, maxAttempts, log, m)
    ensures m.db.row.attemptCount <= Max(1, maxAttempts) + LastStep(s) + 1
  {
    var states :| Run(s, maxAttempts, log, states) && states[|log|] == m;
    StatesKeepCount(s, maxAttempts, log, states, |log|);
    StatesKeepInv(s, maxAttempts, log, states, |log|);
    hide Inv, Run, LastStep;
  }

  // ------------------------------------------------------ the bound is met

  const TASK: TaskId := "task"
  const ACCEPTED := PostAnswered(202, Some(TASK), true, None)
  const SAFELY_FAILED := GetAnswered(200, TaskFailed("transient_safe", "overloaded", "try again"), None)

  const SAFE_ERROR := BrokerError("broker_task_failed", Some("transient_safe"), Some("overloaded"), Some(TASK))

  /** Between two attempts at the one request of a stage, `n` tasks having failed. */
  ghost predicate Resting(m: Machine, n: nat, at: real) {
    && m.phase.Idle?
    && Attemptable(m.db.row, at)
    && !Outstanding(m.db.row)
    && m.db.row.plan.None?
    && m.db.row.attemptCount == n
  }

  lemma PrepareAgain(s: Settings, maxAttempts: nat, log: seq<Event>, m: Machine, n: nat, at: real)
    returns (further: seq<Event>, after: Machine)
    requires Reached(s, maxAttempts, log, m) && Resting(m, n, at) && Decide(s, None).Submit?
    ensures Reached(s, maxAttempts, further, after)
    ensures after.phase.Submitting? && Residue(after.db.row) && after.db.row.plan.None?
    ensures after.db.row.attemptCount == n + 1 && Attemptable(after.db.row, at)
  {
    hide Reached, Decide, BrokerGateway.SubmitTask, BrokerGateway.PollTask, BrokerGateway.ReconcileTask;
    ReachedExtends(s, maxAttempts, log, m, StagePrepared(at));
    further, after := log + [StagePrepared(at)], Apply(s, m, StagePrepared(at));
  }

  lemma AcceptedAnswer(key: Key)
    ensures BrokerGateway.SubmitTask(ACCEPTED, key) == Ok(AcceptedTask(TASK, key)) && Sent(ACCEPTED)
  {
  }

  lemma FailedAnswer(partial: bool)
    ensures BrokerGateway.PollTask(SAFELY_FAILED, TASK, partial)
      == Err(SAFE_ERROR)
  {
    assert WellFormedClass("transient_safe");
  }

  /** The POST is accepted. */
  lemma GetAccepted(s: Settings, maxAttempts: nat, log: seq<Event>, m: Machine)
    returns (further: seq<Event>, after: Machine)
    requires Reached(s, maxAttempts, log, m) && m.phase.Submitting?
    ensures Reached(s, maxAttempts, further, after) && after.phase.Polling? && after.phase.task == TASK
    ensures after.db.row == AcceptRow(m.db.row, TASK, m.phase.key)
  {
    hide Reached, Enabled, Apply, BrokerGateway.SubmitTask;
    AcceptedAnswer(m.phase.key);
    Views.PostedView(s, m);
    ReachedExtends(s, maxAttempts, log, m, Posted);
    var posted := Apply(s, m, Posted);
    Views.PostAnswerView(s, posted, ACCEPTED, 0.0);
    ReachedExtends(s, maxAttempts, log + [Posted], posted, TaskAccepted(ACCEPTED));
    further, after := log + [Posted] + [TaskAccepted(ACCEPTED)], Apply(s, posted, TaskAccepted(ACCEPTED));
  }

  /** What a safe failure makes of the row while attempts are left. */
  lemma SafeFailureRetries(s: Settings, m: Machine, at: real)
    requires Inv(s, m) && m.phase.Polling? && m.phase.task == TASK && m.db.row.attemptCount < m.db.row.maxAttempts
    ensures Enabled(s, m, PollRefused(SAFELY_FAILED, at))
    ensures Apply(s, m, PollRefused(SAFELY_FAILED, at)).phase.Idle?
    ensures Retries(m.db.row, Apply(s, m, PollRefused(SAFELY_FAILED, at)).db.row)
  {
    hide Inv, Enabled, Apply, RowInv, BrokerGateway.PollTask, ErrorRow, Retries;
    FailedAnswer(m.phase.operation.kind == PARTIAL);
    Views.InFlightView(s, m);
    Views.PollAnswerView(s, m, SAFELY_FAILED, at);
    Views.EndingIsIdle(s, m, PollRefused(SAFELY_FAILED, at));
    SafeErrorRetries(s, m.db.row, at, m.phase.key);
  }

  lemma SafeErrorRetries(s: Settings, row: Row, at: real, key: Key)
    requires RowInv(s, row) && Outstanding(row) && row.status != Failed
    requires row.taskId == Some(TASK) && row.key == Some(key) && row.attemptCount < row.maxAttempts
    ensures Retries(row, ErrorRow(row, SAFE_ERROR, at, key, Some(TASK)))
  {
    hide PlanInv, KeyInv, HistoryInv, ErrorRow, Retries;
    ErrorEndings(row, SAFE_ERROR, at, key, Some(TASK));
  }

  /** A submission is accepted and its task fails safely. */
  lemma FailSafely(s: Settings, maxAttempts: nat, log: seq<Event>, m: Machine, n: nat, at: real)
    returns (further: seq<Event>, after: Machine, next: real)
    requires Reached(s, maxAttempts, log, m) && m.phase.Submitting? && m.db.row.plan.None?
    requires m.db.row.attemptCount == n + 1 < maxAttempts
    ensures Reached(s, maxAttempts, further, after) && Resting(after, n + 1, next)
  {
    hide Reached, Enabled, Apply, Inv;
    var accepted: Machine;
    further, accepted := GetAccepted(s, maxAttempts, log, m);
    RunKeepsInv(s, maxAttempts, further, accepted);
    NotQuarantined(s, accepted);
    SafeFailureRetries(s, accepted, at);
    var e := PollRefused(SAFELY_FAILED, at);
    ReachedExtends(s, maxAttempts, further, accepted, e);
    further, after := further + [e], Apply(s, accepted, e);
    next := if after.db.row.nextAttemptAt.Some? then after.db.row.nextAttemptAt.value else at;
  }

  lemma NotQuarantined(s: Settings, m: Machine)
    requires Inv(s, m) && m.phase.Polling?
    ensures m.db.row.quarantinedAt.None?
  {
    hide PlanInv, PostsInv, KeyInv, HistoryInv, Decide;
  }

  /** `n` tasks in a row fail safely, one in each epoch. */
  lemma {:induction false} FailRepeatedly(s: Settings, maxAttempts: nat, n: nat)
    returns (log: seq<Event>, m: Machine, at: real)
    requires Decide(s, None).Submit? && (n == 0 || n < maxAttempts)
    ensures Reached(s, maxAttempts, log, m) && Resting(m, n, at)
  {
    hide Reached, Decide;
    if n == 0 {
      log, m, at := [], Start(maxAttempts), 0.0;
      StartReached(s, maxAttempts);
    } else {
      log, m, at := FailRepeatedly(s, maxAttempts, n - 1);
      hide Resting;
      log, m := PrepareAgain(s, maxAttempts, log, m, n - 1, at);
      log, m, at := FailSafely(s, maxAttempts, log, m, n - 1, at);
    }
  }

  /** For every limit there is a run that passes it, as far as the bound allows:
      all attempts but one fail safely, the last one is prepared, the process dies,
      and the residue is found.  At the column's default 3 the counter ends at 4. */
  lemma AttemptLimitIsPassed(s: Settings, maxAttempts: nat) returns (log: seq<Event>, m: Machine)
    requires Chunking.BuildPlan(s.transcript, s.chunking) == Ok(None)
    ensures Reached(s, maxAttempts, log, m)
    ensures m.db.row.attemptCount == Max(1, maxAttempts) + 1 == Max(1, maxAttempts) + LastStep(s) + 1
    ensures Quarantined(m.db.row)
  {
    hide Chunking.BuildPlan, Reached;
    assert Decide(s, None) == Submit(SingleOperation(s));
    hide Decide;
    var at: real;
    log, m, at := FailRepeatedly(s, maxAttempts, Max(0, maxAttempts - 1));
    log, m := PrepareAgain(s, maxAttempts, log, m, Max(0, maxAttempts - 1), at);
    CrashView(s, m);
    ReachedExtends(s, maxAttempts, log, m, Crashed);
    log, m := log + [Crashed], m.(phase := Idle);
    Views.ResidueView(s, m, at);
    hide Enabled, Apply;
    ReachedExtends(s, maxAttempts, log, m, ResidueQuarantined(at));
    var row := m.db.row;
    TimeoutEnding(row.(attemptCount := row.attemptCount + 1), at, row.key,
                  if row.reconciliation == Accepted then row.taskId else None);
    hide TimeoutRow;
    log, m := log + [ResidueQuarantined(at)], Apply(s, m, ResidueQuarantined(at));
  }

  lemma CrashView(s: Settings, m: Machine)
    ensures Enabled(s, m, Crashed) && Apply(s, m, Crashed) == m.(phase := Idle)
  {
  }

  /** A transcript that fits one request. */
  const SHORT := Settings(1, "hello", Chunking.Config(true, 4096, 1000, 100, 8, 4.0, 1024), "", "", "")

  /** Such a run at the column's default of three attempts. */
  lemma FourAttemptsOfThree() returns (log: seq<Event>, m: Machine)
    ensures Reached(SHORT, 3, log, m) && m.db.row.attemptCount == 4
  {
    assert Chunking.BuildPlan(SHORT.transcript, SHORT.chunking) == Ok(None) by {
      assert Ceil(5.0 / 4.0) == 2;
    }
    log, m := AttemptLimitIsPassed(SHORT, 3);
  }
}
