/** The main results about every run of the submission protocol. */
module ProtocolTheorems {
  import opened Prelude
  import opened SummaryGateway
  import opened BrokerGateway
  import opened SummaryRow
  import opened FailurePolicy
  import opened BrokerProtocol
  import opened ProtocolInvariant
  import opened ProtocolSteps
  import Chunking
  import Idempotency

  /** Every state of every run satisfies the invariant. */
  lemma {:induction false} StatesKeepInv(s: Settings, maxAttempts: nat, log: seq<Event>, states: seq<Machine>, i: nat)
    requires Run(s, maxAttempts, log, states) && i <= |log|
    ensures Inv(s, states[i]) && states[i].db.row.maxAttempts == maxAttempts
  {
    if i == 0 {
      StartInv(s, maxAttempts);
    } else {
      StatesKeepInv(s, maxAttempts, log, states, i - 1);
      assert Moves(s, log, states, i - 1);
      hide Inv, Enabled, Apply;
      StepKeepsInv(s, states[i - 1], log[i - 1]);
      MaxAttemptsFixed(s, states[i - 1], log[i - 1]);
    }
  }

  lemma RunKeepsInv(s: Settings, maxAttempts: nat, log: seq<Event>, m: Machine)
    requires Reached(s, maxAttempts, log, m)
    ensures Inv(s, m) && m.db.row.maxAttempts == maxAttempts
  {
    var states :| Run(s, maxAttempts, log, states) && states[|log|] == m;
    StatesKeepInv(s, maxAttempts, log, states, |log|);
  }

  /** What holds at a step of a run. */
  lemma StepOfRun(s: Settings, maxAttempts: nat, log: seq<Event>, states: seq<Machine>, i: nat)
    requires Run(s, maxAttempts, log, states) && i < |log|
    ensures |states| == |log| + 1 && Inv(s, states[i]) && Enabled(s, states[i], log[i])
    ensures states[i + 1] == Apply(s, states[i], log[i])
  {
    StatesKeepInv(s, maxAttempts, log, states, i);
    hide Inv, Enabled, Apply;
    assert Moves(s, log, states, i);
  }

  lemma MaxAttemptsFixed(s: Settings, m: Machine, e: Event)
    requires Enabled(s, m, e)
    ensures Apply(s, m, e).db.row.maxAttempts == m.db.row.maxAttempts
  {
    hide Decide, SubmitTask, PollTask, ReconcileTask, Classify, Backoff;
  }

  // ------------------------------------------------------------ submissions

  /** In every run, with crashes anywhere, retries, resumes and operator steps,
      no two POSTs carry the same epoch, operation kind and ordinal. */
  lemma NoDuplicateSubmission(s: Settings, maxAttempts: nat, log: seq<Event>, m: Machine, i: nat, j: nat)
    requires Reached(s, maxAttempts, log, m) && i < j < |m.posts|
    ensures (m.posts[i].epoch, m.posts[i].kind, m.posts[i].ordinal)
         != (m.posts[j].epoch, m.posts[j].kind, m.posts[j].ordinal)
    ensures Rank(s, m.posts[i]) < Rank(s, m.posts[j])
  {
    RunKeepsInv(s, maxAttempts, log, m);
  }

  /** So the bytes that are hashed into the keys of two submissions differ. */
  lemma SubmissionsHashDistinctBytes(
    s: Settings, maxAttempts: nat, log: seq<Event>, m: Machine, i: nat, j: nat
  )
    requires Reached(s, maxAttempts, log, m) && i < j < |m.posts|
    requires Idempotency.PreImage(m.posts[i]).Ok? && Idempotency.PreImage(m.posts[j]).Ok?
    ensures Idempotency.PreImage(m.posts[i]) != Idempotency.PreImage(m.posts[j])
  {
    hide Reached, Idempotency.PreImage;
    NoDuplicateSubmission(s, maxAttempts, log, m, i, j);
    if Idempotency.PreImage(m.posts[i]) == Idempotency.PreImage(m.posts[j]) {
      Idempotency.PreImageInjective(m.posts[i], m.posts[j]);
    }
  }

  lemma {:induction false} RankAtLeastIndex(s: Settings, posts: seq<Key>, n: nat)
    requires n < |posts| && Increasing(s, posts) && 0 <= Rank(s, posts[0])
    ensures n <= Rank(s, posts[n])
  {
    hide Rank;
    if n > 0 {
      RankAtLeastIndex(s, posts, n - 1);
    }
  }

  /** A stage never submits more tasks than its attempts plus the further steps
      of its plan. */
  lemma SubmissionBound(s: Settings, maxAttempts: nat, log: seq<Event>, m: Machine)
    requires Reached(s, maxAttempts, log, m)
    ensures |m.posts| <= Max(1, maxAttempts) + LastStep(s)
  {
    RunKeepsInv(s, maxAttempts, log, m);
    if m.posts != [] {
      RankAtLeastIndex(s, m.posts, |m.posts| - 1);
    }
  }

  /** The epoch never passes the attempts made, stays strictly below them while
      anything is outstanding, and the history names every past epoch. */
  lemma HistoryIsComplete(s: Settings, maxAttempts: nat, log: seq<Event>, m: Machine)
    requires Reached(s, maxAttempts, log, m)
    ensures m.db.row.epoch <= m.db.row.attemptCount && m.db.row.epoch <= maxAttempts
    ensures Outstanding(m.db.row) ==> m.db.row.epoch < m.db.row.attemptCount
    ensures |m.db.row.history| >= m.db.row.epoch
    ensures forall e :: 0 <= e < |m.db.row.history| ==> m.db.row.history[e].epoch == e
  {
    RunKeepsInv(s, maxAttempts, log, m);
  }

  /** Write-ahead: a POST leaves only with its key durable under the prepared
      marker, a result poll only with its task durable under the accepted marker
      or, for the reconciler, after the operator's step. */
  lemma WriteAhead(s: Settings, maxAttempts: nat, log: seq<Event>, states: seq<Machine>, i: nat)
    requires Run(s, maxAttempts, log, states) && i < |log|
    ensures var m, e, after := states[i], log[i], states[i + 1];
      && (if e.Posted? then
            && m.db.row.reconciliation == Prepared
            && m.db.row.key.Some?
            && after.posts == m.posts + [m.db.row.key.value]
          else after.posts == m.posts)
      && (e.ResultPolled? ==>
            && m.phase.Polling?
            && m.db.row.reconciliation == Accepted
            && m.db.row.taskId == Some(m.phase.task))
      && (e.ReconcilePolled? ==> m.db.row.reconciliation == GetEligible && m.db.row.taskId.Some?)
  {
    StepOfRun(s, maxAttempts, log, states, i);
    hide Run;
    PostsGrowByPosting(s, states[i], log[i]);
    hide RowInv, PostsInv, Decide, SubmitTask, PollTask, ReconcileTask, Apply;
  }

  lemma PostsGrowByPosting(s: Settings, m: Machine, e: Event)
    requires Enabled(s, m, e)
    ensures Apply(s, m, e).posts == if e.Posted? then m.posts + [m.phase.key] else m.posts
  {
    hide Decide, SubmitTask, PollTask, ReconcileTask, ErrorRow, TimeoutRow, ResidueRow, LocalFailureRow, StoreOutput,
      ReconcileStore, ReconcileErrorRow;
  }

  // -------------------------------------------------------------- quarantine

  /** A quarantined stage submits nothing, is not polled before the operator's
      step, and only that step ends the wait; without a task id nothing does. */
  lemma QuarantineIsolation(s: Settings, maxAttempts: nat, log: seq<Event>, states: seq<Machine>, i: nat)
    requires Run(s, maxAttempts, log, states) && i < |log|
    ensures var m, e, after := states[i], log[i], states[i + 1];
      && (m.db.row.quarantinedAt.Some? <==> Quarantined(m.db.row))
      && (Quarantined(m.db.row) ==> !e.Posted? && !e.ResultPolled?)
      && (m.db.row.reconciliation == AwaitingOperator ==>
            && !e.ReconcilePolled?
            && (after.db == m.db || (e.Unlocked? && m.db.row.taskId.Some?)))
      && (Quarantined(m.db.row) && m.db.row.taskId.None? ==> after.db == m.db)
  {
    StepOfRun(s, maxAttempts, log, states, i);
    hide Run, PlanInv, PostsInv, Decide, SubmitTask, PollTask, ReconcileTask, KeyInv;
  }

  /** Completed and failed stages never change again, and the summary is there
      exactly when the stage is completed. */
  lemma EndIsFinal(s: Settings, maxAttempts: nat, log: seq<Event>, states: seq<Machine>, i: nat)
    requires Run(s, maxAttempts, log, states) && i < |log|
    ensures states[i].db.summary.Some? <==> states[i].db.row.status == Completed
    ensures !Live(states[i].db.row) ==> states[i + 1].db == states[i].db
  {
    StepOfRun(s, maxAttempts, log, states, i);
    hide Run, PlanInv, PostsInv, Decide, SubmitTask, PollTask, ReconcileTask, KeyInv;
  }

  // ------------------------------------------------------------ task custody

  /** The text that the reply about the row's task carried. */
  ghost function StoredText(m: Machine, e: Event): string {
    if e.OutputStored? && m.phase.Polling? && m.db.row.taskId == Some(m.phase.task)
       && PollAnswer(m, e.reply).Ok? && PollAnswer(m, e.reply).value.Some?
    then PollAnswer(m, e.reply).value.value
    else if e.ReconcileStored? && m.db.row.taskId.Some? && StepInRange(m.db.row)
       && ReconcileAnswer(m, e.reply).Ok? && ReconcileAnswer(m, e.reply).value.Some?
    then ReconcileAnswer(m, e.reply).value.value
    else ""
  }

  /** The step stored the result of the task that was on the row. */
  ghost predicate ResultStored(m: Machine, after: Machine, e: Event) {
    && (e.OutputStored? || e.ReconcileStored?)
    && m.db.row.plan.Some?
    && 0 <= m.db.row.plan.value.nextStep < |m.db.row.plan.value.steps|
    && after.db.row.plan.Some?
    && |after.db.row.plan.value.steps| == |m.db.row.plan.value.steps|
    && after.db.row.plan.value.steps[m.db.row.plan.value.nextStep].output == Some(StoredText(m, e))
    && after.db.row.plan.value.nextStep == m.db.row.plan.value.nextStep + 1
  }

  /** The step recorded that the broker reported this very task as failed with
      a safe class. */
  ghost predicate FailureRecorded(m: Machine, after: Machine, e: Event) {
    && e.PollRefused?
    && m.phase.Polling?
    && PollAnswer(m, e.reply).Err?
    && PollAnswer(m, e.reply).error.code == "broker_task_failed"
    && PollAnswer(m, e.reply).error.taskId == m.db.row.taskId
    && PollAnswer(m, e.reply).error.failureClass.value in SAFE_CLASSES
    && Retries(m.db.row, after.db.row)
  }

  /** A committed task id leaves the row only with its result stored or its
      confirmed safe failure recorded; every other step keeps it. */
  lemma TaskIdConserved(s: Settings, maxAttempts: nat, log: seq<Event>, states: seq<Machine>, i: nat)
    requires Run(s, maxAttempts, log, states) && i < |log| && states[i].db.row.taskId.Some?
    ensures
      || states[i + 1].db.row.taskId == states[i].db.row.taskId
      || ResultStored(states[i], states[i + 1], log[i])
      || FailureRecorded(states[i], states[i + 1], log[i])
  {
    StepOfRun(s, maxAttempts, log, states, i);
    hide Run;
    StepKeepsTask(s, states[i], log[i]);
    hide ResultStored, FailureRecorded, Enabled, Apply, Inv;
  }

  lemma StepKeepsTask(s: Settings, m: Machine, e: Event)
    requires Inv(s, m) && Enabled(s, m, e) && m.db.row.taskId.Some?
    ensures var after := Apply(s, m, e);
      || after.db.row.taskId == m.db.row.taskId
      || ResultStored(m, after, e)
      || FailureRecorded(m, after, e)
  {
    hide PostsInv;
    match e {
      case PollRefused(reply, at) => RefusalKeepsTask(s, m, e);
      case PollDeadlinePassed(at) =>
        hide PollTask, PlanInv, Decide;
        TimeoutEnding(m.db.row, at, Some(m.phase.key), Some(m.phase.task));
      case OutputStored(reply) => StoringKeepsTask(s, m, e);
      case ReconcileStored(reply, at) => StoringKeepsTask(s, m, e);
      case LocallyFailed(at) => hide PlanInv, Decide, LocalFailureRow, KeyInv;
      case _ => hide PlanInv, Decide, SubmitTask, PollTask, ReconcileTask, KeyInv, HistoryInv, EpochInv;
    }
  }

  lemma RefusalKeepsTask(s: Settings, m: Machine, e: Event)
    requires Inv(s, m) && e.PollRefused? && Enabled(s, m, e)
    ensures Apply(s, m, e).db.row.taskId == m.db.row.taskId || FailureRecorded(m, Apply(s, m, e), e)
  {
    PollErrors(e.reply, m.phase.task, m.phase.operation.kind == PARTIAL);
    hide PostsInv, PollTask, PlanInv, Decide;
    ErrorEndings(m.db.row, PollAnswer(m, e.reply).error, e.at, m.phase.key, Some(m.phase.task));
    hide ErrorRow;
  }

  lemma StoringKeepsTask(s: Settings, m: Machine, e: Event)
    requires Inv(s, m) && (e.OutputStored? || e.ReconcileStored?) && Enabled(s, m, e)
    ensures Apply(s, m, e).db.row.taskId == m.db.row.taskId || ResultStored(m, Apply(s, m, e), e)
  {
    hide PostsInv, PollTask, ReconcileTask, Decide;
    var text := if e.OutputStored? then PollAnswer(m, e.reply).value.value else ReconcileAnswer(m, e.reply).value.value;
    StoringEnds(s, m.db, text);
    hide StoreOutput, ReconcileStore, PlanInv;
  }

  // -------------------------------------------------------------------- plan

  /** A persisted plan stays valid in every reachable state, so neither the
      check at the top of the chunk loop nor the reconciler's ever rejects it,
      and its pieces are always the whole transcript. */
  lemma SavedPlanStaysValid(s: Settings, maxAttempts: nat, log: seq<Event>, m: Machine, at: real)
    requires Reached(s, maxAttempts, log, m) && m.db.row.plan.Some?
    ensures Chunking.PlanOk(m.db.row.plan.value, s.transcript)
    ensures !Enabled(s, m, ReconcilePlanRejected(at))
    ensures Decide(s, m.db.row.plan) != FailLocally(PLAN_INVALID)
    ensures Chunking.Pieces(m.db.row.plan.value.steps, |m.db.row.plan.value.steps|, s.transcript) == s.transcript
  {
    hide Reached, Decide, Chunking.PlanOk, Chunking.BuildPlan, Chunking.Pieces;
    RunKeepsInv(s, maxAttempts, log, m);
    var plan := m.db.row.plan.value;
    assert PlanInv(s, Some(plan));
    hide Inv;
    CurrentStepIsSubmittable(s, plan);
    Chunking.AcceptedPlanReassembles(plan, s.transcript);
  }

  lemma CurrentStepIsSubmittable(s: Settings, plan: Chunking.Plan)
    requires PlanInv(s, Some(plan))
    ensures Decide(s, Some(plan)) != FailLocally(PLAN_INVALID)
  {
    PlanShape(s, plan);
    ValidStepsHaveText(plan, s.transcript);
    if plan.steps[plan.nextStep].Final? {
      var operation := FinalOperation(s, OutputTexts(plan.steps[..|plan.steps| - 1]));
      ValidPlanEstimates(plan, s.transcript, |operation.prompt|);
    }
    hide Chunking.BuildPlan, Chunking.PlanOk, Chunking.EstimatedRequestTokens, FinalOperation;
  }

  lemma ValidStepsHaveText(plan: Chunking.Plan, transcript: string)
    requires Chunking.PlanOk(plan, transcript)
    ensures forall i :: 0 <= i < plan.nextStep ==> plan.steps[i].output.Some? && plan.steps[i].output.value != ""
    ensures plan.steps[plan.nextStep].Partial? ==>
      0 <= plan.steps[plan.nextStep].start < plan.steps[plan.nextStep].end <= |transcript|
  {
    hide Chunking.SplitLimits;
    var limits := Chunking.SplitLimits(Chunking.ActiveConfig(plan.config)).value;
    assert Chunking.StepOk(plan.steps, plan.nextStep, |transcript|, limits.0, limits.1);
    forall i | 0 <= i < plan.nextStep
      ensures plan.steps[i].output.Some? && plan.steps[i].output.value != ""
    {
      assert Chunking.StepOk(plan.steps, i, |transcript|, limits.0, limits.1);
    }
  }

  lemma FinalOrdinal(s: Settings, plan: Chunking.Plan)
    requires Chunking.PlanOk(plan, s.transcript) && plan.steps[plan.nextStep].Final?
    ensures plan.steps[plan.nextStep].ordinal == 0
  {
    hide Chunking.SplitLimits;
    var limits := Chunking.SplitLimits(Chunking.ActiveConfig(plan.config)).value;
    assert Chunking.StepOk(plan.steps, plan.nextStep, |s.transcript|, limits.0, limits.1);
  }

  lemma ValidPlanEstimates(plan: Chunking.Plan, transcript: string, n: int)
    requires Chunking.PlanOk(plan, transcript)
    ensures Chunking.EstimatedRequestTokens(n, Chunking.ActiveConfig(plan.config)).Ok?
  {
    hide Chunking.ChunkCapacity, Chunking.StepOk, Chunking.PreviousEnd;
  }
}
