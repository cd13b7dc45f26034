/**
 The broker route of the pipeline as it runs (app/services/pipeline.py): one
 attempt at the summary stage with its chunk loop, the local failures, the
 operator's unlock and the GET-only reconciler.
 */
module SummaryPipeline {
  import opened Prelude
  import opened SummaryGateway
  import opened BrokerGateway
  import opened SummaryRow
  import opened FailurePolicy
  import opened BrokerProtocol
  import opened ProtocolInvariant
  import opened ProtocolSteps
  import opened ProtocolTheorems
  import opened BrokerSubmission
  import opened BrokerAnswers
  import BrokerPrompts
  import Chunking

  // ------------------------------------------------ events of the pipeline

  lemma LocalFailureView(s: Settings, m: Machine, at: real, code: string)
    requires Inv(s, m) && MayAttempt(m, at) && Decide(s, m.db.row.plan) == FailLocally(code)
    ensures Enabled(s, m, LocallyFailed(at))
    ensures var after := LocalFailureRow(m.db.row, code, at);
      && Apply(s, m, LocallyFailed(at)) == Rest(m, after)
      && after.status == Failed
      && after.plan.None?
      && after.failureCode == Some("backend_context_exceeded")
      && after.failureClass == Some("backend_rejected")
  {
    hide Inv, BrokerPrompts.FitsFinally, BrokerPrompts.SavedOutputs;
    BrokerPrompts.LocalFailureIff(s, m, at);
    hide Decide, BrokerGateway.SubmitTask, BrokerGateway.PollTask, BrokerGateway.ReconcileTask, LocalFailureRow;
  }

  lemma PlanSavedView(s: Settings, m: Machine, at: real, plan: Chunking.Plan)
    requires MayAttempt(m, at) && Decide(s, m.db.row.plan) == SavePlan(plan)
    ensures Enabled(s, m, PlanSaved(at))
    ensures Apply(s, m, PlanSaved(at)) == Rest(m, m.db.row.(plan := Some(plan)))
  {
    hide Decide, BrokerGateway.SubmitTask, BrokerGateway.PollTask, BrokerGateway.ReconcileTask;
  }

  lemma UnlockView(s: Settings, m: Machine, at: real)
    requires m.phase.Idle? && CanUnlock(m.db.row)
    ensures Enabled(s, m, Unlocked(at)) && Apply(s, m, Unlocked(at)) == Rest(m, UnlockRow(m.db.row, at))
  {
    hide Decide, BrokerGateway.SubmitTask, BrokerGateway.PollTask, BrokerGateway.ReconcileTask;
  }

  lemma ReconcileView(s: Settings, m: Machine, reply: GetReply, at: real)
    requires MayReconcile(s, m, at) && StepInRange(m.db.row) && m.db.row.taskId.Some?
    ensures var answer := BrokerGateway.ReconcileTask(reply, m.db.row.taskId.value, AtPartial(m.db.row));
      && (answer.Err? ==>
            && Enabled(s, m, ReconcileRefused(reply, at))
            && Apply(s, m, ReconcileRefused(reply, at)) == Rest(m, ReconcileErrorRow(m.db.row, answer.error, at)))
      && (answer == Ok(None) ==>
            && Enabled(s, m, ReconcileWaited(reply, at))
            && Apply(s, m, ReconcileWaited(reply, at)) == Rest(m, ReconcileWaitRow(m.db.row, at)))
      && (answer.Ok? && answer.value.Some? ==>
            && Enabled(s, m, ReconcileStored(reply, at))
            && Apply(s, m, ReconcileStored(reply, at)) == m.(db := ReconcileStore(m.db, answer.value.value)))
  {
    hide Decide, BrokerGateway.SubmitTask, BrokerGateway.PollTask, BrokerGateway.ReconcileTask, ReconcileErrorRow,
      ReconcileWaitRow, ReconcileStore;
  }

  lemma TaskToReconcile(s: Settings, m: Machine, at: real)
    requires MayReconcile(s, m, at)
    ensures m.db.row.taskId.Some? && m.phase.Idle?
  {
  }

  /** The settings decide what a stage with nothing outstanding does next. */
  lemma DecideOnPlan(s: Settings, plan: Chunking.Plan)
    requires PlanInv(s, Some(plan))
    ensures 0 <= plan.nextStep < |plan.steps|
    ensures match StepOperation(s, plan)
      case Err(code) => Decide(s, Some(plan)) == FailLocally(code)
      case Ok(operation) =>
        && Decide(s, Some(plan)) == Submit(operation)
        && (operation.kind == PARTIAL <==> plan.steps[plan.nextStep].Partial?)
  {
    PlanShape(s, plan);
    hide Chunking.BuildPlan, Chunking.EstimatedRequestTokens;
  }

  lemma DecideFirst(s: Settings)
    ensures match Chunking.BuildPlan(s.transcript, s.chunking)
      case Err(_) => Decide(s, None) == FailLocally(CONTEXT_EXCEEDED)
      case Ok(None) => Decide(s, None) == Submit(SingleOperation(s))
      case Ok(Some(built)) => Decide(s, None) == SavePlan(built)
  {
  }

  lemma PlanInvOf(s: Settings, m: Machine)
    requires Inv(s, m)
    ensures PlanInv(s, m.db.row.plan) && m.db.row.attemptCount >= 0
  {
    hide PlanInv, PostsInv, Decide;
  }

  /** How an attempt at a due stage may leave it. */
  ghost predicate Settles(before: Row, after: Row) {
    after.status == Completed || after.status == Failed || Quarantined(after) || after.epoch == before.epoch + 1
  }

  lemma QuarantineSettles(before: Row, after: Row)
    requires Quarantined(after)
    ensures Settles(before, after)
  {
  }

  lemma SettlesFromEpoch(before: Row, planned: Row, after: Row)
    requires planned.epoch == before.epoch && Settles(planned, after)
    ensures Settles(before, after)
  {
  }

  /** After a completed partial step the next one may be attempted at once. */
  ghost predicate Continues(s: Settings, before: Row, after: Row, at: real) {
    && Attemptable(after, at)
    && !Residue(after)
    && after.epoch == before.epoch
    && before.plan.Some?
    && after.plan.Some?
    && PlanInv(s, after.plan)
    && after.plan.value.nextStep == before.plan.value.nextStep + 1
  }

  lemma AfterAttempt(s: Settings, before: Db, m: Machine, r: SubmissionOutcome, at: real)
    requires Concludes(before, m.db, r) && Inv(s, m)
    ensures r.NotDone? ==> Settles(before.row, m.db.row)
    ensures r.Done? ==> StepInRange(before.row)
    ensures r.Done? && !AtPartial(before.row) ==> Settles(before.row, m.db.row)
    ensures r.Done? && AtPartial(before.row) ==> Continues(s, before.row, m.db.row, at)
  {
    hide PlanInv, PostsInv, Decide, HistoryInv;
  }

  lemma SummaryOnlyAtEnd(s: Settings, m: Machine)
    requires Inv(s, m)
    ensures Live(m.db.row) ==> m.db.summary.None?
  {
  }

  /** What the reconciler finds at an eligible stage: the saved plan is valid, so
      its rejection branch is never taken. */
  lemma OpenToReconcile(s: Settings, m: Machine, at: real)
    requires Inv(s, m) && m.phase.Idle? && Reconcilable(m.db.row, at)
    ensures MayReconcile(s, m, at) && StepInRange(m.db.row) && Live(m.db.row)
    ensures Enabled(s, m, ReconcilePolled(at)) && Apply(s, m, ReconcilePolled(at)) == m
  {
    hide PostsInv, Decide, HistoryInv, Chunking.BuildPlan;
  }

  const MINIMUM_REMAINING := 0.5

  class Pipeline {
    const clock: Clock
    const wallClock: Clock
    const coordinator: Coordinator
    const planDeadlineSeconds: real

    constructor (monotonic: Clock, wall: Clock, timeoutSeconds: real, planDeadline: real)
      ensures clock == monotonic && wallClock == wall && planDeadlineSeconds == planDeadline
      ensures coordinator.clock == monotonic && coordinator.timeoutSeconds == timeoutSeconds
    {
      clock, wallClock, planDeadlineSeconds := monotonic, wall, planDeadline;
      coordinator := new Coordinator(monotonic, timeoutSeconds);
    }

    /** Between two steps: the objects agree with the database. */
    ghost predicate Settled(session: Session, stage: Stage, video: Video)
      reads session, stage, video
    {
      && session.Valid()
      && session.heard.None?
      && session.machine.phase.Idle?
      && session.db == Db(stage.Value(), video.summary)
    }

    /** `_record_local_broker_failure`: nothing was sent, and the stage fails. */
    method RecordLocalBrokerFailure(session: Session, stage: Stage, video: Video, at: real, code: string)
      requires Settled(session, stage, video) && MayAttempt(session.machine, at)
      requires Decide(session.settings, session.db.row.plan) == FailLocally(code)
      modifies session, stage
      ensures Settled(session, stage, video)
      ensures session.log == old(session.log) + [LocallyFailed(at)]
      ensures session.db == old(session.db).(row := LocalFailureRow(old(session.db.row), code, at))
      ensures session.db.row.status == Failed && session.db.row.plan.None?
      ensures session.db.row.failureCode == Some("backend_context_exceeded")
      ensures session.db.row.failureClass == Some("backend_rejected")
    {
      hide Reached, Enabled, Apply, Decide, Inv;
      RunKeepsInv(session.settings, session.maxAttempts, session.log, session.machine);
      LocalFailureView(session.settings, session.machine, at, code);
      ghost var before := stage.Value();
      stage.attemptCount := stage.attemptCount + 1;
      var outcome := Classify(Broker, code, stage.attemptCount, stage.maxAttempts, at, Some(LocalClass(code)));
      stage.NoteFailure(outcome);
      stage.status := if outcome.disposition == Terminal then Failed else PendingRetry;
      stage.plan := None;
      stage.taskId := None;
      stage.key := None;
      assert stage.Value() == LocalFailureRow(before, code, at);
      hide LocalFailureRow;
      session.Commit(stage, video, LocallyFailed(at));
    }

    /** One step of the plan, begun with more than half a second left. */
    method AttemptStep(
      session: Session, stage: Stage, video: Video, context: Context, at: real, deadline: real, operation: Operation
    ) returns (r: SubmissionOutcome)
      requires coordinator.clock == clock
      requires Settled(session, stage, video) && MayAttempt(session.machine, at)
      requires context == Context(session.settings.stageId, session.db.row.epoch)
      requires Decide(session.settings, session.db.row.plan) == Submit(operation)
      requires deadline - clock.time > 0.5
      modifies session, stage, video, clock
      ensures Settled(session, stage, video)
      ensures r.Done? ==> StepInRange(old(session.db.row))
      ensures if r.Done? && AtPartial(old(session.db.row))
        then Continues(session.settings, old(session.db.row), session.db.row, at)
        else Settles(old(session.db.row), session.db.row)
      ensures Polled(old(session.log), session.log, old(clock.Read()), clock.Read(), deadline)
    {
      hide Enabled, Apply, Decide, Reached, Concludes, Polled, Inv;
      stage.attemptCount := stage.attemptCount + 1;
      r := coordinator.Attempt(session, stage, video, context, at, operation, Some(deadline));
      RunKeepsInv(session.settings, session.maxAttempts, session.log, session.machine);
      AfterAttempt(session.settings, old(session.db), session.machine, r, at);
      hide Settles, Continues;
    }

    /** The chunk loop: one partial step after the other under one deadline, then
        the final step.  The check at its top never raises. */
    method AttemptSteps(
      session: Session, stage: Stage, video: Video, context: Context, at: real, deadline: real
    )
      requires coordinator.clock == clock
      requires Settled(session, stage, video) && MayAttempt(session.machine, at) && session.db.row.plan.Some?
      requires context == Context(session.settings.stageId, session.db.row.epoch)
      modifies session, stage, video, clock
      ensures Settled(session, stage, video)
      ensures Settles(old(session.db.row), session.db.row) || deadline - clock.time <= 0.5
      ensures deadline - old(clock.time) <= 0.5 ==> session.log == old(session.log) && session.db == old(session.db)
      ensures Polled(old(session.log), session.log, old(clock.Read()), clock.Read(), deadline)
    {
      hide Enabled, Apply, Decide, Chunking.PlanOk, Chunking.BuildPlan;
      ghost var s, before, start, first := session.settings, session.log, clock.Read(), session.db.row;
      RunKeepsInv(s, session.maxAttempts, session.log, session.machine);
      PlanInvOf(s, session.machine);
      hide Inv, Reached, StepOperation, Settles, Polled;
      PolledNothing(before, Crashed, start, start, deadline);
      while true
        invariant Settled(session, stage, video) && MayAttempt(session.machine, at)
        invariant session.db.row.plan.Some? && PlanInv(s, session.db.row.plan)
        invariant session.db.row.epoch == first.epoch
        invariant Polled(before, session.log, start, clock.Read(), deadline)
        invariant (session.log == before && session.db == old(session.db)) || deadline - start.time > 0.5
        invariant start.time <= clock.time
        decreases LastStep(s) - session.db.row.plan.value.nextStep
      {
        var plan := stage.plan.value;
        var valid := Chunking.ValidatePlan(plan, session.settings.transcript);
        assert valid;
        DecideOnPlan(s, plan);
        ghost var reading := clock.Read();
        var now := clock.Now();
        PolledUntilNow(before, session.log, start, reading, clock.Read(), deadline);
        if deadline - now <= MINIMUM_REMAINING {
          return;
        }
        match StepOperation(session.settings, plan) {
          case Err(code) =>
            PolledFurther(before, session.log, LocallyFailed(at), start, clock.Read(), deadline);
            RecordLocalBrokerFailure(session, stage, video, at, code);
            return;
          case Ok(operation) =>
            ghost var log, begun := session.log, clock.Read();
            var r := AttemptStep(session, stage, video, context, at, deadline, operation);
            PolledTwice(before, log, session.log, start, begun, clock.Read(), deadline);
            if r.NotDone? || operation.kind != PARTIAL {
              return;
            }
        }
      }
    }

    /** The poll budget of one attempt: a chunked stage has one deadline for all
        its steps, a single request the coordinator's timeout. */
    function PollSeconds(s: Settings): real
      reads this, coordinator
    {
      if LastStep(s) > 0 then planDeadlineSeconds else coordinator.timeoutSeconds
    }

    /** `_attempt_broker_summary_stage` */
    method AttemptBrokerSummaryStage(session: Session, stage: Stage, video: Video, at: real)
      requires coordinator.clock == clock
      requires Settled(session, stage, video) && Attemptable(session.db.row, at)
      modifies session, stage, video, clock
      ensures Settled(session, stage, video)
      ensures Residue(old(session.db.row)) ==>
        && session.log == old(session.log) + [ResidueQuarantined(at)]
        && Quarantined(session.db.row)
        && session.db.row.attemptCount == old(session.db.row.attemptCount) + 1
      ensures Settles(old(session.db.row), session.db.row)
        || (LastStep(session.settings) > 0 && clock.time >= old(clock.time) + planDeadlineSeconds - 0.5)
      ensures Polled(old(session.log), session.log, old(clock.Read()), clock.Read(),
        old(clock.time) + PollSeconds(session.settings))
    {
      hide Enabled, Apply, Decide, Chunking.PlanOk, Reached, Inv, Settles, Polled, LastStep;
      RunKeepsInv(session.settings, session.maxAttempts, session.log, session.machine);
      PlanInvOf(session.settings, session.machine);
      var context := Context(session.settings.stageId, stage.epoch);
      if stage.reconciliation == Prepared || stage.reconciliation == Accepted {
        AttemptResidue(session, stage, video, context, at);
        PolledNothing(old(session.log), ResidueQuarantined(at), clock.Read(), clock.Read(),
                      clock.time + PollSeconds(session.settings));
        QuarantineSettles(old(session.db.row), session.db.row);
        return;
      }
      if stage.plan.None? {
        var planned := AttemptUnplanned(session, stage, video, context, at);
        if !planned {
          return;
        }
      } else {
        PlanShape(session.settings, stage.plan.value);
        var valid := Chunking.ValidatePlan(stage.plan.value, session.settings.transcript);
        assert valid;
      }
      ghost var planned, row := session.log, session.db.row;
      AttemptPlanned(session, stage, video, context, at);
      if Settles(row, session.db.row) {
        SettlesFromEpoch(old(session.db.row), row, session.db.row);
      }
      if planned != old(session.log) {
        PolledAfter(old(session.log), PlanSaved(at), session.log, old(clock.Read()), old(clock.Read()), clock.Read(),
                    old(clock.time) + planDeadlineSeconds, old(clock.time) + planDeadlineSeconds);
      }
    }

    /** A stage with a saved plan: its deadline begins now. */
    method AttemptPlanned(session: Session, stage: Stage, video: Video, context: Context, at: real)
      requires coordinator.clock == clock
      requires Settled(session, stage, video) && MayAttempt(session.machine, at) && session.db.row.plan.Some?
      requires context == Context(session.settings.stageId, session.db.row.epoch)
      modifies session, stage, video, clock
      ensures Settled(session, stage, video)
      ensures Settles(old(session.db.row), session.db.row) || clock.time >= old(clock.time) + planDeadlineSeconds - 0.5
      ensures Polled(old(session.log), session.log, old(clock.Read()), clock.Read(),
        old(clock.time) + planDeadlineSeconds)
    {
      hide Settles, Polled, Reached, Enabled, Apply, MayAttempt;
      var now := clock.Now();
      ghost var begun := clock.Read();
      AttemptSteps(session, stage, video, context, at, now + planDeadlineSeconds);
      PolledLater(old(session.log), session.log, old(clock.Read()), begun, clock.Read(),
                  old(clock.time) + planDeadlineSeconds, now + planDeadlineSeconds);
    }

    /** A stage without a saved plan: either a plan is made durable, or the one
        request that the transcript fits is made, or the stage fails. */
    method AttemptUnplanned(session: Session, stage: Stage, video: Video, context: Context, at: real)
      returns (planned: bool)
      requires coordinator.clock == clock
      requires Settled(session, stage, video) && MayAttempt(session.machine, at) && session.db.row.plan.None?
      requires context == Context(session.settings.stageId, session.db.row.epoch)
      modifies session, stage, video, clock
      ensures Settled(session, stage, video)
      ensures planned ==>
        && LastStep(session.settings) > 0
        && session.log == old(session.log) + [PlanSaved(at)]
        && clock.Read() == old(clock.Read())
        && session.db.row.plan.Some?
        && session.db == old(session.db).(row := old(session.db.row).(plan := session.db.row.plan))
      ensures !planned ==> Settles(old(session.db.row), session.db.row)
      ensures Polled(old(session.log), session.log, old(clock.Read()), clock.Read(),
        old(clock.time) + PollSeconds(session.settings))
    {
      DecideFirst(session.settings);
      hide Enabled, Apply, Decide, Reached, Polled;
      planned := false;
      match Chunking.BuildPlan(session.settings.transcript, session.settings.chunking) {
        case Err(_) =>
          PolledNothing(session.log, LocallyFailed(at), clock.Read(), clock.Read(),
                        clock.time + PollSeconds(session.settings));
          RecordLocalBrokerFailure(session, stage, video, at, CONTEXT_EXCEEDED);
        case Ok(None) =>
          AttemptSingle(session, stage, video, context, at);
        case Ok(Some(built)) =>
          planned := true;
          Chunking.BuilderMeetsValidator(session.settings.transcript, session.settings.chunking);
          hide Chunking.BuildPlan, Chunking.PlanOk;
          stage.plan := Some(built);
          PlanSavedView(session.settings, session.machine, at, built);
          session.Commit(stage, video, PlanSaved(at));
          PolledNothing(old(session.log), PlanSaved(at), clock.Read(), clock.Read(),
                        clock.time + PollSeconds(session.settings));
      }
    }

    method AttemptResidue(session: Session, stage: Stage, video: Video, context: Context, at: real)
      requires coordinator.clock == clock
      requires Settled(session, stage, video) && Attemptable(session.db.row, at) && Residue(session.db.row)
      requires session.machine.phase.Idle? && context == Context(session.settings.stageId, session.db.row.epoch)
      modifies session, stage, video, clock
      ensures Settled(session, stage, video)
      ensures session.log == old(session.log) + [ResidueQuarantined(at)] && clock.Read() == old(clock.Read())
      ensures Quarantined(session.db.row)
      ensures session.db.row.attemptCount == old(session.db.row.attemptCount) + 1
    {
      hide Enabled, Apply, Decide, Reached, Inv;
      stage.attemptCount := stage.attemptCount + 1;
      var r := coordinator.Attempt(session, stage, video, context, at, SingleOperation(session.settings), None);
      hide Concludes;
    }

    /** A transcript that fits one request. */
    method AttemptSingle(session: Session, stage: Stage, video: Video, context: Context, at: real)
      requires coordinator.clock == clock
      requires Settled(session, stage, video) && MayAttempt(session.machine, at) && session.db.row.plan.None?
      requires context == Context(session.settings.stageId, session.db.row.epoch)
      requires Decide(session.settings, None) == Submit(SingleOperation(session.settings))
      modifies session, stage, video, clock
      ensures Settled(session, stage, video)
      ensures Settles(old(session.db.row), session.db.row)
      ensures Polled(old(session.log), session.log, old(clock.Read()), clock.Read(),
        old(clock.time) + coordinator.timeoutSeconds)
    {
      hide Enabled, Apply, Decide, Reached, Concludes, Polled, Inv;
      stage.attemptCount := stage.attemptCount + 1;
      var r := coordinator.Attempt(session, stage, video, context, at, SingleOperation(session.settings), None);
      RunKeepsInv(session.settings, session.maxAttempts, session.log, session.machine);
      AfterAttempt(session.settings, old(session.db), session.machine, r, at);
      hide Settles, Continues;
    }

    /** `_attempt_summary_stage` with the broker route: stages that are finished,
        quarantined or not yet due are left alone, without any request. */
    method AttemptSummaryStage(session: Session, stage: Stage, video: Video) returns (attempted: bool)
      requires coordinator.clock == clock && clock != wallClock
      requires Settled(session, stage, video)
      modifies session, stage, video, clock, wallClock
      ensures Settled(session, stage, video)
      ensures !attempted ==> session.db == old(session.db) && session.log == old(session.log)
      ensures !Live(old(session.db.row)) || old(session.db.row).quarantinedAt.Some? ==> !attempted
      ensures attempted ==>
        || Settles(old(session.db.row), session.db.row)
        || (LastStep(session.settings) > 0 && clock.time >= old(clock.time) + planDeadlineSeconds - 0.5)
      ensures Attemptable(old(session.db.row), old(wallClock.time)) ==> attempted
      ensures attempted && old(session.db.row).nextAttemptAt.Some? ==>
        old(session.db.row).nextAttemptAt.value <= wallClock.time
      ensures Polled(old(session.log), session.log, old(clock.Read()), clock.Read(),
        old(clock.time) + PollSeconds(session.settings))
    {
      attempted := false;
      if stage.status != Status.Pending && stage.status != PendingRetry {
        return;
      }
      if stage.quarantinedAt.Some? {
        return;
      }
      var now := wallClock.Now();
      if stage.nextAttemptAt.Some? && stage.nextAttemptAt.value > now {
        return;
      }
      RunKeepsInv(session.settings, session.maxAttempts, session.log, session.machine);
      SummaryOnlyAtEnd(session.settings, session.machine);
      hide Reached, Enabled, Apply, Inv, PollSeconds, Polls, Settles;
      assert video.summary.None?;
      var at := wallClock.Now();
      AttemptBrokerSummaryStage(session, stage, video, at);
      attempted := true;
    }

    /** `make_quarantine_get_eligible`, with its caller's commit.  Only a known
        task that awaits the operator becomes eligible. */
    method MakeQuarantineGetEligible(session: Session, stage: Stage, video: Video, at: real) returns (made: bool)
      requires Settled(session, stage, video)
      modifies session, stage
      ensures Settled(session, stage, video)
      ensures made <==>
        && old(session.db.row).quarantinedAt.Some?
        && old(session.db.row).taskId.Some?
        && old(session.db.row).reconciliation == AwaitingOperator
      ensures made ==>
        && session.log == old(session.log) + [Unlocked(at)]
        && session.db
           == old(session.db).(row := old(session.db.row).(reconciliation := GetEligible, nextReconcileAt := Some(at)))
      ensures !made ==> session.log == old(session.log) && session.db == old(session.db)
    {
      hide Reached, Enabled, Apply;
      made := false;
      if stage.quarantinedAt.None? || stage.taskId.None? {
        return;
      }
      if stage.reconciliation != AwaitingOperator {
        return;
      }
      UnlockView(session.settings, session.machine, at);
      stage.reconciliation := GetEligible;
      stage.nextReconcileAt := Some(at);
      session.Commit(stage, video, Unlocked(at));
      made := true;
    }

    /** A result the reconciler obtained. */
    method StoreReconciled(stage: Stage, video: Video, text: string)
      requires StepInRange(stage.Value())
      modifies stage, video
      ensures Db(stage.Value(), video.summary) == ReconcileStore(old(Db(stage.Value(), video.summary)), text)
    {
      stage.failureClass := None;
      stage.failureCode := None;
      stage.quarantinedAt := None;
      stage.reconciliation := NotReconciling;
      stage.nextReconcileAt := None;
      if stage.plan.Some? {
        stage.attemptCount := Max(0, stage.attemptCount - 1);
        var plan := stage.plan.value;
        if plan.steps[plan.nextStep].Partial? {
          stage.plan := Some(Chunking.CompleteStep(plan, text));
          stage.status := PendingRetry;
          stage.taskId := None;
          stage.key := None;
          stage.nextAttemptAt := None;
          return;
        }
      }
      video.summary := Some(text);
      stage.status := Completed;
      stage.plan := None;
    }

    /** A failed GET: another try in a minute, or the end. */
    method NoteReconcileError(stage: Stage, err: Option<BrokerError>, at: real)
      modifies stage
      ensures stage.Value() == ReconcileErrorRow(old(stage.Value()), err, at)
      ensures if err.Some? && GetOr(err.value.failureClass, "indeterminate") != "indeterminate"
        then
          && stage.status == Failed
          && stage.quarantinedAt.None?
          && stage.plan.None?
          && stage.taskId == old(stage.taskId)
        else StaysOpen(old(stage.Value()), stage.Value(), at)
    {
      match err {
        case Some(e) =>
          stage.failureCode := Some(ErrorCode(e));
          stage.failureClass := Some(GetOr(e.failureClass, "indeterminate"));
        case None =>
          stage.failureCode := Some("broker_task_failed");
          stage.failureClass := Some("indeterminate");
      }
      if stage.failureClass == Some("indeterminate") {
        stage.reconciliation := GetEligible;
        stage.nextReconcileAt := Some(at + RECONCILE_DELAY_SECONDS);
      } else {
        stage.status := Failed;
        stage.quarantinedAt := None;
        stage.reconciliation := NotReconciling;
        stage.plan := None;
      }
    }

    /** `reconcile_quarantined_summaries` at one stage, with its caller's commit:
        one GET about the known task and never a submission. */
    method ReconcileQuarantined(session: Session, stage: Stage, video: Video, at: real) returns (completed: bool)
      requires Settled(session, stage, video)
      modifies session, stage, video
      ensures Settled(session, stage, video)
      ensures session.machine.posts == old(session.machine.posts)
      ensures !Reconcilable(old(session.db.row), at) ==>
        !completed && session.log == old(session.log) && session.db == old(session.db)
      ensures Reconcilable(old(session.db.row), at) ==>
        && StepInRange(old(session.db.row))
        && |session.log| == |old(session.log)| + 2
        && old(session.log) + [ReconcilePolled(at)] <= session.log
        && Reconciled(old(session.db), session.db, AtPartial(old(session.db.row)), session.log[|session.log| - 1], at)
      ensures session.log != old(session.log) && old(session.db.row).nextReconcileAt.Some? ==>
        old(session.db.row).nextReconcileAt.value <= at
      ensures completed <==> session.db.row.status == Completed && old(session.db.row).status != Completed
      ensures completed ==> session.db.summary.Some?
    {
      completed := false;
      hide Reached, Enabled, Apply, Inv, Reconciled, Chunking.PlanOk;
      ghost var s, m := session.settings, session.machine;
      RunKeepsInv(s, session.maxAttempts, session.log, m);
      if stage.quarantinedAt.None? || stage.taskId.None? || stage.reconciliation != GetEligible
         || (stage.nextReconcileAt.Some? && stage.nextReconcileAt.value > at) {
        return;
      }
      OpenToReconcile(s, m, at);
      if stage.plan.Some? {
        var valid := Chunking.ValidatePlan(stage.plan.value, session.settings.transcript);
        assert valid;
      }
      var reply := session.ReconcileTask(at);
      completed := ApplyReconciled(session, stage, video, at, reply);
    }

    /** What the reconciler's GET does to the stage. */
    method ApplyReconciled(session: Session, stage: Stage, video: Video, at: real, reply: GetReply)
      returns (completed: bool)
      requires session.Valid() && session.db == Db(stage.Value(), video.summary) && session.heard == Some(ToGet(reply))
      requires MayReconcile(session.settings, session.machine, at)
      requires StepInRange(stage.Value()) && Live(stage.Value())
      modifies session, stage, video
      ensures Settled(session, stage, video)
      ensures session.machine.posts == old(session.machine.posts)
      ensures |session.log| == |old(session.log)| + 1 && old(session.log) <= session.log
      ensures Reconciled(
        old(session.db), session.db, AtPartial(old(session.db.row)), session.log[|session.log| - 1], at)
      ensures completed <==> session.db.row.status == Completed
      ensures completed ==> session.db.summary.Some?
    {
      hide Reached, Enabled, Apply, BrokerGateway.ReconcileTask, MayReconcile, Inv, Reconciled, StaysOpen,
        ReconcileErrorRow, ReconcileStore;
      ghost var s, m := session.settings, session.machine;
      RunKeepsInv(s, session.maxAttempts, session.log, m);
      TaskToReconcile(s, m, at);
      ReconcileView(s, m, reply, at);
      var task, partial := stage.taskId.value, AtPartial(stage.Value());
      completed := false;
      match BrokerGateway.ReconcileTask(reply, task, partial) {
        case Err(err) =>
          NoteReconcileError(stage, err, at);
          session.Commit(stage, video, ReconcileRefused(reply, at));
          ReconcileEffect(s, m, ReconcileRefused(reply, at), at);
        case Ok(None) =>
          stage.nextReconcileAt := Some(at + RECONCILE_DELAY_SECONDS);
          session.Commit(stage, video, ReconcileWaited(reply, at));
          ReconcileEffect(s, m, ReconcileWaited(reply, at), at);
        case Ok(Some(text)) =>
          StoreReconciled(stage, video, text);
          completed := !partial;
          session.Commit(stage, video, ReconcileStored(reply, at));
          ReconcileEffect(s, m, ReconcileStored(reply, at), at);
      }
    }
  }
}
