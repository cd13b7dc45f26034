/**
 Chunked map-reduce with crashes, resumes and reconciliation refines one
 uninterrupted pass: when the broker's text depends only on the operation, every
 run that completes stores the same summary.
 */
module Refinement {
  import opened Prelude
  import opened SummaryGateway
  import opened BrokerGateway
  import opened SummaryRow
  import opened BrokerProtocol
  import opened ProtocolInvariant
  import opened ProtocolSteps
  import opened ProtocolTheorems
  import opened FailurePolicy
  import Chunking

  type Broker = Operation -> string

  // --------------------------------------------------------- the simple form

  function PartialText(s: Settings, broker: Broker, step: Chunking.Step): string {
    if step.Partial? && 0 <= step.start <= step.end <= |s.transcript|
    then broker(PartialOperation(s, step.ordinal, step.start, step.end))
    else ""
  }

  function PartialTexts(s: Settings, broker: Broker, steps: seq<Chunking.Step>): (texts: seq<string>)
    ensures |texts| == |steps|
    ensures forall i :: 0 <= i < |steps| ==> texts[i] == PartialText(s, broker, steps[i])
  {
    seq(|steps|, i requires 0 <= i < |steps| => PartialText(s, broker, steps[i]))
  }

  /** One request when the transcript fits; otherwise the partial operation over
      each planned range in order, then the final one over the joined texts. */
  function OnePass(s: Settings, broker: Broker): Option<string> {
    match Chunking.BuildPlan(s.transcript, s.chunking)
    case Err(_) => None
    case Ok(None) => Some(broker(SingleOperation(s)))
    case Ok(Some(built)) =>
      var partials := built.steps[..Max(0, |built.steps| - 1)];
      Some(broker(FinalOperation(s, PartialTexts(s, broker, partials))))
  }

  // ------------------------------------------------------- functional brokers

  ghost function AnsweredTask(m: Machine, e: Event): Option<TaskId> {
    if e.OutputStored? && m.phase.Polling? then Some(m.phase.task)
    else if e.ReconcileStored? then m.db.row.taskId
    else None
  }

  /** The stored text is what this broker makes of the task's operation. */
  ghost predicate Faithful(broker: Broker, m: Machine, e: Event) {
    var task := AnsweredTask(m, e);
    task.Some? && task.value in m.tasks ==> StoredText(m, e) == broker(m.tasks[task.value])
  }

  ghost predicate FaithfulRun(broker: Broker, log: seq<Event>, states: seq<Machine>) {
    |states| == |log| + 1 && forall i: nat :: i < |log| ==> Faithful(broker, states[i], log[i])
  }

  // ------------------------------------------------------------- the relation

  ghost predicate OutputsFollow(s: Settings, broker: Broker, plan: Option<Chunking.Plan>) {
    plan.Some? ==>
      forall i :: 0 <= i < plan.value.nextStep && i < |plan.value.steps| ==>
        plan.value.steps[i].output == Some(PartialText(s, broker, plan.value.steps[i]))
  }

  /** The unresolved task was created for the current operation. */
  ghost predicate TaskFollows(s: Settings, m: Machine) {
    Live(m.db.row) && m.db.row.taskId.Some? ==>
      && m.db.row.taskId.value in m.tasks
      && Decide(s, m.db.row.plan) == Submit(m.tasks[m.db.row.taskId.value])
  }

  ghost predicate Follows(s: Settings, broker: Broker, m: Machine) {
    && OutputsFollow(s, broker, m.db.row.plan)
    && TaskFollows(s, m)
    && (m.db.row.status == Completed ==> m.db.summary == OnePass(s, broker))
  }

  // --------------------------------------------------------------- the steps

  lemma FinalOperationIsOnePass(s: Settings, broker: Broker, plan: Chunking.Plan)
    requires PlanInv(s, Some(plan)) && OutputsFollow(s, broker, Some(plan))
    requires Decide(s, Some(plan)).Submit? && plan.steps[plan.nextStep].Final?
    ensures OnePass(s, broker) == Some(broker(Decide(s, Some(plan)).operation))
  {
    PlanShape(s, plan);
    var built := Chunking.BuildPlan(s.transcript, s.chunking).value.value;
    hide Chunking.BuildPlan, Chunking.EstimatedRequestTokens;
    var n := |plan.steps| - 1;
    var texts := OutputTexts(plan.steps[..n]);
    var ideal := PartialTexts(s, broker, built.steps[..n]);
    forall i | 0 <= i < n
      ensures texts[i] == ideal[i]
    {
      assert SameRange(plan.steps[i], built.steps[i]);
    }
    assert texts == ideal;
    FinalOrdinal(s, plan);
    hide Chunking.PlanOk;
  }

  /** Storing the current operation's own text, partial or final. */
  lemma StoringFollows(s: Settings, broker: Broker, m: Machine, after: Db, text: string)
    requires Inv(s, m) && Follows(s, broker, m) && Outstanding(m.db.row) && m.db.row.taskId.Some?
    requires StepInRange(m.db.row)
    requires AtPartial(m.db.row) ==> Advances(m.db.row, after.row, text) && after.summary == m.db.summary
    requires !AtPartial(m.db.row) ==> Finishes(m.db.row, after.row) && after.summary == Some(text)
    requires text == broker(m.tasks[m.db.row.taskId.value])
    ensures Follows(s, broker, m.(db := after, phase := Idle))
  {
    var plan := m.db.row.plan;
    if plan.Some? {
      PlanShape(s, plan.value);
      if AtPartial(m.db.row) {
        PartialFollows(s, broker, plan.value, text);
      } else {
        FinalOperationIsOnePass(s, broker, plan.value);
      }
      hide OnePass;
    }
    hide PlanInv, PostsInv, PhaseInv, Chunking.EstimatedRequestTokens, Chunking.PlanOk, OutputsFollow;
    assert OutputsFollow(s, broker, after.row.plan) by {
      EmptyFollows(s, broker);
    }
  }

  lemma EmptyFollows(s: Settings, broker: Broker)
    ensures OutputsFollow(s, broker, None)
  {
  }

  lemma PartialFollows(s: Settings, broker: Broker, plan: Chunking.Plan, text: string)
    requires PlanInv(s, Some(plan)) && OutputsFollow(s, broker, Some(plan))
    requires 0 <= plan.nextStep < |plan.steps| && plan.steps[plan.nextStep].Partial?
    requires Decide(s, Some(plan)).Submit? && text == broker(Decide(s, Some(plan)).operation)
    ensures OutputsFollow(s, broker, Some(Chunking.CompleteStep(plan, text)))
  {
    hide Chunking.PlanOk, Chunking.BuildPlan;
  }

  /** The plan is kept or dropped, and an unresolved task is the old one or was
      created for the current operation. */
  ghost predicate KeepsOrDrops(s: Settings, m: Machine, after: Machine) {
    && (after.db == m.db || after.db.row.status != Completed)
    && (after.db.row.plan == m.db.row.plan || after.db.row.plan.None?)
    && (Live(after.db.row) && after.db.row.taskId.Some? ==>
          && after.db.row.plan == m.db.row.plan
          && after.db.row.taskId.value in after.tasks
          && (|| Decide(s, m.db.row.plan) == Submit(after.tasks[after.db.row.taskId.value])
              || (Live(m.db.row) && after.db.row.taskId == m.db.row.taskId && after.tasks == m.tasks)))
  }

  lemma KeepingFollows(s: Settings, broker: Broker, m: Machine, after: Machine)
    requires Follows(s, broker, m) && KeepsOrDrops(s, m, after)
    ensures Follows(s, broker, after)
  {
    EmptyFollows(s, broker);
    hide OutputsFollow, OnePass, Decide;
  }

  /** An error about the operation in flight. */
  lemma ErrorKeepsOrDrops(
    s: Settings, m: Machine, err: BrokerError, at: real, key: Key, task: Option<TaskId>, operation: Operation
  )
    requires Inv(s, m) && Residue(m.db.row) && TaskFollows(s, m)
    requires Possible(err, task) && m.db.row.taskId == task && m.db.row.key == Some(key)
    requires Decide(s, m.db.row.plan) == Submit(operation)
    ensures KeepsOrDrops(s, m, Rest(m, ErrorRow(m.db.row, err, at, key, task)).(
      tasks := Remember(m.tasks, if task.None? then err.taskId else None, operation)))
  {
    ErrorEndings(m.db.row, err, at, key, task);
    hide ErrorRow, PlanInv, PostsInv, HistoryInv, EpochInv, Decide;
  }

  lemma TimeoutKeepsOrDrops(s: Settings, m: Machine, row: Row, at: real, key: Option<Key>, task: Option<TaskId>)
    requires Inv(s, m) && Residue(m.db.row) && TaskFollows(s, m)
    requires row == m.db.row.(attemptCount := row.attemptCount)
    requires (key.Some? ==> row.key == key) && (task.Some? ==> row.taskId == task)
    ensures KeepsOrDrops(s, m, Rest(m, TimeoutRow(row, at, key, task)))
  {
    TimeoutEnding(row, at, key, task);
    hide TimeoutRow, PlanInv, PostsInv, HistoryInv, EpochInv, Decide;
  }

  lemma SubmissionStepsFollow(s: Settings, broker: Broker, m: Machine, e: Event)
    requires Inv(s, m) && Follows(s, broker, m) && Enabled(s, m, e)
    requires e.PostRefused? || e.PollRefused? || e.PostDeadlinePassed? || e.PollDeadlinePassed? || e.ResidueQuarantined?
    ensures Follows(s, broker, Apply(s, m, e))
  {
    hide OutputsFollow, OnePass, Decide, PlanInv, PostsInv, HistoryInv, EpochInv, ErrorRow, TimeoutRow, Possible,
      SubmitTask, PollTask, KeepsOrDrops;
    match e {
      case PostRefused(post, at) =>
        SubmitErrors(post, m.phase.key);
        ErrorKeepsOrDrops(s, m, SubmitTask(post, m.phase.key).error, at, m.phase.key, None, m.phase.operation);
      case PollRefused(reply, at) =>
        PollErrors(reply, m.phase.task, m.phase.operation.kind == PARTIAL);
        ErrorKeepsOrDrops(
          s, m, PollAnswer(m, reply).error, at, m.phase.key, Some(m.phase.task), m.phase.operation);
      case PostDeadlinePassed(at) =>
        DeadlineIsTimeout(m.db.row, at, m.phase.key);
        TimeoutKeepsOrDrops(s, m, m.db.row, at, Some(m.phase.key), None);
      case PollDeadlinePassed(at) =>
        TimeoutKeepsOrDrops(s, m, m.db.row, at, Some(m.phase.key), Some(m.phase.task));
      case ResidueQuarantined(at) =>
        var row := m.db.row;
        var counted := row.(attemptCount := row.attemptCount + 1);
        TimeoutKeepsOrDrops(s, m, counted, at, row.key, if row.reconciliation == Accepted then row.taskId else None);
    }
    KeepingFollows(s, broker, m, Apply(s, m, e));
  }

  lemma DeadlineIsTimeout(row: Row, at: real, key: Key)
    ensures ErrorRow(row, TIMEOUT, at, key, None) == TimeoutRow(row, at, Some(key), None)
  {
  }

  /** The other steps that store no result. */
  lemma OtherStepsFollow(s: Settings, broker: Broker, m: Machine, e: Event)
    requires Inv(s, m) && Follows(s, broker, m) && Enabled(s, m, e)
    requires !e.PostRefused? && !e.PollRefused? && !e.PostDeadlinePassed? && !e.PollDeadlinePassed?
    requires !e.ResidueQuarantined? && !e.OutputStored? && !e.ReconcileStored? && !e.PlanSaved?
    ensures Follows(s, broker, Apply(s, m, e))
  {
    hide OutputsFollow, OnePass, PlanInv, PostsInv, HistoryInv, EpochInv, ErrorRow, TimeoutRow, Possible,
      SubmitTask, PollTask, ReconcileTask, StoreOutput, ReconcileStore, Classify, Decide, Chunking.PlanOk;
    assert KeepsOrDrops(s, m, Apply(s, m, e));
    KeepingFollows(s, broker, m, Apply(s, m, e));
  }

  lemma SavingFollows(s: Settings, broker: Broker, m: Machine, e: Event)
    requires Inv(s, m) && Follows(s, broker, m) && Enabled(s, m, e) && e.PlanSaved?
    ensures Follows(s, broker, Apply(s, m, e))
  {
    Chunking.BuilderMeetsValidator(s.transcript, s.chunking);
    hide PlanInv, PostsInv, OnePass, Chunking.BuildPlan, Chunking.PlanOk;
  }

  lemma StoredTextView(s: Settings, m: Machine, e: Event)
    requires Inv(s, m) && Enabled(s, m, e) && (e.OutputStored? || e.ReconcileStored?)
    ensures m.db.row.taskId.Some? && Outstanding(m.db.row) && AnsweredTask(m, e) == m.db.row.taskId
    ensures StepInRange(m.db.row)
    ensures Apply(s, m, e) == m.(
      db := if e.OutputStored? then StoreOutput(m.db, StoredText(m, e)) else ReconcileStore(m.db, StoredText(m, e)),
      phase := Idle)
  {
    hide PostsInv, PlanInv, PollTask, ReconcileTask, Decide, StoreOutput, ReconcileStore, HistoryInv, EpochInv;
  }

  lemma StepFollows(s: Settings, broker: Broker, m: Machine, e: Event)
    requires Inv(s, m) && Follows(s, broker, m) && Enabled(s, m, e) && Faithful(broker, m, e)
    ensures Follows(s, broker, Apply(s, m, e))
  {
    if e.OutputStored? || e.ReconcileStored? {
      StoredTextView(s, m, e);
      hide Apply, Enabled, OutputsFollow, OnePass, Decide, PostsInv, PhaseInv, PlanInv;
      var text := StoredText(m, e);
      StoringEnds(s, m.db, text);
      var after := if e.OutputStored? then StoreOutput(m.db, text) else ReconcileStore(m.db, text);
      hide StoreOutput, ReconcileStore, StoredText;
      StoringFollows(s, broker, m, after, text);
    } else if e.PlanSaved? {
      SavingFollows(s, broker, m, e);
    } else {
      hide Follows, Inv, Enabled, Apply;
      if e.PostRefused? || e.PollRefused? || e.PostDeadlinePassed? || e.PollDeadlinePassed? || e.ResidueQuarantined? {
        SubmissionStepsFollow(s, broker, m, e);
      } else {
        OtherStepsFollow(s, broker, m, e);
      }
    }
  }

  lemma {:induction false} StatesFollow(
    s: Settings, broker: Broker, maxAttempts: nat, log: seq<Event>, states: seq<Machine>, i: nat
  )
    requires Run(s, maxAttempts, log, states) && FaithfulRun(broker, log, states) && i <= |log|
    ensures Follows(s, broker, states[i])
  {
    hide Inv, Follows, Faithful, Apply, Enabled, Moves;
    StartFollows(s, broker, maxAttempts);
    if i > 0 {
      StatesFollow(s, broker, maxAttempts, log, states, i - 1);
      StepOfRun(s, maxAttempts, log, states, i - 1);
      assert Faithful(broker, states[i - 1], log[i - 1]);
      StepFollows(s, broker, states[i - 1], log[i - 1]);
    }
  }

  lemma StartFollows(s: Settings, broker: Broker, maxAttempts: nat)
    ensures Follows(s, broker, Start(maxAttempts))
  {
    hide OnePass, Decide;
  }

  /** Refinement: with a broker whose text is a function of the operation, any
      run that completes the stage, through whatever mix of crashes, resumes,
      retries and reconciled steps, stores the summary of the single pass. */
  lemma CompletedRunsAgree(
    s: Settings, broker: Broker, maxAttempts: nat, log: seq<Event>, states: seq<Machine>
  )
    requires Run(s, maxAttempts, log, states) && FaithfulRun(broker, log, states)
    requires states[|log|].db.row.status == Completed
    ensures states[|log|].db.summary.Some? && states[|log|].db.summary == OnePass(s, broker)
  {
    StatesFollow(s, broker, maxAttempts, log, states, |log|);
    StatesKeepInv(s, maxAttempts, log, states, |log|);
    hide Run, FaithfulRun;
  }
}
