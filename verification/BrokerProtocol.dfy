/**
 The crash-safe submission protocol of one summary stage as a machine over the
 durable row: every commit, every request that leaves for the broker, every
 operator step and every crash is one event.

 A run is any sequence of enabled events from a new stage.  A crash may come
 between any two events; it loses the worker's phase and keeps the row.
 */
module BrokerProtocol {
  import opened Prelude
  import opened SummaryGateway
  import opened BrokerGateway
  import opened SummaryRow
  import opened FailurePolicy
  import Chunking

  /** Where the one worker stands between two commits. */
  datatype Phase =
    | Idle
    | Submitting(operation: Operation, key: Key)
    | Answering(operation: Operation, key: Key)
    | Polling(operation: Operation, key: Key, task: TaskId)

  /** The durable state, the worker's phase, the keys of all POSTs so far, and
      the operation each task known to the broker was created for. */
  datatype Machine = Machine(db: Db, phase: Phase, posts: seq<Key>, tasks: map<TaskId, Operation>)

  datatype Event =
    | PlanSaved(at: real)
    | StagePrepared(at: real)
    | Posted
    | PostDeadlinePassed(at: real)
    | PostRefused(post: PostReply, at: real)
    | TaskAccepted(post: PostReply)
    | ResultPolled
    | PollDeadlinePassed(at: real)
    | PollRefused(reply: GetReply, at: real)
    | OutputStored(reply: GetReply)
    | ResidueQuarantined(at: real)
    | LocallyFailed(at: real)
    | Unlocked(at: real)
    | ReconcilePolled(at: real)
    | ReconcileWaited(reply: GetReply, at: real)
    | ReconcileRefused(reply: GetReply, at: real)
    | ReconcileStored(reply: GetReply, at: real)
    | ReconcilePlanRejected(at: real)
    | Crashed

  function Start(maxAttempts: int): Machine {
    Machine(Db(NewRow(maxAttempts), None), Idle, [], map[])
  }

  predicate MayAttempt(m: Machine, at: real) {
    m.phase.Idle? && Attemptable(m.db.row, at) && !Residue(m.db.row)
  }

  predicate MayReconcile(s: Settings, m: Machine, at: real) {
    && m.phase.Idle?
    && Reconcilable(m.db.row, at)
    && (m.db.row.plan.Some? ==> Chunking.PlanOk(m.db.row.plan.value, s.transcript))
  }

  function PollAnswer(m: Machine, reply: GetReply): Result<Option<string>, BrokerError>
    requires m.phase.Polling?
  {
    PollTask(reply, m.phase.task, m.phase.operation.kind == PARTIAL)
  }

  function ReconcileAnswer(m: Machine, reply: GetReply): Result<Option<string>, Option<BrokerError>>
    requires m.db.row.taskId.Some? && StepInRange(m.db.row)
  {
    ReconcileTask(reply, m.db.row.taskId.value, AtPartial(m.db.row))
  }

  predicate Enabled(s: Settings, m: Machine, e: Event) {
    match e
    case PlanSaved(at) => MayAttempt(m, at) && Decide(s, m.db.row.plan).SavePlan?
    case StagePrepared(at) => MayAttempt(m, at) && Decide(s, m.db.row.plan).Submit?
    case Posted => m.phase.Submitting?
    case PostDeadlinePassed(at) => m.phase.Submitting?
    case PostRefused(post, at) =>
      && (m.phase.Submitting? || m.phase.Answering?)
      && (m.phase.Answering? <==> Sent(post))
      && SubmitTask(post, m.phase.key).Err?
    case TaskAccepted(post) => m.phase.Answering? && SubmitTask(post, m.phase.key).Ok?
    case ResultPolled => m.phase.Polling?
    case PollDeadlinePassed(at) => m.phase.Polling?
    case PollRefused(reply, at) => m.phase.Polling? && PollAnswer(m, reply).Err?
    case OutputStored(reply) =>
      && m.phase.Polling?
      && StepInRange(m.db.row)
      && PollAnswer(m, reply).Ok?
      && PollAnswer(m, reply).value.Some?
    case ResidueQuarantined(at) => m.phase.Idle? && Attemptable(m.db.row, at) && Residue(m.db.row)
    case LocallyFailed(at) => MayAttempt(m, at) && Decide(s, m.db.row.plan).FailLocally?
    case Unlocked(at) => m.phase.Idle? && CanUnlock(m.db.row)
    case ReconcilePolled(at) => MayReconcile(s, m, at)
    case ReconcileWaited(reply, at) =>
      MayReconcile(s, m, at) && StepInRange(m.db.row) && ReconcileAnswer(m, reply) == Ok(None)
    case ReconcileRefused(reply, at) =>
      MayReconcile(s, m, at) && StepInRange(m.db.row) && ReconcileAnswer(m, reply).Err?
    case ReconcileStored(reply, at) =>
      && MayReconcile(s, m, at)
      && StepInRange(m.db.row)
      && ReconcileAnswer(m, reply).Ok?
      && ReconcileAnswer(m, reply).value.Some?
    case ReconcilePlanRejected(at) =>
      && m.phase.Idle?
      && Reconcilable(m.db.row, at)
      && m.db.row.plan.Some?
      && !Chunking.PlanOk(m.db.row.plan.value, s.transcript)
    case Crashed => true
  }

  function Rest(m: Machine, row: Row): Machine {
    m.(db := m.db.(row := row), phase := Idle)
  }

  function Remember(tasks: map<TaskId, Operation>, task: Option<TaskId>, operation: Operation): map<TaskId, Operation> {
    if task.Some? then tasks[task.value := operation] else tasks
  }

  function Apply(s: Settings, m: Machine, e: Event): Machine
    requires Enabled(s, m, e)
  {
    var row := m.db.row;
    match e
    case PlanSaved(at) => Rest(m, row.(plan := Some(Decide(s, row.plan).plan)))
    case StagePrepared(at) =>
      var operation := Decide(s, row.plan).operation;
      var key := KeyOf(s.stageId, row.epoch, operation);
      m.(db := m.db.(row := PrepareRow(row, key)), phase := Submitting(operation, key))
    case Posted => m.(phase := Answering(m.phase.operation, m.phase.key), posts := m.posts + [m.phase.key])
    case PostDeadlinePassed(at) => Rest(m, ErrorRow(row, TIMEOUT, at, m.phase.key, None))
    case PostRefused(post, at) =>
      var err := SubmitTask(post, m.phase.key).error;
      Rest(m, ErrorRow(row, err, at, m.phase.key, None)).(tasks := Remember(m.tasks, err.taskId, m.phase.operation))
    case TaskAccepted(post) =>
      var accepted := SubmitTask(post, m.phase.key).value;
      m.(db := m.db.(row := AcceptRow(row, accepted.taskId, accepted.key)),
         phase := Polling(m.phase.operation, accepted.key, accepted.taskId),
         tasks := Remember(m.tasks, Some(accepted.taskId), m.phase.operation))
    case ResultPolled => m
    case PollDeadlinePassed(at) => Rest(m, TimeoutRow(row, at, Some(m.phase.key), Some(m.phase.task)))
    case PollRefused(reply, at) =>
      Rest(m, ErrorRow(row, PollAnswer(m, reply).error, at, m.phase.key, Some(m.phase.task)))
    case OutputStored(reply) => m.(db := StoreOutput(m.db, PollAnswer(m, reply).value.value), phase := Idle)
    case ResidueQuarantined(at) => Rest(m, ResidueRow(row, at))
    case LocallyFailed(at) => Rest(m, LocalFailureRow(row, Decide(s, row.plan).code, at))
    case Unlocked(at) => Rest(m, UnlockRow(row, at))
    case ReconcilePolled(at) => m
    case ReconcileWaited(reply, at) => Rest(m, ReconcileWaitRow(row, at))
    case ReconcileRefused(reply, at) => Rest(m, ReconcileErrorRow(row, ReconcileAnswer(m, reply).error, at))
    case ReconcileStored(reply, at) => m.(db := ReconcileStore(m.db, ReconcileAnswer(m, reply).value.value))
    case ReconcilePlanRejected(at) => Rest(m, ReconcileInvalidRow(row))
    case Crashed => m.(phase := Idle)
  }

  // ------------------------------------------------------------------ runs

  /** The event at position `i` is enabled in the state there and leads to the
      next one. */
  ghost predicate Moves(s: Settings, log: seq<Event>, states: seq<Machine>, i: nat)
    requires i < |log| && |states| == |log| + 1
  {
    Enabled(s, states[i], log[i]) && states[i + 1] == Apply(s, states[i], log[i])
  }

  /** `states` are the states of a run of a new stage with the events `log`. */
  ghost predicate Run(s: Settings, maxAttempts: nat, log: seq<Event>, states: seq<Machine>) {
    && |states| == |log| + 1
    && states[0] == Start(maxAttempts)
    && forall i: nat :: i < |log| ==> Moves(s, log, states, i)
  }

  /** `m` is reached from a new stage by `log`. */
  ghost predicate Reached(s: Settings, maxAttempts: nat, log: seq<Event>, m: Machine) {
    exists states :: Run(s, maxAttempts, log, states) && states[|log|] == m
  }

  lemma StartReached(s: Settings, maxAttempts: nat)
    ensures Reached(s, maxAttempts, [], Start(maxAttempts))
  {
    assert Run(s, maxAttempts, [], [Start(maxAttempts)]);
  }

  /** A run goes on with any event that its last state enables. */
  lemma ExtendRun(s: Settings, maxAttempts: nat, log: seq<Event>, states: seq<Machine>, e: Event)
    requires Run(s, maxAttempts, log, states) && Enabled(s, states[|log|], e)
    ensures Run(s, maxAttempts, log + [e], states + [Apply(s, states[|log|], e)])
  {
    var longer, further := log + [e], states + [Apply(s, states[|log|], e)];
    forall i: nat | i < |longer|
      ensures Moves(s, longer, further, i)
    {
      if i < |log| {
        assert Moves(s, log, states, i);
      }
      hide Enabled, Apply;
    }
  }

  lemma ReachedExtends(s: Settings, maxAttempts: nat, log: seq<Event>, m: Machine, e: Event)
    requires Reached(s, maxAttempts, log, m) && Enabled(s, m, e)
    ensures Reached(s, maxAttempts, log + [e], Apply(s, m, e))
  {
    hide Enabled, Apply, Moves;
    var states :| Run(s, maxAttempts, log, states) && states[|log|] == m;
    ExtendRun(s, maxAttempts, log, states, e);
    assert (states + [Apply(s, m, e)])[|log + [e]|] == Apply(s, m, e);
  }

  /** Cutting a run anywhere leaves a run, and a crash may follow it: so the
      runs cover a crash between any two commits or requests. */
  lemma CrashAnywhere(s: Settings, maxAttempts: nat, log: seq<Event>, states: seq<Machine>, n: nat)
    requires Run(s, maxAttempts, log, states) && n <= |log|
    ensures Run(s, maxAttempts, log[..n], states[..n + 1])
    ensures Run(s, maxAttempts, log[..n] + [Crashed], states[..n + 1] + [states[n].(phase := Idle)])
  {
    var shorter, before := log[..n], states[..n + 1];
    forall i: nat | i < n
      ensures Moves(s, shorter, before, i)
    {
      assert Moves(s, log, states, i);
      hide Enabled, Apply;
    }
    ExtendRun(s, maxAttempts, shorter, before, Crashed);
  }
}
