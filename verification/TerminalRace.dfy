/**
 Terminal handling without the one-worker assumption: any number of workers may
 have seen the same terminal task, each with its own stale copy of the stage,
 and each handles it on the locked row (app/services/broker_submission.py).
 */
module TerminalRace {
  import opened Prelude
  import opened SummaryGateway
  import opened FailurePolicy
  import opened SummaryRow
  import BrokerSubmission

  /** The locked row, the tasks the broker has handed out so far, and the tasks
      whose handling has advanced the epoch. */
  datatype World = World(row: Row, issued: set<TaskId>, advanced: seq<TaskId>)

  datatype Step =
    | Handled(task: TaskId, outcome: Outcome, at: real)
    | Accepted(task: TaskId, key: Key)
    | Updated(row: Row)

  /** Task ids are distinct; any other update leaves epoch and correlation alone
      or drops the correlation. */
  predicate Enabled(w: World, step: Step) {
    match step
    case Handled(task, _, _) => task in w.issued
    case Accepted(task, _) => task !in w.issued
    case Updated(row) => row.epoch == w.row.epoch && (row.taskId == w.row.taskId || row.taskId.None?)
  }

  /** One handler's critical section. */
  function Handle(row: Row, task: TaskId, outcome: Outcome, at: real): Row {
    ApplyOutcome(row, outcome, at, Some(task), true)
  }

  function Next(w: World, step: Step): World
    requires Enabled(w, step)
  {
    match step
    case Handled(task, outcome, at) =>
      var row := Handle(w.row, task, outcome, at);
      w.(row := row, advanced := if row.epoch != w.row.epoch then w.advanced + [task] else w.advanced)
    case Accepted(task, key) => w.(row := AcceptRow(w.row, task, key), issued := w.issued + {task})
    case Updated(row) => w.(row := row)
  }

  ghost predicate Legal(w: World, steps: seq<Step>)
    decreases |steps|
  {
    steps == [] || (Enabled(w, steps[0]) && Legal(Next(w, steps[0]), steps[1..]))
  }

  function After(w: World, steps: seq<Step>): World
    requires Legal(w, steps)
    decreases |steps|
  {
    if steps == [] then w else After(Next(w, steps[0]), steps[1..])
  }

  /** Before any race: at most one task is current, none was handled. */
  ghost predicate Initial(w: World) {
    w.advanced == [] && (w.row.taskId.Some? ==> w.row.taskId.value in w.issued)
  }

  ghost predicate Inv(epoch: int, w: World) {
    && (forall t <- w.advanced :: t in w.issued && w.row.taskId != Some(t))
    && (w.row.taskId.Some? ==> w.row.taskId.value in w.issued)
    && (forall i, j :: 0 <= i < j < |w.advanced| ==> w.advanced[i] != w.advanced[j])
    && w.row.epoch == epoch + |w.advanced|
  }

  /** A handler changes the row only while its task is the current one, and an
      advance is by one and drops the task. */
  lemma HandlerEffect(row: Row, task: TaskId, outcome: Outcome, at: real)
    ensures var after := Handle(row, task, outcome, at);
      && (row.taskId != Some(task) ==> after == row)
      && (after.epoch == row.epoch ==> after.taskId == row.taskId)
      && (after.epoch != row.epoch ==>
            && row.taskId == Some(task)
            && after.epoch == row.epoch + 1
            && after.taskId.None?
            && row.attemptCount < row.maxAttempts
            && outcome.failureClass in SAFE_CLASSES)
  {
  }

  lemma StepKeepsInv(epoch: int, w: World, step: Step)
    requires Inv(epoch, w) && Enabled(w, step)
    ensures Inv(epoch, Next(w, step))
  {
    if step.Handled? {
      HandlerEffect(w.row, step.task, step.outcome, step.at);
    }
    hide Handle;
  }

  lemma {:induction false} RunKeepsInv(epoch: int, w: World, steps: seq<Step>)
    requires Inv(epoch, w) && Legal(w, steps)
    ensures Inv(epoch, After(w, steps))
    decreases |steps|
  {
    if steps != [] {
      StepKeepsInv(epoch, w, steps[0]);
      RunKeepsInv(epoch, Next(w, steps[0]), steps[1..]);
    }
  }

  /** Under any interleaving of handlers, the epoch advances at most once for
      each task: it is the number of distinct tasks that advanced it. */
  lemma EpochAdvancesOncePerTask(w: World, steps: seq<Step>)
    requires Initial(w) && Legal(w, steps)
    ensures var end := After(w, steps);
      && end.row.epoch == w.row.epoch + |end.advanced|
      && forall i, j :: 0 <= i < j < |end.advanced| ==> end.advanced[i] != end.advanced[j]
  {
    RunKeepsInv(w.row.epoch, w, steps);
  }

  /** Once a task has advanced the epoch, every later handler of that task
      leaves the row as it is, whatever its stale copy made of the failure. */
  lemma LaterHandlersChangeNothing(w: World, steps: seq<Step>, task: TaskId, outcome: Outcome, at: real)
    requires Initial(w) && Legal(w, steps) && task in After(w, steps).advanced
    ensures Handle(After(w, steps).row, task, outcome, at) == After(w, steps).row
  {
    RunKeepsInv(w.row.epoch, w, steps);
    HandlerEffect(After(w, steps).row, task, outcome, at);
  }

  /** The advances of a race never pass the attempts of the stage. */
  lemma AdvanceIsBounded(row: Row, task: TaskId, outcome: Outcome, at: real)
    requires row.epoch <= row.maxAttempts
    ensures Handle(row, task, outcome, at).epoch <= row.maxAttempts
  {
  }

  /** The stage table with its row lock. */
  class StageTable {
    var row: Row
    ghost var world: World
    ghost const start: World
    ghost var steps: seq<Step>

    ghost predicate Valid()
      reads this
    {
      Initial(start) && Legal(start, steps) && world == After(start, steps) && world.row == row
    }

    constructor (r: Row)
      requires r.taskId.None?
      ensures Valid() && row == r && steps == []
    {
      row := r;
      world := World(r, {}, []);
      start := World(r, {}, []);
      steps := [];
    }

    ghost method Record(step: Step)
      requires Initial(start) && Legal(start, steps) && world == After(start, steps) && Enabled(world, step)
      modifies this`steps, this`world
      ensures Legal(start, steps) && world == After(start, steps) == Next(old(world), step)
      ensures steps == old(steps) + [step]
    {
      Extend(start, steps, step);
      steps := steps + [step];
      world := Next(world, step);
    }

    /** `_apply_outcome` for a confirmed terminal task.  `stage` is the worker's
        own copy and may be arbitrarily stale; under the lock it is overwritten
        with the row, and a task that is no longer current writes nothing. */
    method HandleTerminal(stage: BrokerSubmission.Stage, outcome: Outcome, at: real, task: TaskId)
      returns (disposition: Disposition)
      requires Valid() && task in world.issued
      modifies this, stage
      ensures Valid() && steps == old(steps) + [Handled(task, outcome, at)]
      ensures row == Handle(old(row), task, outcome, at)
      ensures stage.Value() == row
      ensures disposition == outcome.disposition
    {
      disposition := outcome.disposition;
      Record(Handled(task, outcome, at));
      stage.Refresh(row);
      if stage.taskId != Some(task) {
        HandlerEffect(row, task, outcome, at);
        return;
      }
      stage.NoteFailure(outcome);
      if outcome.failureClass in SAFE_CLASSES {
        stage.NoteHistory(outcome, at);
      }
      if CanAdvanceEpoch(true, Some(task), stage.taskId, outcome.failureClass,
                         stage.attemptCount, stage.maxAttempts, stage.epoch) {
        stage.AdvanceEpoch();
      }
      stage.Dispose(outcome.disposition, at);
      row := stage.Value();
    }
  }

  lemma {:induction false} Extend(w: World, steps: seq<Step>, step: Step)
    requires Legal(w, steps) && Enabled(After(w, steps), step)
    ensures Legal(w, steps + [step]) && After(w, steps + [step]) == Next(After(w, steps), step)
    decreases |steps|
  {
    var all := steps + [step];
    if steps == [] {
      assert all[1..] == [];
    } else {
      assert all[1..] == steps[1..] + [step];
      Extend(Next(w, steps[0]), steps[1..], step);
    }
  }
}
