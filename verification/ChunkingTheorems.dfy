/**
 What the planner decides and the validator accepts, in terms of the text, the
 configuration and the ranges (app/services/broker_chunking.py).
 */
module ChunkingTheorems {
  import opened Prelude
  import opened Chunking

  // ---------------------------------------------------------------- limits

  /** The characters of one chunk: as configured, but no more than fit the context
      beside the answer and the prompt's overhead. */
  function Capacity(c: Config): int {
    match ChunkCapacity(c)
    case Ok(whole) => Min(c.chunkChars, whole)
    case Err(_) => 0
  }

  /** Neighbours share as much as configured, but no more than half a chunk. */
  function Overlap(c: Config): int {
    Min(c.overlapChars, Capacity(c) / 2)
  }

  predicate Usable(c: Config) {
    && c.contextTokens >= 2048
    && c.maxChunks >= 1
    && 0 <= c.overlapChars < c.chunkChars
    && 1.0 <= c.charsPerToken <= 8.0
    && c.maxTokens >= 0
  }

  predicate FitsOneRequest(text: string, c: Config)
    requires c.charsPerToken > 0.0
  {
    Ceil(|text| as real / c.charsPerToken) + 700 + c.maxTokens <= c.contextTokens
  }

  lemma LimitsAre(c: Config)
    ensures SplitLimits(c).Ok? <==> Usable(c) && c.contextTokens > c.maxTokens + 700
    ensures SplitLimits(c).Ok? ==> SplitLimits(c).value == (Capacity(c), Overlap(c))
  {
    hide ChunkCapacity;
    RoomIff(c);
  }

  lemma RoomIff(c: Config)
    ensures ChunkCapacity(c).Ok? <==> c.contextTokens > c.maxTokens + 700
  {
  }

  /** A chunk of `n` characters is within the capacity exactly if it is no longer
      than configured and its request fits the context. */
  lemma CapacityIff(c: Config, n: nat)
    requires Usable(c) && c.contextTokens > c.maxTokens + 700
    ensures n <= Capacity(c) <==>
      n <= c.chunkChars && Ceil(n as real / c.charsPerToken) + 700 + c.maxTokens <= c.contextTokens
  {
    BudgetMatchesCapacity(n, c);
    RoomIff(c);
    hide ChunkCapacity;
  }

  // -------------------------------------------------------------- planning

  /** The plan for these ranges, with nothing done yet. */
  ghost predicate Plans(plan: Plan, ranges: seq<Range>, c: Config) {
    && plan.config == Snapshot(c.contextTokens, c.chunkChars, c.overlapChars, c.maxChunks, c.charsPerToken, c.maxTokens)
    && plan.nextStep == 0
    && |plan.steps| == |ranges| + 1
    && (forall i :: 0 <= i < |ranges| ==>
          plan.steps[i] == Partial(i, ranges[i].start, ranges[i].end, StepStatus.Pending, None))
    && plan.steps[|ranges|] == Final(0, StepStatus.Pending, None)
  }

  /** One request is made exactly if the text fits it; a text that does not is
      planned as it is split, exactly if chunking is enabled, there is room for
      text at all, and there are not too many chunks; anything else is an error. */
  lemma PlanNeededIff(text: string, c: Config)
    ensures BuildPlan(text, c) == Ok(None) <==> Usable(c) && FitsOneRequest(text, c)
    ensures BuildPlan(text, c).Ok? && BuildPlan(text, c).value.Some? <==>
      && Usable(c)
      && !FitsOneRequest(text, c)
      && c.enabled
      && c.contextTokens > c.maxTokens + 700
      && |SplitFrom(text, Capacity(c), Overlap(c), 0)| <= c.maxChunks
    ensures BuildPlan(text, c).Ok? && BuildPlan(text, c).value.Some? ==>
      Plans(BuildPlan(text, c).value.value, SplitFrom(text, Capacity(c), Overlap(c), 0), c)
  {
    LimitsAre(c);
    hide SplitFrom, ChunkCapacity;
  }

  // ------------------------------------------------------------- splitting

  /** A chunk that is not the last ends after the last break in the second half of
      the window, or at the window's edge if there is no break in it. */
  ghost predicate CutWell(text: string, capacity: nat, r: Range) {
    var floor, target := r.start + Max(1, capacity / 2), r.start + capacity;
    && target < |text|
    && floor <= r.end <= target
    && (BreakAt(text, r.end - 1, target) || r.end == target)
    && (forall i: nat :: floor <= i && BreakAt(text, i, target) ==> i < r.end && BreakAt(text, r.end - 1, target))
  }

  ghost predicate CutsAndOverlaps(text: string, capacity: nat, overlap: nat, ranges: seq<Range>) {
    && ranges != []
    && ranges[|ranges| - 1].start + capacity >= |text|
    && forall i :: 0 <= i < |ranges| - 1 ==>
         CutWell(text, capacity, ranges[i]) && ranges[i + 1].start == ranges[i].end - overlap
  }

  lemma FirstCut(text: string, capacity: nat, start: nat)
    requires capacity >= 1 && start < |text|
    ensures var end := ChunkEnd(text, capacity, start);
      if end < |text| then CutWell(text, capacity, Range(start, end)) else start + capacity >= |text|
  {
    var target := Min(|text|, start + capacity);
    if target < |text| {
      BoundaryFollowsLastBreak(text, start, target);
    }
    hide LastOf;
  }

  /** Every chunk but the last is cut at the last break, and the next one begins
      exactly the overlap before that cut. */
  lemma {:induction false} SplitCutsAtBreaks(text: string, capacity: nat, overlap: nat, start: nat)
    requires capacity >= 1 && overlap <= capacity / 2 && start < |text|
    ensures CutsAndOverlaps(text, capacity, overlap, SplitFrom(text, capacity, overlap, start))
    decreases |text| - start
  {
    hide ChunkEnd, CutWell;
    var end := ChunkEnd(text, capacity, start);
    FirstCut(text, capacity, start);
    SplitUnfolds(text, capacity, overlap, start, end);
    if end < |text| {
      var next := Max(start + 1, end - overlap);
      SplitCutsAtBreaks(text, capacity, overlap, next);
      SplitHead(text, capacity, overlap, next);
      hide SplitFrom;
      var rest := SplitFrom(text, capacity, overlap, next);
      var all := [Range(start, end)] + rest;
      forall i | 0 <= i < |all| - 1
        ensures CutWell(text, capacity, all[i]) && all[i + 1].start == all[i].end - overlap
      {
        if i > 0 {
          assert all[i] == rest[i - 1] && all[i + 1] == rest[i];
        }
      }
    }
  }

  // ------------------------------------------------------------ validation

  /** How many of the steps are partial ones, when only the last may not be. */
  function Chunks(steps: seq<Step>): nat
    requires steps != []
  {
    if steps[|steps| - 1].Final? then |steps| - 1 else |steps|
  }

  ghost predicate Covers(steps: seq<Step>, length: nat, capacity: int, overlap: int) {
    && |steps| >= 2
    && (forall i :: 0 <= i < Chunks(steps) ==>
          && steps[i].Partial?
          && steps[i].ordinal == i
          && 0 <= steps[i].start < steps[i].end <= length
          && steps[i].end - steps[i].start <= capacity)
    && steps[0].start == 0
    && steps[Chunks(steps) - 1].end == length
    && (forall i :: 0 < i < Chunks(steps) ==>
          steps[i].start <= steps[i - 1].end <= steps[i].start + overlap && steps[i - 1].end < steps[i].end)
  }

  /** The first `n` steps have their outputs, the others have none. */
  ghost predicate Done(steps: seq<Step>, n: int) {
    && 0 <= n < |steps|
    && forall i :: 0 <= i < |steps| ==>
         if i < n then steps[i].status == StepStatus.Completed && steps[i].output.Some? && steps[i].output.value != ""
         else steps[i].status == StepStatus.Pending && steps[i].output.None?
  }

  lemma PreviousIsNeighbour(steps: seq<Step>, i: nat)
    requires 0 < i <= |steps| && steps[i - 1].Partial?
    ensures PreviousEnd(steps, i) == steps[i - 1].end
  {
  }

  ghost predicate StepsOk(steps: seq<Step>, length: nat, capacity: int, overlap: int) {
    && (forall i :: 0 <= i < |steps| ==> StepOk(steps, i, length, capacity, overlap))
    && PreviousEnd(steps, |steps|) == length
  }

  lemma StepsAreDone(steps: seq<Step>, n: int)
    requires 0 <= n < |steps|
    ensures Done(steps, n) <==>
      && (forall i :: 0 <= i < |steps| ==> OutputOk(steps[i]))
      && (forall i :: 0 <= i < |steps| ==> (steps[i].status == StepStatus.Completed <==> i < n))
  {
    if forall i :: 0 <= i < |steps| ==> OutputOk(steps[i]) {
    } else {
      var i :| 0 <= i < |steps| && !OutputOk(steps[i]);
      assert steps[i].output.Some? || steps[i].output.None?;
    }
  }

  lemma OkStepsCover(steps: seq<Step>, length: nat, capacity: int, overlap: int)
    requires |steps| >= 2 && StepsOk(steps, length, capacity, overlap)
    ensures Covers(steps, length, capacity, overlap)
  {
    hide PreviousEnd;
    forall i | 0 <= i < Chunks(steps)
      ensures steps[i].Partial? && steps[i].ordinal == i && 0 <= steps[i].start < steps[i].end <= length
      ensures steps[i].end - steps[i].start <= capacity && (i == 0 ==> steps[i].start == 0)
    {
      assert StepOk(steps, i, length, capacity, overlap);
    }
    forall i | 0 < i < Chunks(steps)
      ensures steps[i].start <= steps[i - 1].end <= steps[i].start + overlap && steps[i - 1].end < steps[i].end
    {
      assert StepOk(steps, i, length, capacity, overlap);
      PreviousIsNeighbour(steps, i);
    }
    LastReach(steps);
    PreviousIsNeighbour(steps, Chunks(steps));
  }

  /** A final step reaches no further than the partial ones. */
  lemma LastReach(steps: seq<Step>)
    requires steps != []
    ensures PreviousEnd(steps, |steps|) == PreviousEnd(steps, Chunks(steps))
  {
  }

  lemma CoveringStepsOk(steps: seq<Step>, length: nat, capacity: int, overlap: int)
    requires Covers(steps, length, capacity, overlap) && forall i :: 0 <= i < |steps| ==> OutputOk(steps[i])
    requires steps[|steps| - 1].Final? ==> steps[|steps| - 1].ordinal == 0
    ensures StepsOk(steps, length, capacity, overlap)
  {
    hide PreviousEnd, OutputOk;
    forall i | 0 < i <= Chunks(steps)
      ensures PreviousEnd(steps, i) == steps[i - 1].end
    {
      PreviousIsNeighbour(steps, i);
    }
    LastReach(steps);
    forall i | 0 <= i < |steps|
      ensures StepOk(steps, i, length, capacity, overlap)
    {
      assert i < Chunks(steps) || i == |steps| - 1;
    }
  }

  lemma AcceptedParts(plan: Plan, transcript: string)
    ensures PlanOk(plan, transcript) <==>
      var c := ActiveConfig(plan.config);
      && plan.version == 1
      && plan.fingerprint == Fingerprint(1, plan.config, transcript)
      && Usable(c)
      && c.contextTokens > c.maxTokens + 700
      && 2 <= |plan.steps| <= c.maxChunks + 1
      && 0 <= plan.nextStep < |plan.steps|
      && StepsOk(plan.steps, |transcript|, Capacity(c), Overlap(c))
      && (forall i :: 0 <= i < |plan.steps| ==>
            (plan.steps[i].status == StepStatus.Completed <==> i < plan.nextStep))
  {
    LimitsAre(ActiveConfig(plan.config));
    hide SplitLimits, Usable, Capacity, Overlap, StepOk, PreviousEnd;
  }

  ghost predicate Acceptable(plan: Plan, transcript: string) {
    var c := ActiveConfig(plan.config);
    && plan.version == 1
    && plan.fingerprint == Fingerprint(1, plan.config, transcript)
    && Usable(c)
    && c.contextTokens > c.maxTokens + 700
    && |plan.steps| <= c.maxChunks + 1
    && Covers(plan.steps, |transcript|, Capacity(c), Overlap(c))
    && Done(plan.steps, plan.nextStep)
    && (plan.steps[|plan.steps| - 1].Final? ==> plan.steps[|plan.steps| - 1].ordinal == 0)
  }

  /** The validator accepts a plan exactly if it is of this version and was made
      for this text, its configuration is usable, its chunks cover the text from
      beginning to end in order, none beyond the capacity and each overlapping its
      neighbour within the limit, and its outputs are those of a first part. */
  lemma AcceptedIff(plan: Plan, transcript: string)
    ensures PlanOk(plan, transcript) <==> Acceptable(plan, transcript)
  {
    hide PlanOk, Usable, Capacity, Overlap, StepsOk, Covers, Done, OutputOk;
    AcceptedParts(plan, transcript);
    var c := ActiveConfig(plan.config);
    if PlanOk(plan, transcript) {
      OkStepsCover(plan.steps, |transcript|, Capacity(c), Overlap(c));
      StepsHaveOutputs(plan.steps, |transcript|, Capacity(c), Overlap(c));
      StepsAreDone(plan.steps, plan.nextStep);
    }
    if Acceptable(plan, transcript) {
      AtLeastTwo(plan.steps, |transcript|, Capacity(c), Overlap(c), plan.nextStep);
      StepsAreDone(plan.steps, plan.nextStep);
      CoveringStepsOk(plan.steps, |transcript|, Capacity(c), Overlap(c));
    }
  }

  lemma StepsHaveOutputs(steps: seq<Step>, length: nat, capacity: int, overlap: int)
    requires steps != [] && StepsOk(steps, length, capacity, overlap)
    ensures forall i :: 0 <= i < |steps| ==> OutputOk(steps[i])
    ensures steps[|steps| - 1].Final? ==> steps[|steps| - 1].ordinal == 0
  {
    hide PreviousEnd, OutputOk;
    forall i | 0 <= i < |steps|
      ensures OutputOk(steps[i])
    {
      assert StepOk(steps, i, length, capacity, overlap);
    }
    assert StepOk(steps, |steps| - 1, length, capacity, overlap);
  }

  lemma AtLeastTwo(steps: seq<Step>, length: nat, capacity: int, overlap: int, n: int)
    requires Covers(steps, length, capacity, overlap) && Done(steps, n)
    ensures |steps| >= 2 && 0 <= n < |steps|
  {
  }
}
