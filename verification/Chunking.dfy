/**
 The planner and the strict validator for broker map-reduce summaries
 (app/services/broker_chunking.py).

 A plan is the persisted progress of one long transcript: partial steps that
 each cover a character range, then one final step.  The JSON layer is typed
 away: integer, float and string fields have Dafny types, and the SHA-256
 fingerprint is represented by the material that is hashed.
 */
module Chunking {
  import opened Prelude

  const PLAN_VERSION := 1
  const ESTIMATED_PROMPT_OVERHEAD_TOKENS := 700

  datatype Config = Config(
    enabled: bool,
    contextTokens: int,
    chunkChars: int,
    overlapChars: int,
    maxChunks: int,
    charsPerToken: real,
    maxTokens: int)

  datatype PlanError = BrokerChunkPlanError

  predicate ValidConfig(c: Config) {
    && c.contextTokens >= 2048
    && c.chunkChars >= 1
    && 0 <= c.overlapChars < c.chunkChars
    && c.maxChunks >= 1
    && 1.0 <= c.charsPerToken <= 8.0
    && c.maxTokens >= 0
  }

  // ---------------------------------------------------------------- budget

  function EstimatedRequestTokens(characters: int, c: Config): Result<int, PlanError> {
    if !ValidConfig(c) then Err(BrokerChunkPlanError)
    else
      Ok(Ceil(Max(0, characters) as real / c.charsPerToken)
         + ESTIMATED_PROMPT_OVERHEAD_TOKENS + c.maxTokens)
  }

  function ChunkCapacity(c: Config): Result<int, PlanError> {
    var available := c.contextTokens - c.maxTokens - ESTIMATED_PROMPT_OVERHEAD_TOKENS;
    if available <= 0 then Err(BrokerChunkPlanError)
    else Ok(Max(1, (available as real * c.charsPerToken).Floor))
  }

  function EffectiveOverlap(c: Config, capacity: int): int {
    Min(c.overlapChars, capacity / 2)
  }

  lemma DivideThenScale(x: real, s: real)
    requires s > 0.0
    ensures x / s * s == x
  {
  }

  lemma ScaleUp(a: real, b: real, s: real)
    requires a <= b && s > 0.0
    ensures a * s <= b * s
  {
  }

  lemma ScaleUpStrictly(a: real, b: real, s: real)
    requires a < b && s > 0.0
    ensures a * s < b * s
  {
    assert (b - a) * s > 0.0;
  }

  lemma CeilingOfQuotient(n: nat, budget: int, s: real)
    requires s > 0.0
    ensures Ceil(n as real / s) <= budget <==> n <= (budget as real * s).Floor
  {
    var q := n as real / s;
    DivideThenScale(n as real, s);
    if q <= budget as real {
      ScaleUp(q, budget as real, s);
    } else {
      ScaleUpStrictly(budget as real, q, s);
    }
  }

  /** The two halves of the budget agree: a request fits the context exactly
      when its transcript part is within the character capacity. */
  lemma BudgetMatchesCapacity(n: int, c: Config)
    requires ValidConfig(c) && ChunkCapacity(c).Ok?
    ensures EstimatedRequestTokens(n, c).value <= c.contextTokens <==> n <= ChunkCapacity(c).value
  {
    var available := c.contextTokens - c.maxTokens - ESTIMATED_PROMPT_OVERHEAD_TOKENS;
    CeilingOfQuotient(Max(0, n), available, c.charsPerToken);
    ScaleUp(1.0, available as real, c.charsPerToken);
  }

  // -------------------------------------------------------------- boundary

  predicate OccursAt(text: string, sub: string, at: int) {
    0 <= at && at + |sub| <= |text| && forall k :: 0 <= k < |sub| ==> text[at + k] == sub[k]
  }

  /** Python's `text.rfind(sub, lo, hi)`: the last place where `sub` lies
      wholly inside `text[lo..hi]`, or -1. */
  function RFind(text: string, sub: string, lo: nat, hi: nat): (at: int)
    requires hi <= |text| && sub != []
    ensures at == -1 || (lo <= at && at + |sub| <= hi)
    decreases hi
  {
    if hi < lo + |sub| then -1
    else if OccursAt(text, sub, hi - |sub|) then hi - |sub|
    else RFind(text, sub, lo, hi - 1)
  }

  lemma {:induction false} RFindFinds(text: string, sub: string, lo: nat, hi: nat)
    requires hi <= |text| && sub != []
    ensures RFind(text, sub, lo, hi) != -1 ==> OccursAt(text, sub, RFind(text, sub, lo, hi))
    decreases hi
  {
    if lo + |sub| <= hi && !OccursAt(text, sub, hi - |sub|) {
      RFindFinds(text, sub, lo, hi - 1);
    }
  }

  lemma {:induction false} RFindIsLast(text: string, sub: string, lo: nat, hi: nat, i: nat)
    requires hi <= |text| && sub != []
    requires lo <= i && i + |sub| <= hi && OccursAt(text, sub, i)
    ensures i <= RFind(text, sub, lo, hi)
    decreases hi
  {
    if !OccursAt(text, sub, hi - |sub|) {
      RFindIsLast(text, sub, lo, hi - 1, i);
    }
  }

  function BoundaryFloor(start: nat, target: nat): nat
    requires start <= target
  {
    start + Max(1, (target - start) / 2)
  }

  /** Cuts after a paragraph, line or sentence break in the second half of the
      window when there is one, and at the window's edge otherwise. */
  function FindBoundary(text: string, start: nat, target: nat): (end: nat)
    requires start < target
    ensures target >= |text| ==> end == |text|
    ensures target < |text| ==> BoundaryFloor(start, target) < end <= target || end == target
  {
    if target >= |text| then |text|
    else
      var boundary := LastOf(text, BoundaryFloor(start, target), target);
      if boundary >= 0 then boundary + 1 else target
  }

  /** The greatest of the five `rfind` candidates. */
  function LastOf(text: string, floor: nat, target: nat): (at: int)
    requires target <= |text|
    ensures at == -1 || floor <= at < target
  {
    Max(Max(Max(Max(
      RFind(text, "\n\n", floor, target),
      RFind(text, "\n", floor, target)),
      RFind(text, ". ", floor, target)),
      RFind(text, "? ", floor, target)),
      RFind(text, "! ", floor, target))
  }

  predicate BreakAt(text: string, i: int, target: int) {
    || (OccursAt(text, "\n", i) && i + 1 <= target)
    || ((OccursAt(text, ". ", i) || OccursAt(text, "? ", i) || OccursAt(text, "! ", i)) && i + 2 <= target)
  }

  lemma FoundIsBreak(text: string, sub: string, lo: nat, hi: nat)
    requires hi <= |text|
    requires sub == "\n\n" || sub == "\n" || sub == ". " || sub == "? " || sub == "! "
    ensures var at := RFind(text, sub, lo, hi); at != -1 ==> BreakAt(text, at, hi)
  {
    RFindFinds(text, sub, lo, hi);
    var at := RFind(text, sub, lo, hi);
    if at != -1 && sub == "\n\n" {
      assert text[at + 0] == sub[0];
    }
  }

  lemma LastOfIsBreak(text: string, floor: nat, target: nat)
    requires target <= |text|
    ensures LastOf(text, floor, target) != -1 ==> BreakAt(text, LastOf(text, floor, target), target)
  {
    FoundIsBreak(text, "\n\n", floor, target);
    FoundIsBreak(text, "\n", floor, target);
    FoundIsBreak(text, ". ", floor, target);
    FoundIsBreak(text, "? ", floor, target);
    FoundIsBreak(text, "! ", floor, target);
  }

  lemma LastOfIsLast(text: string, floor: nat, target: nat, i: nat)
    requires floor <= i && target <= |text| && BreakAt(text, i, target)
    ensures i <= LastOf(text, floor, target)
  {
    if OccursAt(text, "\n", i) && i + 1 <= target {
      RFindIsLast(text, "\n", floor, target, i);
    } else if OccursAt(text, ". ", i) {
      RFindIsLast(text, ". ", floor, target, i);
    } else if OccursAt(text, "? ", i) {
      RFindIsLast(text, "? ", floor, target, i);
    } else {
      RFindIsLast(text, "! ", floor, target, i);
    }
  }

  /** A cut inside the text follows the last break of the window's second half;
      only a window half without any break is cut at its edge instead. */
  lemma BoundaryFollowsLastBreak(text: string, start: nat, target: nat)
    requires start < target < |text|
    ensures var end := FindBoundary(text, start, target);
      var floor := BoundaryFloor(start, target);
      && (BreakAt(text, end - 1, target) || end == target)
      && (forall i: nat :: floor <= i && BreakAt(text, i, target) ==> i < end && BreakAt(text, end - 1, target))
  {
    var floor := BoundaryFloor(start, target);
    LastOfIsBreak(text, floor, target);
    forall i: nat | floor <= i && BreakAt(text, i, target)
      ensures i <= LastOf(text, floor, target)
    {
      LastOfIsLast(text, floor, target, i);
    }
  }

  // ------------------------------------------------------------- splitting

  datatype Range = Range(start: nat, end: nat)

  /** Right end of the chunk that starts at `start`. */
  function ChunkEnd(text: string, capacity: nat, start: nat): (end: nat)
    requires capacity >= 1 && start < |text|
    ensures start < end <= Min(|text|, start + capacity)
    ensures end < |text| ==> start + capacity / 2 + 1 <= end
  {
    var target := Min(|text|, start + capacity);
    var boundary := FindBoundary(text, start, target);
    if boundary <= start then target else boundary
  }

  function NextStart(start: nat, end: nat, overlap: nat): nat {
    Max(start + 1, end - overlap)
  }

  function SplitFrom(text: string, capacity: nat, overlap: nat, start: nat): (ranges: seq<Range>)
    requires capacity >= 1 && overlap <= capacity / 2
    decreases |text| - start
  {
    if start >= |text| then []
    else
      var end := ChunkEnd(text, capacity, start);
      [Range(start, end)] +
      (if end >= |text| then [] else SplitFrom(text, capacity, overlap, NextStart(start, end, overlap)))
  }

  /** Capacity and overlap that a configuration allows, or its error. */
  function SplitLimits(c: Config): (r: Result<(nat, nat), PlanError>)
    ensures r.Ok? ==> r.value.0 >= 1 && r.value.1 <= r.value.0 / 2
  {
    if !ValidConfig(c) then Err(BrokerChunkPlanError)
    else
      match ChunkCapacity(c)
      case Err(e) => Err(e)
      case Ok(whole) =>
        var capacity := Min(c.chunkChars, whole);
        Ok((capacity, EffectiveOverlap(c, capacity)))
  }

  function Split(text: string, c: Config): Result<seq<Range>, PlanError> {
    match SplitLimits(c)
    case Err(e) => Err(e)
    case Ok((capacity, overlap)) => Ok(SplitFrom(text, capacity, overlap, 0))
  }

  /** The split loop as it runs, for a given capacity and overlap. */
  method SplitLoop(text: string, capacity: nat, overlap: nat) returns (chunks: seq<Range>)
    requires capacity >= 1 && overlap <= capacity / 2
    ensures chunks == SplitFrom(text, capacity, overlap, 0)
  {
    hide SplitSoFar, SplitFrom, FindBoundary;
    chunks := [];
    var start := 0;
    SplitStarts(text, capacity, overlap);
    while start < |text|
      invariant 0 <= start
      invariant SplitSoFar(text, capacity, overlap, chunks, start)
      decreases |text| - start
    {
      var end := FindBoundary(text, start, Min(|text|, start + capacity));
      if end <= start {
        end := Min(|text|, start + capacity);
      }
      SplitAdvances(text, capacity, overlap, chunks, start, end);
      chunks := chunks + [Range(start, end)];
      if end >= |text| {
        return;
      }
      start := Max(start + 1, end - overlap);
    }
    SplitEnds(text, capacity, overlap, chunks, start);
  }

  /** The chunks so far and those still to come are the whole split. */
  ghost predicate SplitSoFar(text: string, capacity: nat, overlap: nat, chunks: seq<Range>, start: nat)
    requires capacity >= 1 && overlap <= capacity / 2
  {
    chunks + SplitFrom(text, capacity, overlap, start) == SplitFrom(text, capacity, overlap, 0)
  }

  lemma SplitStarts(text: string, capacity: nat, overlap: nat)
    requires capacity >= 1 && overlap <= capacity / 2
    ensures SplitSoFar(text, capacity, overlap, [], 0)
  {
    hide SplitFrom;
  }

  lemma SplitEnds(text: string, capacity: nat, overlap: nat, chunks: seq<Range>, start: nat)
    requires capacity >= 1 && overlap <= capacity / 2 && start >= |text|
    requires SplitSoFar(text, capacity, overlap, chunks, start)
    ensures chunks == SplitFrom(text, capacity, overlap, 0)
  {
    AppendNothing(chunks);
  }

  lemma SplitAdvances(text: string, capacity: nat, overlap: nat, chunks: seq<Range>, start: nat, end: nat)
    requires capacity >= 1 && overlap <= capacity / 2 && start < |text|
    requires end == ChunkEnd(text, capacity, start)
    requires SplitSoFar(text, capacity, overlap, chunks, start)
    ensures end >= |text| ==> chunks + [Range(start, end)] == SplitFrom(text, capacity, overlap, 0)
    ensures end < |text| ==>
      SplitSoFar(text, capacity, overlap, chunks + [Range(start, end)], Max(start + 1, end - overlap))
  {
    SplitUnfolds(text, capacity, overlap, start, end);
    hide SplitFrom, ChunkEnd;
    if end < |text| {
      var next := Max(start + 1, end - overlap);
      AppendOne(chunks, Range(start, end), SplitFrom(text, capacity, overlap, next));
    }
  }

  lemma AppendOne<T>(a: seq<T>, x: T, b: seq<T>)
    ensures a + ([x] + b) == a + [x] + b
  {
  }

  lemma AppendNothing<T>(a: seq<T>)
    ensures a + [] == a
  {
  }

  method SplitTranscript(text: string, c: Config) returns (r: Result<seq<Range>, PlanError>)
    ensures r == Split(text, c)
  {
    if !ValidConfig(c) {
      return Err(BrokerChunkPlanError);
    }
    var whole := ChunkCapacity(c);
    if whole.Err? {
      return Err(whole.error);
    }
    var capacity := Min(c.chunkChars, whole.value);
    var overlap := EffectiveOverlap(c, capacity);
    var chunks := SplitLoop(text, capacity, overlap);
    return Ok(chunks);
  }

  lemma SplitUnfolds(text: string, capacity: nat, overlap: nat, start: nat, end: nat)
    requires capacity >= 1 && overlap <= capacity / 2 && start < |text|
    requires end == ChunkEnd(text, capacity, start)
    ensures end >= |text| ==> SplitFrom(text, capacity, overlap, start) == [Range(start, end)]
    ensures end < |text| ==>
      SplitFrom(text, capacity, overlap, start)
      == [Range(start, end)] + SplitFrom(text, capacity, overlap, Max(start + 1, end - overlap))
  {
    hide ChunkEnd;
  }

  /** What the splitter promises: both ends increase, neighbours overlap within
      the bound, no chunk is over capacity, and the text is covered exactly. */
  ghost predicate ProperSplit(ranges: seq<Range>, from: nat, length: nat, capacity: nat, overlap: nat) {
    && ranges != []
    && ranges[0].start == from
    && ranges[|ranges| - 1].end == length
    && (forall i :: 0 <= i < |ranges| ==> Fits(ranges[i], length, capacity))
    && (forall i :: 0 < i < |ranges| ==> Follows(ranges[i - 1], ranges[i], overlap))
  }

  ghost predicate Fits(r: Range, length: nat, capacity: nat) {
    && r.start < r.end <= length
    && r.end - r.start <= capacity
  }

  ghost predicate Follows(a: Range, b: Range, overlap: nat) {
    && a.start < b.start
    && a.end < b.end
    && 0 <= a.end - b.start <= overlap
  }

  lemma ProperCons(r: Range, tail: seq<Range>, length: nat, capacity: nat, overlap: nat)
    requires tail != [] && ProperSplit(tail, tail[0].start, length, capacity, overlap)
    requires Fits(r, length, capacity) && Follows(r, tail[0], overlap)
    ensures ProperSplit([r] + tail, r.start, length, capacity, overlap)
  {
    var all := [r] + tail;
    forall i | 0 < i < |all|
      ensures Follows(all[i - 1], all[i], overlap)
    {
      if i > 1 {
        assert all[i - 1] == tail[i - 2];
      }
    }
  }

  lemma {:induction false} SplitIsProper(text: string, capacity: nat, overlap: nat, start: nat)
    requires capacity >= 1 && overlap <= capacity / 2 && start < |text|
    ensures ProperSplit(SplitFrom(text, capacity, overlap, start), start, |text|, capacity, overlap)
    decreases |text| - start
  {
    hide SplitFrom, ChunkEnd;
    var end := ChunkEnd(text, capacity, start);
    SplitUnfolds(text, capacity, overlap, start, end);
    if end < |text| {
      var next := Max(start + 1, end - overlap);
      SplitIsProper(text, capacity, overlap, next);
      SplitHead(text, capacity, overlap, next);
      ProperCons(Range(start, end), SplitFrom(text, capacity, overlap, next), |text|, capacity, overlap);
    }
  }

  lemma SplitHead(text: string, capacity: nat, overlap: nat, start: nat)
    requires capacity >= 1 && overlap <= capacity / 2 && start < |text|
    ensures var ranges := SplitFrom(text, capacity, overlap, start);
      ranges != [] && ranges[0] == Range(start, ChunkEnd(text, capacity, start))
  {
    hide ChunkEnd;
  }

  /** Every chunk but the last advances by more than half a capacity, less the
      overlap, so the number of chunks is bounded. */
  lemma {:induction false} ChunkCountBound(text: string, capacity: nat, overlap: nat, start: nat)
    requires capacity >= 1 && overlap <= capacity / 2 && start < |text|
    ensures (|SplitFrom(text, capacity, overlap, start)| - 1) * (capacity / 2 + 1 - overlap) < |text| - start
    decreases |text| - start
  {
    hide ChunkEnd;
    var end := ChunkEnd(text, capacity, start);
    if end < |text| {
      var next := NextStart(start, end, overlap);
      var d := capacity / 2 + 1 - overlap;
      var k := |SplitFrom(text, capacity, overlap, next)|;
      ChunkCountBound(text, capacity, overlap, next);
      OneMore(k, d);
    }
  }

  lemma OneMore(k: int, d: int)
    ensures k * d == (k - 1) * d + d
  {
  }

  // ----------------------------------------------------------------- plans

  datatype Snapshot = Snapshot(
    contextTokens: int,
    chunkChars: int,
    overlapChars: int,
    maxChunks: int,
    charsPerToken: real,
    maxTokens: int)

  datatype Fingerprint = Fingerprint(version: int, config: Snapshot, transcript: string)

  datatype StepStatus = Pending | Completed

  datatype Step =
    | Partial(ordinal: int, start: int, end: int, status: StepStatus, output: Option<string>)
    | Final(ordinal: int, status: StepStatus, output: Option<string>)

  datatype Plan = Plan(
    version: int,
    fingerprint: Fingerprint,
    config: Snapshot,
    nextStep: int,
    steps: seq<Step>)

  function SnapshotOf(c: Config): Snapshot {
    Snapshot(c.contextTokens, c.chunkChars, c.overlapChars, c.maxChunks, c.charsPerToken, c.maxTokens)
  }

  /** `config_from_plan`: the configuration that a persisted plan runs under. */
  function ActiveConfig(s: Snapshot): Config {
    Config(true, s.contextTokens, s.chunkChars, s.overlapChars, s.maxChunks, s.charsPerToken, s.maxTokens)
  }

  function PartialSteps(ranges: seq<Range>): (steps: seq<Step>)
    ensures |steps| == |ranges|
    ensures forall i :: 0 <= i < |ranges| ==>
      steps[i] == Partial(i, ranges[i].start, ranges[i].end, Pending, None)
  {
    seq(|ranges|, i requires 0 <= i < |ranges| => Partial(i, ranges[i].start, ranges[i].end, Pending, None))
  }

  /** A plan, or None when one request is enough. */
  function BuildPlan(text: string, c: Config): Result<Option<Plan>, PlanError> {
    var estimate := EstimatedRequestTokens(|text|, c);
    if estimate.Err? then Err(estimate.error)
    else if estimate.value <= c.contextTokens then Ok(None)
    else if !c.enabled then Err(BrokerChunkPlanError)
    else
      match Split(text, c)
      case Err(e) => Err(e)
      case Ok(ranges) =>
        if |ranges| > c.maxChunks then Err(BrokerChunkPlanError)
        else
          var snapshot := SnapshotOf(c);
          Ok(Some(Plan(
            PLAN_VERSION, Fingerprint(PLAN_VERSION, snapshot, text), snapshot, 0,
            PartialSteps(ranges) + [Final(0, Pending, None)])))
  }

  /** `previous_end` when the validator reaches step `i`. */
  function PreviousEnd(steps: seq<Step>, i: nat): int
    requires i <= |steps|
  {
    if i == 0 then 0
    else if steps[i - 1].Partial? then steps[i - 1].end
    else PreviousEnd(steps, i - 1)
  }

  predicate OutputOk(step: Step) {
    match step.status
    case Completed => step.output.Some? && step.output.value != ""
    case Pending => step.output.None?
  }

  predicate StepOk(steps: seq<Step>, i: nat, length: nat, capacity: int, overlap: int)
    requires i < |steps|
  {
    var step := steps[i];
    && (match step
        case Partial(ordinal, start, end, _, _) =>
          && ordinal == i
          && 0 <= start < end <= length
          && end - start <= capacity
          && (i == 0 ==> start == 0)
          && (i > 0 ==> 0 <= PreviousEnd(steps, i) - start <= overlap && PreviousEnd(steps, i) < end)
        case Final(ordinal, _, _) => i == |steps| - 1 && ordinal == 0)
    && OutputOk(step)
  }

  /** Which plans the validator accepts for a transcript. */
  predicate PlanOk(plan: Plan, transcript: string) {
    var limits := SplitLimits(ActiveConfig(plan.config));
    && plan.version == PLAN_VERSION
    && plan.fingerprint == Fingerprint(PLAN_VERSION, plan.config, transcript)
    && limits.Ok?
    && 2 <= |plan.steps| <= plan.config.maxChunks + 1
    && 0 <= plan.nextStep < |plan.steps|
    && (forall i :: 0 <= i < |plan.steps| ==>
          StepOk(plan.steps, i, |transcript|, limits.value.0, limits.value.1))
    && PreviousEnd(plan.steps, |plan.steps|) == |transcript|
    && plan.steps[|plan.steps| - 1].status == Pending
    && (forall i :: 0 <= i < |plan.steps| ==> (plan.steps[i].status == Completed <==> i < plan.nextStep))
  }

  /** The validator as it runs: one pass over the steps with `previous_end`,
      then the coverage and progress checks. */
  method ValidatePlan(plan: Plan, transcript: string) returns (accepted: bool)
    ensures accepted <==> PlanOk(plan, transcript)
  {
    var steps := plan.steps;
    if plan.version != PLAN_VERSION || plan.fingerprint != Fingerprint(PLAN_VERSION, plan.config, transcript) {
      return false;
    }
    var active := ActiveConfig(plan.config);
    if !ValidConfig(active) {
      return false;
    }
    if steps == [] || !(0 <= plan.nextStep < |steps|) {
      return false;
    }
    if |steps| - 1 == 0 || |steps| - 1 > active.maxChunks {
      return false;
    }
    var whole := ChunkCapacity(active);
    if whole.Err? {
      return false;
    }
    var capacity := Min(active.chunkChars, whole.value);
    var overlap := EffectiveOverlap(active, capacity);
    var previousEnd := 0;
    for i := 0 to |steps|
      invariant previousEnd == PreviousEnd(steps, i)
      invariant forall j :: 0 <= j < i ==> StepOk(steps, j, |transcript|, capacity, overlap)
    {
      var step := steps[i];
      match step {
        case Partial(ordinal, start, end, _, _) =>
          if ordinal != i || !(0 <= start < end <= |transcript|) || end - start > capacity
             || (i == 0 && start != 0)
             || (i > 0 && !(0 <= previousEnd - start <= overlap))
             || (i > 0 && end <= previousEnd) {
            assert !StepOk(steps, i, |transcript|, capacity, overlap);
            return false;
          }
          previousEnd := end;
        case Final(ordinal, _, _) =>
          if i != |steps| - 1 || ordinal != 0 {
            assert !StepOk(steps, i, |transcript|, capacity, overlap);
            return false;
          }
      }
      if !OutputOk(step) {
        assert !StepOk(steps, i, |transcript|, capacity, overlap);
        return false;
      }
    }
    if previousEnd != |transcript| || steps[|steps| - 1].status != Pending {
      return false;
    }
    var done := forall i :: 0 <= i < plan.nextStep ==> steps[i].status == Completed;
    var rest := forall i :: plan.nextStep <= i < |steps| ==> steps[i].status != Completed;
    return done && rest;
  }

  // ------------------------------------------------- builder and validator

  /** Builder/validator completeness: every plan the builder makes is accepted
      on the same text, has at least two partial steps and one final step, and
      each of its chunks fits the context. */
  lemma BuilderMeetsValidator(text: string, c: Config)
    requires BuildPlan(text, c).Ok? && BuildPlan(text, c).value.Some?
    ensures var plan := BuildPlan(text, c).value.value;
      && PlanOk(plan, text)
      && |plan.steps| >= 3
      && plan.nextStep == 0
      && plan.steps[|plan.steps| - 1].Final?
      && (forall i :: 0 <= i < |plan.steps| - 1 ==> plan.steps[i].Partial? && StepFits(plan.steps[i], c))
  {
    hide SplitFrom;
    var plan := BuildPlan(text, c).value.value;
    var (capacity, overlap) := SplitLimits(c).value;
    var ranges := SplitFrom(text, capacity, overlap, 0);
    BudgetMatchesCapacity(|text|, c);
    SplitIsProper(text, capacity, overlap, 0);
    assert |ranges| >= 2 by {
      assert Fits(ranges[0], |text|, capacity);
    }
    assert SplitLimits(ActiveConfig(plan.config)) == SplitLimits(c);
    PlannedStepsOk(ranges, |text|, capacity, overlap);
    forall i | 0 <= i < |ranges|
      ensures StepFits(plan.steps[i], c)
    {
      assert Fits(ranges[i], |text|, capacity);
      BudgetMatchesCapacity(plan.steps[i].end - plan.steps[i].start, c);
    }
  }

  predicate StepFits(step: Step, c: Config) {
    step.Partial? &&
    match EstimatedRequestTokens(step.end - step.start, c)
    case Ok(tokens) => tokens <= c.contextTokens
    case Err(_) => false
  }

  lemma PlannedStepsOk(ranges: seq<Range>, length: nat, capacity: nat, overlap: nat)
    requires ProperSplit(ranges, 0, length, capacity, overlap)
    ensures var steps := PartialSteps(ranges) + [Final(0, Pending, None)];
      && (forall i :: 0 <= i < |steps| ==> StepOk(steps, i, length, capacity, overlap))
      && PreviousEnd(steps, |steps|) == length
  {
    var steps := PartialSteps(ranges) + [Final(0, Pending, None)];
    var n := |ranges|;
    forall i | 0 <= i < |steps|
      ensures StepOk(steps, i, length, capacity, overlap)
    {
      if i < n {
        assert Fits(ranges[i], length, capacity);
        if i > 0 {
          assert Follows(ranges[i - 1], ranges[i], overlap);
        }
      }
    }
    assert PreviousEnd(steps, n + 1) == PreviousEnd(steps, n);
  }

  /** Storing the output of the current step and moving on. */
  function CompleteStep(plan: Plan, output: string): (next: Plan)
    requires 0 <= plan.nextStep < |plan.steps|
  {
    var step := plan.steps[plan.nextStep].(status := Completed, output := Some(output));
    plan.(steps := plan.steps[plan.nextStep := step], nextStep := plan.nextStep + 1)
  }

  lemma {:induction false} PreviousEndAfterCompletion(plan: Plan, output: string, i: nat)
    requires 0 <= plan.nextStep < |plan.steps| && i <= |plan.steps|
    ensures PreviousEnd(CompleteStep(plan, output).steps, i) == PreviousEnd(plan.steps, i)
  {
    if i > 0 {
      PreviousEndAfterCompletion(plan, output, i - 1);
    }
  }

  /** Progress keeps a plan valid: the check at the top of the chunk loop
      cannot fail after a step that is not the last one. */
  lemma CompletionKeepsPlanValid(plan: Plan, transcript: string, output: string)
    requires PlanOk(plan, transcript) && output != "" && plan.nextStep + 1 < |plan.steps|
    ensures PlanOk(CompleteStep(plan, output), transcript)
  {
    var next := CompleteStep(plan, output);
    var (capacity, overlap) := SplitLimits(ActiveConfig(plan.config)).value;
    forall i | 0 <= i < |plan.steps|
      ensures StepOk(next.steps, i, |transcript|, capacity, overlap)
    {
      assert StepOk(plan.steps, i, |transcript|, capacity, overlap);
      PreviousEndAfterCompletion(plan, output, i);
    }
    PreviousEndAfterCompletion(plan, output, |plan.steps|);
  }

  /** The part of the transcript that step `i` adds to the steps before it. */
  function Piece(steps: seq<Step>, i: nat, transcript: string): string
    requires i < |steps|
  {
    if steps[i].Partial? && 0 <= PreviousEnd(steps, i) <= steps[i].end <= |transcript|
    then transcript[PreviousEnd(steps, i)..steps[i].end]
    else ""
  }

  function Pieces(steps: seq<Step>, n: nat, transcript: string): string
    requires n <= |steps|
  {
    if n == 0 then "" else Pieces(steps, n - 1, transcript) + Piece(steps, n - 1, transcript)
  }

  lemma {:induction false} PiecesArePrefix(plan: Plan, transcript: string, n: nat)
    requires PlanOk(plan, transcript) && n <= |plan.steps|
    ensures 0 <= PreviousEnd(plan.steps, n) <= |transcript|
    ensures Pieces(plan.steps, n, transcript) == transcript[..PreviousEnd(plan.steps, n)]
  {
    hide PlanOk;
    if n > 0 {
      hide PreviousEnd;
      PiecesArePrefix(plan, transcript, n - 1);
      LastStepReach(plan, transcript, n);
      PrefixExtends(transcript, PreviousEnd(plan.steps, n - 1), PreviousEnd(plan.steps, n));
    }
  }

  lemma LastStepReach(plan: Plan, transcript: string, n: nat)
    requires PlanOk(plan, transcript) && 0 < n <= |plan.steps|
    ensures PreviousEnd(plan.steps, n - 1) <= PreviousEnd(plan.steps, n)
    ensures plan.steps[n - 1].Partial? ==> PreviousEnd(plan.steps, n) == plan.steps[n - 1].end <= |transcript|
    ensures plan.steps[n - 1].Final? ==> PreviousEnd(plan.steps, n) == PreviousEnd(plan.steps, n - 1)
  {
    var limits := SplitLimits(ActiveConfig(plan.config)).value;
    assert StepOk(plan.steps, n - 1, |transcript|, limits.0, limits.1);
  }

  lemma PrefixExtends(s: string, a: int, b: int)
    requires 0 <= a <= b <= |s|
    ensures s[..a] + s[a..b] == s[..b]
  {
  }

  /** No character is lost or repeated: the new parts of the chunks of any
      accepted plan, in order, are the transcript. */
  lemma AcceptedPlanReassembles(plan: Plan, transcript: string)
    requires PlanOk(plan, transcript)
    ensures Pieces(plan.steps, |plan.steps|, transcript) == transcript
  {
    PiecesArePrefix(plan, transcript, |plan.steps|);
  }
}
