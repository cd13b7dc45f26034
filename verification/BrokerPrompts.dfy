/**
 What the broker is asked for: the prompt of every request of a run, and when a
 step is not sent at all (app/services/pipeline.py).
 */
module BrokerPrompts {
  import opened Prelude
  import opened SummaryGateway
  import opened BrokerGateway
  import opened SummaryRow
  import opened FailurePolicy
  import opened BrokerProtocol
  import opened ProtocolInvariant
  import opened ProtocolSteps
  import opened ProtocolTheorems
  import Chunking

  // --------------------------------------------------------------- joining

  lemma JoinOne(x: string)
    ensures JoinOutputs([x]) == x
  {
  }

  /** Joining puts the separator between two lists of outputs. */
  lemma {:induction false} JoinLaw(a: seq<string>, b: seq<string>)
    requires a != [] && b != []
    ensures JoinOutputs(a + b) == JoinOutputs(a) + "\n\n---\n\n" + JoinOutputs(b)
  {
    if |a| == 1 {
      assert (a + b)[1..] == b;
    } else {
      assert (a + b)[1..] == a[1..] + b;
      JoinLaw(a[1..], b);
    }
  }

  predicate StandsAt(text: string, at: int, part: string) {
    0 <= at && at + |part| <= |text| && text[at..at + |part|] == part
  }

  /** Where output `i` begins: after those before it, each with a separator of
      seven characters. */
  function Offset(outputs: seq<string>, i: nat): nat
    requires i <= |outputs|
  {
    if i == 0 then 0 else Offset(outputs, i - 1) + |outputs[i - 1]| + 7
  }

  /** The text consists of the outputs in order, with a rule between two of them. */
  ghost predicate InOrder(text: string, outputs: seq<string>) {
    && outputs != []
    && |text| == Offset(outputs, |outputs|) - 7
    && (forall i :: 0 <= i < |outputs| ==> StandsAt(text, Offset(outputs, i), outputs[i]))
    && (forall i :: 0 <= i < |outputs| - 1 ==> StandsAt(text, Offset(outputs, i) + |outputs[i]|, "\n\n---\n\n"))
  }

  lemma {:induction false} OffsetOfPrefix(outputs: seq<string>, n: nat, i: nat)
    requires i <= n <= |outputs|
    ensures Offset(outputs[..n], i) == Offset(outputs, i)
  {
    if i > 0 {
      OffsetOfPrefix(outputs, n, i - 1);
    }
  }

  lemma StandsInPrefix(text: string, more: string, at: int, part: string)
    requires StandsAt(text, at, part)
    ensures StandsAt(text + more, at, part)
  {
    assert (text + more)[at..at + |part|] == text[at..at + |part|];
  }

  lemma {:induction false} JoinIsInOrder(outputs: seq<string>)
    requires outputs != []
    ensures InOrder(JoinOutputs(outputs), outputs)
    decreases |outputs|
  {
    var n := |outputs| - 1;
    if n == 0 {
      JoinOne(outputs[0]);
      assert outputs == [outputs[0]];
      assert Offset(outputs, 1) == Offset(outputs, 0) + |outputs[0]| + 7;
      assert StandsAt(outputs[0], Offset(outputs, 0), outputs[0]);
    } else {
      var front, last := outputs[..n], outputs[n];
      JoinIsInOrder(front);
      JoinLaw(front, [last]);
      JoinOne(last);
      assert outputs == front + [last];
      var text, rest := JoinOutputs(front), "\n\n---\n\n" + last;
      hide JoinOutputs;
      assert JoinOutputs(outputs) == text + rest;
      LastInOrder(text, front, last);
    }
  }

  lemma OffsetsStay(front: seq<string>, last: string)
    ensures var outputs := front + [last];
      && (forall i :: 0 <= i <= |front| ==> Offset(outputs, i) == Offset(front, i))
      && Offset(outputs, |outputs|) == Offset(front, |front|) + |last| + 7
  {
    var outputs := front + [last];
    forall i | 0 <= i <= |front|
      ensures Offset(outputs, i) == Offset(front, i)
    {
      OffsetOfPrefix(outputs, |front|, i);
      assert outputs[..|front|] == front;
    }
  }

  lemma OffsetStep(outputs: seq<string>, n: nat)
    requires 0 < n <= |outputs|
    ensures Offset(outputs, n) == Offset(outputs, n - 1) + |outputs[n - 1]| + 7
  {
  }

  lemma StandsAfter(text: string, part: string, more: string)
    ensures StandsAt(text + (part + more), |text|, part)
    ensures StandsAt(text + (part + more), |text| + |part|, more)
  {
    var whole := text + (part + more);
    assert whole[|text|..|text| + |part|] == part;
    assert whole[|text| + |part|..] == more;
  }

  lemma LastInOrder(text: string, front: seq<string>, last: string)
    requires InOrder(text, front)
    ensures InOrder(text + ("\n\n---\n\n" + last), front + [last])
  {
    hide Offset, StandsAt;
    var outputs, n, rest := front + [last], |front|, "\n\n---\n\n" + last;
    var whole := text + rest;
    OffsetsStay(front, last);
    OffsetStep(front, n);
    StandsAfter(text, "\n\n---\n\n", last);
    forall i | 0 <= i < n
      ensures StandsAt(whole, Offset(outputs, i), outputs[i])
    {
      StandsInPrefix(text, rest, Offset(front, i), front[i]);
    }
    forall i | 0 <= i < n
      ensures StandsAt(whole, Offset(outputs, i) + |outputs[i]|, "\n\n---\n\n")
    {
      if i < n - 1 {
        StandsInPrefix(text, rest, Offset(front, i) + |front[i]|, "\n\n---\n\n");
      }
    }
  }

  // --------------------------------------------------------------- prompts

  /** The saved outputs of all steps but the last, in order. */
  ghost predicate SavedOutputs(plan: Chunking.Plan, outputs: seq<string>) {
    && plan.steps != []
    && |outputs| == |plan.steps| - 1
    && forall i :: 0 <= i < |outputs| ==> plan.steps[i].output == Some(outputs[i]) && outputs[i] != ""
  }

  /** What the request of a stage's current step says. */
  ghost predicate Asks(s: Settings, plan: Option<Chunking.Plan>, operation: Operation) {
    match plan
    case None =>
      operation.kind == "traffic" && operation.ordinal == 0 && operation.prompt == s.singleInstructions + s.transcript
    case Some(saved) =>
      && 0 <= saved.nextStep < |saved.steps|
      && match saved.steps[saved.nextStep]
         case Partial(_, start, end, _, _) =>
           && operation.kind == "traffic_partial"
           && operation.ordinal == saved.nextStep
           && 0 <= start < end <= |s.transcript|
           && operation.prompt == s.partialInstructions + s.transcript[start..end]
         case Final(_, _, _) =>
           && operation.kind == "traffic_final"
           && operation.ordinal == 0
           && saved.nextStep == |saved.steps| - 1
           && s.finalInstructions <= operation.prompt
           && exists outputs :: SavedOutputs(saved, outputs)
                && InOrder(operation.prompt[|s.finalInstructions|..], outputs)
  }

  lemma OutputsOf(s: Settings, plan: Chunking.Plan)
    requires PlanInv(s, Some(plan)) && plan.steps[plan.nextStep].Final?
    ensures plan.nextStep == |plan.steps| - 1
    ensures SavedOutputs(plan, OutputTexts(plan.steps[..|plan.steps| - 1]))
  {
    PlanShape(s, plan);
    ValidStepsHaveText(plan, s.transcript);
    hide PlanInv, Chunking.PlanOk;
  }

  /** The final step's prompt has this length, and it is sent exactly if the
      request fits the context of the plan. */
  ghost predicate FitsFinally(s: Settings, plan: Chunking.Plan, outputs: seq<string>) {
    && plan.config.charsPerToken != 0.0
    && Ceil((|s.finalInstructions| + Max(0, Offset(outputs, |outputs|) - 7)) as real / plan.config.charsPerToken)
       + 700 + plan.config.maxTokens <= plan.config.contextTokens
  }

  lemma FinalDecision(s: Settings, plan: Chunking.Plan, outputs: seq<string>)
    requires PlanInv(s, Some(plan)) && plan.steps[plan.nextStep].Final? && SavedOutputs(plan, outputs)
    ensures if FitsFinally(s, plan, outputs)
      then Decide(s, Some(plan)).Submit? && Asks(s, Some(plan), Decide(s, Some(plan)).operation)
      else Decide(s, Some(plan)) == FailLocally("backend_context_exceeded")
  {
    hide PlanInv, Chunking.PlanOk, Chunking.BuildPlan, JoinOutputs, InOrder, Offset;
    OutputsOf(s, plan);
    PlanShape(s, plan);
    var texts := OutputTexts(plan.steps[..|plan.steps| - 1]);
    SameOutputs(plan, texts, outputs);
    JoinIsInOrder(texts);
    JoinedLength(texts);
    ValidPlan(s, plan);
    ValidPlanEstimates(plan, s.transcript, |FinalOperation(s, texts).prompt|);
    FinalOrdinal(s, plan);
    BehindInstructions(s.finalInstructions, JoinOutputs(texts));
  }

  lemma ValidPlan(s: Settings, plan: Chunking.Plan)
    requires PlanInv(s, Some(plan))
    ensures Chunking.PlanOk(plan, s.transcript)
  {
  }

  lemma JoinedLength(outputs: seq<string>)
    requires outputs != []
    ensures |JoinOutputs(outputs)| == Offset(outputs, |outputs|) - 7
  {
    JoinIsInOrder(outputs);
    hide JoinOutputs, Offset;
  }

  lemma BehindInstructions(instructions: string, text: string)
    ensures instructions <= instructions + text && (instructions + text)[|instructions|..] == text
  {
  }

  /** A partial step is always sent. */
  lemma PartialDecision(s: Settings, plan: Chunking.Plan)
    requires PlanInv(s, Some(plan)) && plan.steps[plan.nextStep].Partial?
    ensures Decide(s, Some(plan)).Submit? && Asks(s, Some(plan), Decide(s, Some(plan)).operation)
  {
    PlanShape(s, plan);
    ValidStepsHaveText(plan, s.transcript);
    hide PlanInv, Chunking.PlanOk, Chunking.BuildPlan;
  }

  /** Every request of every run asks for the current step and nothing else: the
      whole transcript, the chunk of that step, or the saved outputs of all steps
      in order with a rule between two of them, each after its instructions. */
  lemma RequestsAsk(s: Settings, maxAttempts: nat, log: seq<Event>, m: Machine)
    requires Reached(s, maxAttempts, log, m) && !m.phase.Idle?
    ensures Asks(s, m.db.row.plan, m.phase.operation)
  {
    RunKeepsInv(s, maxAttempts, log, m);
    hide Reached, Decide;
    InFlightDecision(s, m);
    hide Inv, Asks;
    if m.db.row.plan.None? {
      SingleDecision(s);
    } else {
      var plan := m.db.row.plan.value;
      if plan.steps[plan.nextStep].Partial? {
        PartialDecision(s, plan);
      } else {
        OutputsOf(s, plan);
        FinalDecision(s, plan, OutputTexts(plan.steps[..|plan.steps| - 1]));
      }
    }
  }

  lemma SingleDecision(s: Settings)
    requires Decide(s, None).Submit?
    ensures Asks(s, None, Decide(s, None).operation)
  {
    hide Chunking.BuildPlan;
  }

  lemma InFlightDecision(s: Settings, m: Machine)
    requires Inv(s, m) && !m.phase.Idle?
    ensures Decide(s, m.db.row.plan) == Submit(m.phase.operation) && PlanInv(s, m.db.row.plan)
    ensures m.db.row.plan.Some? ==> 0 <= m.db.row.plan.value.nextStep < |m.db.row.plan.value.steps|
  {
    if m.db.row.plan.Some? {
      PlanShape(s, m.db.row.plan.value);
    }
    hide PlanInv, PostsInv, HistoryInv, Decide;
  }

  // -------------------------------------------------------- local failures

  /** The saved outputs exceed the context together with the instructions, or no
      plan can be built for the transcript: nothing else fails a stage of a run
      without a request, and either is always noted as the context exceeded. */
  lemma LocalFailureIff(s: Settings, m: Machine, at: real)
    requires Inv(s, m) && MayAttempt(m, at)
    ensures Enabled(s, m, LocallyFailed(at)) <==>
      match m.db.row.plan
      case None => Chunking.BuildPlan(s.transcript, s.chunking).Err?
      case Some(plan) =>
        && plan.steps[plan.nextStep].Final?
        && forall outputs :: SavedOutputs(plan, outputs) ==> !FitsFinally(s, plan, outputs)
    ensures Enabled(s, m, LocallyFailed(at)) ==>
      var after := Apply(s, m, LocallyFailed(at)).db;
      && after.summary == m.db.summary
      && after.row.status == Failed
      && after.row.failureCode == Some("backend_context_exceeded")
      && after.row.failureClass == Some("backend_rejected")
      && after.row.plan.None?
      && after.row.nextAttemptAt.None?
      && after.row.attemptCount == m.db.row.attemptCount + 1
      && after.row.epoch == m.db.row.epoch
  {
    hide Enabled, Apply, Inv, Asks, FitsFinally, SavedOutputs, LocalFailureRow;
    LocalFailureView(s, m, at);
    PlanOfState(s, m);
    match m.db.row.plan {
      case None => FirstFailure(s);
      case Some(plan) =>
        if plan.steps[plan.nextStep].Partial? {
          PartialDecision(s, plan);
        } else {
          FinalFailure(s, plan);
        }
    }
    if Decide(s, m.db.row.plan).FailLocally? {
      LocalFailureFields(m.db.row, at);
    }
  }

  lemma PlanOfState(s: Settings, m: Machine)
    requires Inv(s, m)
    ensures PlanInv(s, m.db.row.plan)
    ensures m.db.row.plan.Some? ==> 0 <= m.db.row.plan.value.nextStep < |m.db.row.plan.value.steps|
  {
    if m.db.row.plan.Some? {
      PlanShape(s, m.db.row.plan.value);
    }
    hide PlanInv, PostsInv, HistoryInv, Decide;
  }

  lemma LocalFailureView(s: Settings, m: Machine, at: real)
    requires MayAttempt(m, at)
    ensures Enabled(s, m, LocallyFailed(at)) <==> Decide(s, m.db.row.plan).FailLocally?
    ensures Enabled(s, m, LocallyFailed(at)) ==>
      Apply(s, m, LocallyFailed(at)).db == m.db.(row := LocalFailureRow(m.db.row, Decide(s, m.db.row.plan).code, at))
  {
    hide Decide, LocalFailureRow;
  }

  lemma FirstFailure(s: Settings)
    ensures Decide(s, None).FailLocally? <==> Chunking.BuildPlan(s.transcript, s.chunking).Err?
    ensures Decide(s, None).FailLocally? ==> Decide(s, None).code == "backend_context_exceeded"
  {
    hide Chunking.BuildPlan;
  }

  lemma FinalFailure(s: Settings, plan: Chunking.Plan)
    requires PlanInv(s, Some(plan)) && 0 <= plan.nextStep < |plan.steps| && plan.steps[plan.nextStep].Final?
    ensures Decide(s, Some(plan)).FailLocally? <==>
      forall outputs :: SavedOutputs(plan, outputs) ==> !FitsFinally(s, plan, outputs)
    ensures Decide(s, Some(plan)).FailLocally? ==> Decide(s, Some(plan)).code == "backend_context_exceeded"
  {
    hide PlanInv, Decide, FitsFinally, Asks, SavedOutputs;
    OutputsOf(s, plan);
    var texts := OutputTexts(plan.steps[..|plan.steps| - 1]);
    FinalDecision(s, plan, texts);
    forall outputs | SavedOutputs(plan, outputs)
      ensures outputs == texts
    {
      SameOutputs(plan, outputs, texts);
    }
  }

  lemma SameOutputs(plan: Chunking.Plan, a: seq<string>, b: seq<string>)
    requires SavedOutputs(plan, a) && SavedOutputs(plan, b)
    ensures a == b
  {
    forall i | 0 <= i < |a|
      ensures a[i] == b[i]
    {
      assert plan.steps[i].output == Some(a[i]);
    }
  }

  lemma LocalFailureFields(row: Row, at: real)
    ensures var after := LocalFailureRow(row, "backend_context_exceeded", at);
      && after.status == Failed
      && after.failureCode == Some("backend_context_exceeded")
      && after.failureClass == Some("backend_rejected")
      && after.plan.None?
      && after.nextAttemptAt.None?
      && after.attemptCount == row.attemptCount + 1
      && after.epoch == row.epoch
  {
  }
}
