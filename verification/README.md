# Verified model of the summary pipeline

The service turns new YouTube videos into summaries: it fetches a transcript, has
an external task broker (or a local model) summarise it, and sends the result to
Telegram. It also takes `/summary` commands from a Telegram chat. This project
models the parts of that service that must survive crashes, lost replies and
stalled workers, and proves what they promise.

Every part is modelled twice where the program changes state: once as a machine
over values, whose runs carry the theorems, and once as classes whose methods
update fields in the order of the source. A class carries a ghost log, and its
`Valid()` says that the log is a run of the machine; so whatever is proved about
all runs holds at every point of the methods, for every answer of the outside
world and every crash. The ghost field `heard` of a session holds the broker's
answer until an event has acted on exactly that answer, so no method can make one
up or drop one.

| file | subject |
|---|---|
| `Chunking.dfy`, `ChunkingTheorems.dfy` | the planner and the strict validator of chunked summaries |
| `SummaryOutput.dfy`, `SummaryNormalForm.dfy`, `SummaryAcceptance.dfy` | validation of broker text, its normal form, and which texts are accepted |
| `SummaryGateway.dfy`, `Idempotency.dfy` | operations and the bytes behind idempotency keys |
| `FailurePolicy.dfy`, `BrokerGateway.dfy` | the disposition table, the epoch guard, the errors that can arise |
| `SummaryRow.dfy` | the durable stage row and what each commit writes |
| `BrokerProtocol.dfy`, `ProtocolInvariant.dfy`, `ProtocolSteps.dfy`, `ProtocolTheorems.dfy` | the submission protocol, its invariant, the theorems about all runs |
| `BrokerAnswers.dfy` | what every answer of the broker comes to, live or reconciled |
| `BrokerPrompts.dfy` | what every request asks for, and when a step is not sent |
| `AttemptLimit.dfy` | when and how far the attempt counter passes its limit |
| `Refinement.dfy` | chunked runs store the summary of one uninterrupted pass |
| `BrokerSubmission.dfy`, `SummaryPipeline.dfy` | the coordinator and the broker part of the pipeline as methods |
| `TerminalRace.dfy` | many workers handling one terminal task |
| `StagePipeline.dfy`, `DirectPipeline.dfy` | the three stages of a video on the direct route |
| `CommandQueue.dfy`, `CommandQueueTheorems.dfy`, `CommandQueueEffects.dfy`, `CommandWorker.dfy` | the lease-fenced command queue |
| `CommandIntake.dfy`, `CommandRecognition.dfy`, `CommandIntakeTheorems.dfy`, `CommandListener.dfy` | the long poll and the idempotent intake |
| `CommandHandover.dfy` | a commit of the intake is an arrival at the queue |

The outside world is free: the broker, Telegram, YouTube, clocks and the moment
of every crash are chosen by the environment, restricted only to the replies the
client code can turn into results. Clocks are real numbers.

Where the program does not do what its own text suggests, the model follows the
code:

- Cancelled and expired tasks are listed among the terminal codes, but the
  broker's own code and class replace them, so they end in quarantine
  (`CancelledTaskIsQuarantined`).
- On the broker route the attempt counter can pass `max_attempts`, because
  finding crash residue counts as an attempt (`FourAttemptsOfThree`). A run keeps
  the limit exactly if residue is only found while the row has an attempt left
  (`AttemptLimitKeptIff`); with `max_attempts` 0, which the table allows, every
  attempt passes it. The counter never exceeds the limit, or 1 if that is 0, by
  more than the further steps of the plan and one (`AttemptsAreBounded`), and a
  single request reaches that bound for every limit (`AttemptLimitIsPassed`). The
  epoch never passes `max_attempts`.
- A worker that stalls between its last ownership check and its message can send
  after another worker's reply was recorded (`StalledWorkerCanSendAfterSent`). A
  message leaves under its own claim exactly if no claim transaction has swept
  after the claim's lease (`MessageUnderClaimIff`, `ClaimHeldIff`); with one
  worker at a time that never happens (`NoMessageAfterSent`).
- A request with `reply_max_attempts` 0 can still cause one message, in the pass
  that fails it for exhausted attempts (`ZeroReplyLimitIsExceeded`). The limit is
  kept exactly if it is at least 1 (`ReplyLimitKeptIff`). The table allows 0, but
  the endpoint leaves the column at its default 3, so the failing input needs a
  row written by hand.

Assumed throughout, as the service arranges it: one worker at a time
(`app/services/execution_lock.py`), except in `TerminalRace` and for the workers
of the command queue after their claim; a fixed route and configuration; a
transcript that never changes once it is there; and fresh lease tokens. That
command requests become visible to the queue in the order of their ids is not
assumed but proved of the intake (`CommitIsArrival`).

`dafny verify dfyconfig.toml` verifies the project.

## Model

| member | source | states |
|---|---|---|
| Chunking.BudgetMatchesCapacity | app/services/broker_chunking.py:44-60 | a request fits the context exactly when its transcript part is within the character capacity |
| Chunking.RFindFinds | app/services/broker_chunking.py:73-85 | what the backwards search returns is an occurrence |
| Chunking.RFindIsLast | app/services/broker_chunking.py:73-85 | no later occurrence lies in the window |
| Chunking.FindBoundary | app/services/broker_chunking.py:73-85 | the cut is the end of the text, or lies in the second half of the window, or is the window's edge |
| Chunking.BoundaryFollowsLastBreak | app/services/broker_chunking.py:73-85 | a cut inside the text follows the last paragraph, line or sentence break of the window's second half, and only a half without any break is cut at its edge |
| Chunking.ChunkEnd | app/services/broker_chunking.py:88-102 | a chunk is not empty and not over capacity, and one that is not the last is longer than half the capacity |
| Chunking.SplitLimits | app/services/broker_chunking.py:49-60 | the capacity is positive and the overlap at most half of it |
| Chunking.SplitLoop | app/services/broker_chunking.py:88-102 | the loop over `start` computes the recursive split |
| Chunking.SplitTranscript | app/services/broker_chunking.py:88-102 | the whole splitter with its configuration errors |
| Chunking.SplitIsProper | app/services/broker_chunking.py:88-102 | starts and ends strictly increase, chunks are within capacity, neighbours overlap within the bound, and the text is covered exactly |
| Chunking.ChunkCountBound | app/services/broker_chunking.py:88-102 | (k - 1) * (capacity div 2 + 1 - overlap) < length for k chunks |
| Chunking.ValidatePlan | app/services/broker_chunking.py:143-223 | the validator's pass with `previous_end` accepts exactly the plans that satisfy all its conditions |
| Chunking.BuilderMeetsValidator | app/services/broker_chunking.py:105-223 | every plan the builder makes is accepted on the same text, has at least two partial steps, and each chunk fits the context |
| Chunking.CompletionKeepsPlanValid | app/services/pipeline.py:1142-1154 | completing the current step, unless it is the last, keeps a valid plan valid |
| Chunking.AcceptedPlanReassembles | app/services/broker_chunking.py:179-223 | the pieces between consecutive ends of any accepted plan are the transcript, in order |
| ChunkingTheorems.CapacityIff | app/services/broker_chunking.py:44-60 | a chunk is within the capacity exactly if it is no longer than configured and its request, with 700 tokens of overhead and the answer, fits the context |
| ChunkingTheorems.LimitsAre | app/services/broker_chunking.py:25-60 | which configurations are usable, and that the overlap is the configured one or half a chunk, whichever is less |
| ChunkingTheorems.PlanNeededIff | app/services/broker_chunking.py:105-140 | one request exactly if the text fits it; a plan exactly if it does not, chunking is enabled, there is room, and the chunks are not too many; the plan has the ranges of the split |
| ChunkingTheorems.SplitCutsAtBreaks | app/services/broker_chunking.py:73-102 | every chunk but the last is cut after the last break in the second half of its window, and the next begins exactly the overlap before the cut |
| ChunkingTheorems.AcceptedIff | app/services/broker_chunking.py:143-223 | the validator accepts exactly the plans of this version for this text whose chunks cover it in order, within capacity and overlap, with the outputs of a first part |
| SummaryOutput.ValidatedHasText | app/services/broker_summary.py:8-53 | what either validator returns is not empty |
| SummaryNormalForm.BrokerOutputIsNormal | app/services/broker_summary.py:8-40 | the full validator returns a fixed point of itself |
| SummaryNormalForm.BrokerPartialOutputIsNormal | app/services/broker_summary.py:43-53 | the partial validator returns a fixed point of itself |
| SummaryNormalForm.RejoinedIsNormal | app/services/broker_summary.py:8-53 | the returned lines need no further normalising, split into themselves, and bring no reasoning tag about |
| SummaryAcceptance.ValidationKeepsInk | app/services/broker_summary.py:8-53 | both validators return all characters of the text in order, but for white space |
| SummaryAcceptance.PartialAcceptedIff | app/services/broker_summary.py:43-53 | a partial output is accepted exactly if it has text, every line with text is a bullet with text, and there is no reasoning tag |
| SummaryAcceptance.FullAcceptedIff | app/services/broker_summary.py:8-40 | a full output is accepted exactly if it has no reasoning tag and its lines form a report: the two or three sections in order, each with text, points as bullets, no mark-up |
| Idempotency.EncodeInjective | app/services/broker_idempotency.py:28-34 | UTF-8 encoding of field values loses nothing |
| Idempotency.DecimalRoundTrip | app/services/broker_idempotency.py:22-26 | printed integers read back |
| Idempotency.FieldsRoundTrip | app/services/summarization_gateway.py:30-33 | joined length-prefixed fields are decoded to the same fields |
| Idempotency.PreImageInjective | app/services/broker_idempotency.py:13-35 | the hashed bytes determine stage, epoch, kind and ordinal, across the legacy and the tagged encoding |
| Idempotency.HashedFields | app/services/broker_idempotency.py:13-35 | what is hashed is the legacy fields for epoch zero and the named, versioned ones for any later epoch |
| FailurePolicy.DirectRouteRetriesThenFails | app/services/summary_failure_policy.py:46-98 | the direct route never quarantines, fails exactly when the attempts are used up, and otherwise retries after the backoff |
| FailurePolicy.BrokerRetryIff | app/services/summary_failure_policy.py:46-98 | the broker route retries exactly with attempts left and a safe class, or without a class and outside both code tables, and does so after the backoff |
| FailurePolicy.BackoffBounds | app/services/summary_failure_policy.py:76-98 | the delay grows with the attempts and stays between 30 and 960 seconds |
| FailurePolicy.BackoffTable | app/services/summary_failure_policy.py:76-98 | the delay is 30, 60, 120, 240, 480 and from the sixth attempt 960 seconds |
| BrokerGateway.SubmitErrors | app/services/broker_gateway.py:194-272 | which codes a POST can end in: never with a failure class |
| BrokerGateway.PollErrors | app/services/broker_gateway.py:274-299 | which combinations of code, class and task id a result GET can end in |
| BrokerGateway.PolledText | app/services/broker_traffic.py:98-119 | a polled text is not empty |
| BrokerGateway.AcceptedKey | app/services/broker_gateway.py:265-272 | an accepted task names the key that was sent |
| BrokerProtocol.CrashAnywhere | app/services/broker_submission.py:22-27 | a crash may follow any prefix of a run: it keeps the row and loses the worker |
| ProtocolSteps.SubmitRank | app/services/pipeline.py:1099-1134 | the key of the current operation ranks at epoch plus plan step |
| ProtocolSteps.HistoryNeverTruncated | app/services/broker_submission.py:325-336 | the bounded history never drops an entry |
| ProtocolSteps.ErrorEndings | app/services/broker_submission.py:211-376 | an error ends in quarantine, failure, or a retry in the next epoch, the last exactly for a task the broker reported as failed with a safe class while attempts are left |
| ProtocolSteps.TimeoutEnding | app/services/broker_submission.py:261-286 | a timeout or residue is quarantined with its correlation kept |
| BrokerAnswers.PostRefusalEndsIff | app/services/broker_submission.py:127-259 | a POST without a task is quarantined exactly for timeouts, transport and unexpected failures and answers 200, 201, 202, and fails the stage for a request too large or any other status; with the code, class and task that are known |
| BrokerAnswers.TimeoutEffect | app/services/broker_submission.py:84-109 | a timeout before the POST or while polling, and residue, leave the stage to the operator with all that is known about the task |
| BrokerAnswers.PostAcceptedIff | app/services/broker_gateway.py:194-272 | a POST gives a task exactly for 201 or 202 with a location and a well-formed envelope, and the row names that task |
| BrokerAnswers.PollAnswerIff | app/services/broker_gateway.py:274-299 | every poll answer waits, delivers a text valid for its kind, or refuses, and exactly one of them |
| BrokerAnswers.DeliveredIsStored | app/services/broker_submission.py:378-408 | the delivered text becomes the output of the current step or the summary |
| BrokerAnswers.PollRefusalEndsIff | app/services/broker_submission.py:211-376 | a refused poll is quarantined exactly if nothing is known about the task, retried after the backoff exactly if the task failed safely with attempts left, and fails the stage otherwise; a safe failure is entered into the history |
| BrokerAnswers.ReconcileEffect | app/services/pipeline.py:378-441 | the reconciler keeps a stage open for a minute unless the broker says how the task ended, gives it up for a task that is over, and stores a valid text |
| BrokerPrompts.JoinLaw | app/services/pipeline.py:1113-1121 | joined lists of outputs have the separator between them |
| BrokerPrompts.RequestsAsk | app/services/pipeline.py:1069-1134 | every request of every run says the instructions and the transcript, the chunk of its step, or the saved outputs in step order with the separator between them |
| BrokerPrompts.FinalDecision | app/services/pipeline.py:1109-1125 | the final step is sent exactly if its whole prompt fits the context, and otherwise fails as context exceeded |
| BrokerPrompts.LocalFailureIff | app/services/pipeline.py:1051-1203 | a stage of a run fails without a request exactly if no plan can be built or the final prompt does not fit, always noted as context exceeded |
| ProtocolSteps.CancelledTaskIsQuarantined | app/services/broker_submission.py:221-251 | cancelled and expired tasks are quarantined although their codes are in the terminal table |
| ProtocolSteps.LocalFailureIsTerminal | app/services/pipeline.py:1181-1203 | a local failure always fails the stage |
| ProtocolSteps.StoringEnds | app/services/pipeline.py:404-441 | a stored result, live or reconciled, is one partial step of progress or the end of the stage |
| ProtocolSteps.StepKeepsInv | app/services/broker_submission.py:78-408 | every commit, request, operator step and crash keeps the protocol's invariant |
| ProtocolTheorems.StatesKeepInv | app/services/broker_submission.py:78-408 | every state of every run satisfies the invariant |
| ProtocolTheorems.NoDuplicateSubmission | app/services/broker_submission.py:78-376 | no two POSTs of a stage carry the same epoch, kind and ordinal; epoch plus step strictly increases |
| ProtocolTheorems.SubmissionsHashDistinctBytes | app/services/broker_idempotency.py:13-35 | the keys of two POSTs hash different bytes |
| ProtocolTheorems.SubmissionBound | app/services/pipeline.py:1091-1179 | a stage submits at most its attempts plus the further steps of its plan |
| ProtocolTheorems.HistoryIsComplete | app/services/broker_submission.py:325-352 | the epoch never passes attempts or `max_attempts`, is strictly below the attempts while anything is outstanding, and the history holds the epochs in order |
| AttemptLimit.StepCounts | app/services/pipeline.py:1004-1203 | what each event costs: preparing, finding residue and a local failure cost an attempt, a stored result gives one back and ends the step, any other event keeps the counter, and drops something outstanding only by ending the stage or by a retry in the next epoch |
| AttemptLimit.AttemptLimitKeptIff | app/services/pipeline.py:1029-1050 | a run keeps the counter within `max_attempts` exactly if residue (and, with no attempts allowed, any attempt) is only met while the row has an attempt left |
| AttemptLimit.AttemptsAreBounded | app/services/pipeline.py:1029-1179 | the counter is at most `max_attempts`, or 1 if that is 0, plus the further steps of the plan, plus 1 |
| AttemptLimit.AttemptLimitIsPassed | app/services/pipeline.py:1029-1179 | for every limit and every transcript that fits one request there is a run whose counter meets that bound |
| AttemptLimit.FourAttemptsOfThree | app/models/pipeline_stage.py:25 | at the column's default of three attempts a reachable row counts four |
| ProtocolTheorems.WriteAhead | app/services/broker_submission.py:122-209 | a POST leaves only under its durable prepared key; a result GET only under the accepted or operator-released task id |
| ProtocolTheorems.QuarantineIsolation | app/services/broker_submission.py:353-358 | the quarantine time is set exactly while quarantined; nothing is posted then, nothing polled before the operator's step, and without a task id nothing changes |
| ProtocolTheorems.EndIsFinal | app/services/pipeline.py:860-871 | completed and failed stages never change, and the summary is there exactly when completed |
| ProtocolTheorems.TaskIdConserved | app/services/broker_submission.py:288-408 | a task id leaves the row only with its result stored or its confirmed safe failure recorded |
| ProtocolTheorems.SavedPlanStaysValid | app/services/pipeline.py:1091-1093 | a saved plan stays valid, is never rejected later, and always reassembles the transcript |
| Refinement.StatesFollow | app/services/pipeline.py:1091-1179 | stored outputs are the broker's texts for the planned ranges, and an unresolved task belongs to the current operation |
| Refinement.CompletedRunsAgree | app/services/pipeline.py:1091-1179 | with a functional broker every completed run stores the summary of one uninterrupted map, join and final pass |
| BrokerSubmission.Session.Commit | app/services/broker_submission.py:368-369 | a commit makes exactly the objects' values durable and is one event of the run |
| BrokerSubmission.Session.Restart | app/services/broker_submission.py:22-27 | a crash keeps the row and loses everything else |
| BrokerSubmission.PolledTwice | app/services/pipeline.py:1091-1098 | steps that share a deadline keep its bounds together: fewer polls than seconds, no sleep beyond a second a poll, nothing given up before the deadline |
| BrokerSubmission.FailureEnding | app/services/broker_submission.py:337-367 | a failed submission is retried only in the next epoch with nothing outstanding |
| BrokerSubmission.ProgressIsFree | app/services/pipeline.py:1142-1144 | a completed partial step costs the stage no attempt |
| BrokerSubmission.Coordinator.ApplyOutcome | app/services/broker_submission.py:288-376 | the outcome reaches the row in one commit, on the row as the database has it for a confirmed terminal task; one that another worker has handled writes nothing; the returned disposition is the row's |
| BrokerSubmission.Coordinator.Classify | app/services/broker_submission.py:211-259 | an error is classified and committed as the protocol's error row |
| BrokerSubmission.Coordinator.Quarantine | app/services/broker_submission.py:261-286 | the indeterminate timeout is committed with its correlation |
| BrokerSubmission.Coordinator.Complete | app/services/broker_submission.py:378-408 | output, progress, cleared markers and dropped task id become durable in one commit |
| BrokerSubmission.Coordinator.WaitForPoll | app/services/broker_submission.py:159-182 | a poll comes a second or more after the wait began and before the deadline; no more than a second of sleep is asked for; giving up means that the deadline has passed |
| BrokerSubmission.Coordinator.PollUntil | app/services/broker_submission.py:158-209 | the loop ends in a stored result, an error or the passed deadline, with a second per poll, at most ceil(T) - 1 polls, and no sleep but a second before each |
| BrokerSubmission.Coordinator.AwaitResult | app/services/broker_submission.py:158-209 | how an accepted task leaves the database; it is given up only at the deadline, or the timeout after the start without one |
| BrokerSubmission.Coordinator.Accept | app/services/broker_submission.py:151-156 | task id and key become durable before the first poll |
| BrokerSubmission.Coordinator.Answered | app/services/broker_submission.py:136-156 | a refused POST is classified, an accepted one is awaited until it is due |
| BrokerSubmission.Coordinator.SubmitPrepared | app/services/broker_submission.py:127-209 | from the prepared marker on: POST, acceptance, polls, within the poll budget; after the deadline nothing is sent, before it nothing is given up |
| BrokerSubmission.Coordinator.Attempt | app/services/broker_submission.py:78-209 | residue is quarantined without a request; otherwise progress, the summary, or a failure whose disposition is returned, a retry only in the next epoch, and a timeout only when due |
| SummaryPipeline.DecideOnPlan | app/services/pipeline.py:1099-1134 | a valid plan leads to the operation of its current step or to a local failure |
| SummaryPipeline.OpenToReconcile | app/services/pipeline.py:361-377 | an eligible stage has a valid plan or none, so the reconciler's rejection is never taken |
| SummaryPipeline.Pipeline.RecordLocalBrokerFailure | app/services/pipeline.py:1181-1203 | a local failure is committed without any request, fails the stage as context exceeded and drops the plan |
| SummaryPipeline.Pipeline.AttemptStep | app/services/pipeline.py:1099-1179 | one step, begun with more than half a second left: the next may follow at once, or the stage has ended, is quarantined, or retries in the next epoch; a timeout comes only at the deadline |
| SummaryPipeline.Pipeline.AttemptSteps | app/services/pipeline.py:1091-1179 | the chunk loop terminates, its validation never raises, nothing begins in the last half second, and all its steps together stay within the deadline |
| SummaryPipeline.Pipeline.AttemptUnplanned | app/services/pipeline.py:1051-1089 | a plan becomes durable, or one request is made, or the stage fails |
| SummaryPipeline.Pipeline.AttemptResidue | app/services/pipeline.py:1029-1050 | residue counts one attempt and is quarantined without a request |
| SummaryPipeline.Pipeline.AttemptSingle | app/services/pipeline.py:1069-1089 | the single request settles the stage or advances the epoch, and times out only after the coordinator's timeout |
| SummaryPipeline.Pipeline.AttemptBrokerSummaryStage | app/services/pipeline.py:1004-1179 | an attempt settles the stage, advances the epoch, or runs out of the plan deadline |
| SummaryPipeline.Pipeline.AttemptSummaryStage | app/services/pipeline.py:854-891 | finished, quarantined and undue stages are left alone without any request; due ones are attempted |
| SummaryPipeline.Pipeline.MakeQuarantineGetEligible | app/services/pipeline.py:445-458 | only a known task that awaits the operator becomes eligible, and nothing is submitted |
| SummaryPipeline.Pipeline.StoreReconciled | app/services/pipeline.py:404-441 | a reconciled text becomes progress or the summary |
| SummaryPipeline.Pipeline.NoteReconcileError | app/services/pipeline.py:388-400 | an error without a class or of an indeterminate one leaves the stage eligible in a minute, any other fails it and drops quarantine and plan |
| SummaryPipeline.Pipeline.ApplyReconciled | app/services/pipeline.py:378-441 | the answer of the GET, and no other, is what is acted on: kept open, given up, or stored |
| SummaryPipeline.Pipeline.ReconcileQuarantined | app/services/pipeline.py:345-443 | an eligible stage costs exactly one GET and no POST, any other stage nothing; the effect is what the answer calls for |
| TerminalRace.HandlerEffect | app/services/broker_submission.py:298-352 | a handler changes the row only while its task is current, and an advance is by one and drops the task |
| TerminalRace.EpochAdvancesOncePerTask | app/services/broker_submission.py:298-352 | under any interleaving of handlers the epoch advances at most once per task |
| TerminalRace.LaterHandlersChangeNothing | app/services/broker_submission.py:309-318 | once a task advanced the epoch, every later handler of it leaves the row unchanged |
| TerminalRace.AdvanceIsBounded | app/services/broker_safe_retry.py:9-29 | the guard never lets the epoch pass `max_attempts` |
| TerminalRace.StageTable.HandleTerminal | app/services/broker_submission.py:288-376 | under the row lock the stale copy is always overwritten, and a task that is no longer current writes nothing |
| StagePipeline.PassKeepsInv | app/services/pipeline.py:264-339 | a stage ends only after the stages before it, whatever services exist |
| StagePipeline.PassProgressIff | app/services/pipeline.py:264-339 | with all services a pass uses up attempts exactly unless all has ended or the summary is not due, and then changes nothing |
| StagePipeline.EndsWithinAttempts | app/services/pipeline.py:264-339 | all three stages end within the sum of their attempts |
| StagePipeline.EndedStagesStay | app/services/pipeline.py:796-871 | completed and failed stages and a stored summary never change |
| StagePipeline.SentAfterSummary | app/services/pipeline.py:306-312 | a notification follows a completed summary, carries it, and comes at most once in a pass |
| StagePipeline.NotificationsBounded | app/services/pipeline.py:1321-1377 | no more notifications than the Telegram stage has attempts, all with the one summary |
| StagePipeline.TranscriptAnswers | app/services/pipeline.py:796-852 | exactly when the transcript stage completes, fails or is retried, and that the stored transcript is the fetched one |
| StagePipeline.SummaryAnswers | app/services/pipeline.py:854-1002 | exactly when a due summary stage completes, fails or is retried and when, and that the stored summary is the generated one |
| StagePipeline.SummaryFollowsTranscript | app/services/pipeline.py:264-339 | a summary stage waits for its transcript and is skipped without one |
| StagePipeline.TelegramAnswers | app/services/pipeline.py:1321-1377 | exactly when a notification is sent, done, repeated, given up or skipped |
| DirectPipeline.PipelineService.AttemptTranscriptStage | app/services/pipeline.py:796-852 | the transcript attempt on stage and video |
| DirectPipeline.PipelineService.AttemptSummaryStage | app/services/pipeline.py:854-1002 | the direct summary attempt, which never quarantines |
| DirectPipeline.PipelineService.AttemptTelegramStage | app/services/pipeline.py:1321-1377 | the notification attempt and what it sends |
| DirectPipeline.PipelineService.ProcessNewVideoStages | app/services/pipeline.py:264-339 | one pass over the three stage objects |
| DirectPipeline.PipelineService.Drain | app/services/pipeline.py:264-339 | repeated passes end all stages within their attempts |
| CommandQueueTheorems.StepKeepsInv | app/services/telegram_command_queue.py:51-466 | every queue step keeps leases, order and reply counts consistent |
| CommandQueueTheorems.ProcessingIsOldest | app/services/telegram_command_queue.py:95-107 | a request in processing is the lowest-id live one for its video, so there is only one |
| CommandQueueTheorems.ContentFinishesInOrder | app/services/telegram_command_queue.py:395-421 | a content result lands only when every older request for the video has ended |
| CommandQueueTheorems.TokenMeaning | app/services/telegram_command_queue.py:162-233 | a token is present exactly while processing or sending, never both |
| CommandQueueTheorems.WriteLandsIffOwned | app/services/telegram_command_queue.py:444-466 | a worker's write lands exactly under its own token, and then its claim is the row's latest and still in its work |
| CommandQueueTheorems.LostClaimStaysLost | app/services/telegram_command_queue.py:162-193 | a recovered, suppressed or finished claim never regains the row |
| CommandQueueTheorems.EndedRequestIsFrozen | app/services/telegram_command_queue.py:184-218 | once ended, status and error never change, and a sent reply stays sent |
| CommandQueueTheorems.SendsCountsMessages | app/services/telegram_command_queue.py:355-359 | the counter in the bounds counts the messages |
| CommandQueueTheorems.RepliesAreBounded | app/services/telegram_command_queue.py:207-233 | under any interleaving at most `reply_max_attempts` messages, or one when that is 0 |
| CommandQueueTheorems.SendNeedsEndedRequest | app/services/telegram_command_queue.py:137-153 | no message before the request has ended, one per claim |
| CommandQueueTheorems.NoMessageAfterSent | app/services/telegram_command_queue.py:342-393 | with one worker at a time no message follows a recorded sent reply |
| CommandQueueTheorems.ClaimHeldIff | app/services/telegram_command_queue.py:162-193 | until its worker's result a claim is held exactly if no claim transaction has swept after its lease, whatever else happens |
| CommandQueueTheorems.MessageUnderClaimIff | app/services/telegram_command_queue.py:162-193 | a message leaves under its own claim exactly if no claim transaction has swept after the claim's lease; so it follows a sent reply only after such a sweep |
| CommandQueueTheorems.StalledWorkerCanSendAfterSent | app/services/telegram_command_queue.py:353-359 | a concrete run in which a stalled worker may send after a recorded sent reply |
| CommandQueueTheorems.ZeroReplyLimitIsExceeded | app/services/telegram_command_queue.py:195-219 | a concrete run in which a request with the default attempts but reply limit 0 causes a message |
| CommandQueueTheorems.ReplyLimitKeptIff | app/services/telegram_command_queue.py:195-233 | a limit that the table allows is kept by every reachable request exactly if it is at least 1 |
| CommandQueueEffects.SweepEffect | app/services/telegram_command_queue.py:162-219 | work past its lease is due again at once, with a note or keeping its error, and what has no attempts left fails |
| CommandQueueEffects.ClaimEffect | app/services/telegram_command_queue.py:51-153 | the request created first among those with something to do is turned away, put off behind the oldest open request for its video, or leased for an hour under a fresh token, and no other row changes |
| CommandQueueEffects.WriteEffect | app/services/telegram_command_queue.py:360-457 | a worker's write lands only under its own token and leaves exactly the result, with the literal pauses before another try |
| CommandWorker.EndingMeaning | app/services/telegram_command_queue.py:235-340 | exactly which facts complete, reject, fail or delay a request, by how much, with which error, and when an attempt is given back |
| CommandWorker.TelegramCommandQueue.RecoverStaleClaims | app/services/telegram_command_queue.py:162-193 | every expired claim is released, nothing else changes |
| CommandWorker.TelegramCommandQueue.TerminalizeExhaustedRequests | app/services/telegram_command_queue.py:195-219 | exhausted requests and replies fail, nothing else changes |
| CommandWorker.TelegramCommandQueue.SelectCandidate | app/services/telegram_command_queue.py:125-153 | the due request that comes first by creation time and id, or none is due |
| CommandWorker.TelegramCommandQueue.OlderContentLeader | app/services/telegram_command_queue.py:95-123 | the oldest live request for the same video, or there is none |
| CommandWorker.TelegramCommandQueue.ActOn | app/services/telegram_command_queue.py:63-77 | the candidate is suppressed, deferred or claimed under the fresh token |
| CommandWorker.TelegramCommandQueue.ClaimNext | app/services/telegram_command_queue.py:51-77 | sweep, selection and claim are one step of the run |
| CommandWorker.TelegramCommandQueue.FinishProcessing | app/services/telegram_command_queue.py:395-421 | the result lands only under the row's own token |
| CommandWorker.TelegramCommandQueue.IncrementMetadataAttempt | app/services/telegram_command_queue.py:423-442 | counts exactly under the own token with attempts left |
| CommandWorker.TelegramCommandQueue.ProcessContent | app/services/telegram_command_queue.py:235-340 | a metadata attempt is counted before the service is asked, and a result that lands has the status, error and due time that the facts call for |
| CommandWorker.OwnedIsAuthorized | app/services/telegram_command_queue.py:342-350 | a leased request is authorised, so with fixed settings the suppression after a claim is never taken |
| CommandWorker.TelegramCommandQueue.CheckOwnership | app/services/telegram_command_queue.py:459-466 | the worker goes on exactly while it owns the row |
| CommandWorker.TelegramCommandQueue.WriteReply | app/services/telegram_command_queue.py:360-393 | sent, failed or retried later, under the own token only |
| CommandWorker.TelegramCommandQueue.DeliverReply | app/services/telegram_command_queue.py:342-393 | at most one message, about an ended request, whatever others do in between |
| CommandIntakeTheorems.DuplicateMatches | app/api/routes/telegram_commands.py:285-319 | a redelivered command meets its own row, never a conflict |
| CommandIntakeTheorems.StepKeepsInv | app/services/telegram_command_listener.py:304-421 | every intake step keeps offsets behind unhandled commands |
| CommandIntakeTheorems.ConfirmedHasExactlyOneRow | app/services/telegram_command_listener.py:391-421 | while commands are enabled an authorised command confirmed to Telegram has exactly one row |
| CommandIntakeTheorems.OffsetNeverPassesUnhandled | app/services/telegram_command_listener.py:347-359 | the running offset never passes an unhandled update |
| CommandIntakeTheorems.MissingCommandIsRedelivered | app/services/telegram_command_listener.py:391-421 | a command without a row is not confirmed by any poll: it is still to be delivered |
| CommandIntakeTheorems.RowsAreCommands | app/api/routes/telegram_commands.py:97-173 | every row comes from exactly one authorised command, with that message's chat, user, id and parsed video, rejected exactly if there is none; disabled commands make none |
| CommandIntakeTheorems.RowsBecomeVisibleInOrder | app/api/routes/telegram_commands.py:266-282 | rows become visible in the order of their ids and of their updates, though requests overlap, wait and die |
| CommandIntakeTheorems.CommitIsNext | app/api/routes/telegram_commands.py:266-282 | the row of any commit is above all visible ones, by id and by update |
| CommandIntakeTheorems.RowsStay | app/api/routes/telegram_commands.py:97-173 | rows are permanent |
| CommandHandover.CommitIsArrival | app/models/telegram_command_request.py:38-62 | every commit is an arrival that the queue's runs allow: a new highest id, authorised, with the video, the rejection and the default limits |
| CommandIntakeTheorems.EndpointAnswers | app/api/routes/telegram_commands.py:84-173 | the listener's requests are accepted without conflict, refused as disabled, or over the text limit |
| CommandRecognition.WordsLaws | app/services/telegram_command_listener.py:317-317 | splitting into words is what its three laws say |
| CommandRecognition.CommandIff | app/services/telegram_command_listener.py:493-534 | an update is a command exactly if it is a plain message of the configured user in the private chat, not forwarded, whose first word is the command, addressed to this bot or to none |
| CommandRecognition.SummaryCommandIff | app/api/routes/telegram_commands.py:257-259 | the endpoint takes the word alone or with any bot's name |
| CommandRecognition.LookUpIff | app/api/routes/telegram_commands.py:84-173 | exactly when the endpoint inserts, and when it answers 409, 403, 422 or a duplicate with or without conflict |
| CommandListener.SortRestoresOrder | app/services/telegram_command_listener.py:349-349 | sorting by id makes the order of a delivered batch irrelevant |
| CommandListener.Intake.GetUpdates | app/services/telegram_command_listener.py:396-409 | a poll is lost, or delivers the oldest unconfirmed updates in any order |
| CommandListener.Intake.LookUpCommand | app/api/routes/telegram_commands.py:89-154 | validation, duplicate check and authorisation up to the insert |
| CommandListener.Intake.FlushNewRequest | app/api/routes/telegram_commands.py:266-282 | the row is inserted under the next id, or the unique constraint turns it into a duplicate response |
| CommandListener.Intake.Commit | app/api/routes/telegram_commands.py:164-164 | the commit makes the row visible |
| CommandListener.Intake.AcceptTelegramCommand | app/api/routes/telegram_commands.py:84-173 | whatever it answers is what the table says, and it answers unless it dies or waits for another insert |
| CommandListener.BackoffDelay | app/services/telegram_command_listener.py:545-550 | delays are between 1 and 30 seconds |
| CommandListener.BackoffIsPause | app/services/telegram_command_listener.py:545-550 | the pause of the step, longer if asked for, up to 30 seconds |
| CommandListener.TelegramCommandListener.HandleUpdate | app/services/telegram_command_listener.py:304-345 | an update counts as handled only if it needs nothing, has its row, or commands are disabled; it stays unhandled only if the endpoint died, the answer was lost, another insert blocks it, or the text is too long |
| CommandListener.TelegramCommandListener.ProcessUpdateBatch | app/services/telegram_command_listener.py:347-359 | in id order a first part of the batch is passed, each of it needing nothing or having its row, and the offset returned is past exactly that part |
| CommandListener.TelegramCommandListener.IntakeLoop | app/services/telegram_command_listener.py:391-421 | unless stopped, the offset to poll with next is covered, and the loop sleeps exactly the pauses of 1, 2, 5, 10 and 30 seconds that follow from how its rounds went |

## Left out

- SHA-256, HTTP, JSON and SQL: a key or fingerprint is represented by its pre-image, a reply by what the client makes of it, a commit by replacing a value.
- Chunking.ValidatePlan: leaves out the checks of JSON types and keys, because the plan has Dafny types.
- SQLAlchemy's tracking of nested JSON changes: assigning the plan stores that value.
- Display texts, `last_error` of a stage, `last_attempt_at`, `reconciliation_reason`, `processing_started_at`, acknowledgments and log lines: nothing that is modelled reads them.
- Column widths: a failure class from the broker may be longer than its column.
- The prompt texts and the byte limit of a request: prompts are opaque strings, and whether a request is too large is the environment's choice.
- A summarization service without `operation_for` or key builders: both broker services have them.
- The heading check that compares a line with its stripped self: it holds for every line equal to a heading.
- TerminalRace.EpochAdvancesOncePerTask: is about handlers of confirmed terminal tasks; a stale write of another kind that restores an old task id is outside it, as the one-worker lock excludes it.
- SummaryPipeline.Pipeline.ReconcileQuarantined: handles one stage and commits at once, where the source walks over all eligible stages and its caller commits them together.
- SummaryPipeline.Pipeline.AttemptSummaryStage: leaves out a missing service, a missing transcript and a summary stored by someone else, which the broker route's settings exclude; StagePipeline has these branches on the direct route.
- SummaryPipeline.Pipeline.MakeQuarantineGetEligible: includes its caller's commit.
- CommandWorker.TelegramCommandQueue.DeliverReply: leaves out an authorisation that is withdrawn after the claim, because settings are fixed per run.
- CommandWorker.TelegramCommandQueue.ProcessContent: takes the answers of the metadata service and the content pipeline as given.
- CommandListener.Intake.FlushNewRequest: draws the id after the wait for another uncommitted insert of the same update, where PostgreSQL evaluates the column default before it waits for the unique index; ids may then have other gaps, and a blocked insert whose rival rolls back keeps the id it drew earlier, but the listener moves past an update only when it has a row or needs none, so the order of ids and updates is the same.
- CommandListener.TelegramCommandListener.HandleUpdate: leaves out the acknowledgment message, and an update without an integer id, which Telegram does not send.
- The URL parser and Unicode case mapping of bot names: the parser is a parameter of the intake, lower-casing is that of ASCII.
- Commands switched off while the listener runs, Shorts toggling and route switching: fixed per run.
- Fallback notifications, quota, watchdog and recovery alerts, the legacy pause circuit and `process_pending_stages`: bookkeeping beside the modelled state.
- A gateway that cannot be built while a command is processed: the claim then stays until its lease expires, which the queue's runs cover as a worker that is gone.
- Polling, channel and push endpoints, OAuth, settings and status views: they would only add easy members.
