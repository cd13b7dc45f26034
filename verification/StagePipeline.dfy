/**
 The three stages of a new video on the direct route (app/services/pipeline.py):
 transcript, summary, Telegram notification, each retried on later passes.

 Shorts processing is enabled for the whole run.  What the services answer is
 the environment's choice.
 */
module StagePipeline {
  import opened Prelude
  import FailurePolicy

  datatype Status = Pending | PendingRetry | Completed | Failed | Skipped

  datatype Stage = Stage(status: Status, attemptCount: int, maxAttempts: int, nextAttemptAt: Option<real>)

  datatype Video = Video(transcript: Option<string>, summary: Option<string>)

  /** Which services are configured. */
  datatype Services = Services(transcript: bool, summary: bool, telegram: bool)

  datatype TranscriptResult = Unavailable | Fetched(text: string) | FetchFailed

  datatype SummaryResult = Summarized(text: string) | SummaryError(code: string, failureClass: Option<string>)

  datatype DeliveryResult = Delivered | Undelivered(retryable: bool) | DeliveryError

  /** One pass's readings: the time and what each service would answer. */
  datatype Answers = Answers(now: real, transcript: TranscriptResult, summary: SummaryResult, delivery: DeliveryResult)

  /** A video's stages, its texts, and the texts that were sent about it. */
  datatype Work = Work(transcript: Stage, summary: Stage, telegram: Stage, video: Video, sent: seq<string>)

  predicate Live(s: Stage) {
    s.status == Pending || s.status == PendingRetry
  }

  function Counted(s: Stage): Stage {
    s.(attemptCount := s.attemptCount + 1)
  }

  /** After a failed attempt: again, or not. */
  function RetryOrFail(s: Stage): Stage {
    s.(status := if s.attemptCount >= s.maxAttempts then Failed else PendingRetry)
  }

  /** `_attempt_transcript_stage` */
  function AttemptTranscript(s: Stage, v: Video, services: Services, result: TranscriptResult): (Stage, Video) {
    if !Live(s) then (s, v)
    else if v.transcript.Some? then (s.(status := Completed), v)
    else if !services.transcript then (s.(status := Failed), v)
    else
      match result
      case Unavailable => (Counted(s).(status := Failed), v)
      case FetchFailed => (RetryOrFail(Counted(s)), v)
      case Fetched(text) =>
        if text == "" then (RetryOrFail(Counted(s)), v)
        else (Counted(s).(status := Completed), v.(transcript := Some(text)))
  }

  predicate SummaryDue(s: Stage, now: real) {
    s.nextAttemptAt.Some? ==> s.nextAttemptAt.value <= now
  }

  /** `_attempt_summary_stage` with the direct route */
  function AttemptSummary(s: Stage, v: Video, services: Services, now: real, result: SummaryResult): (Stage, Video) {
    if !Live(s) || !SummaryDue(s, now) then (s, v)
    else if v.summary.Some? then (s.(status := Completed), v)
    else if !services.summary || v.transcript.None? then (s.(status := Failed), v)
    else
      match result
      case Summarized(text) =>
        if text == "" then (RetryOrFail(Counted(s)), v)
        else (Counted(s).(status := Completed, nextAttemptAt := None), v.(summary := Some(text)))
      case SummaryError(code, class_) =>
        var outcome := FailurePolicy.Classify(
          FailurePolicy.Direct, code, s.attemptCount + 1, s.maxAttempts, now, class_);
        (Counted(s).(nextAttemptAt := outcome.retryAt,
                     status := if outcome.disposition == FailurePolicy.Terminal then Failed else PendingRetry), v)
  }

  /** `_attempt_telegram_stage`; the second part says whether a send was tried. */
  function AttemptTelegram(s: Stage, v: Video, services: Services, result: DeliveryResult): (Stage, bool) {
    if !Live(s) then (s, false)
    else if !services.telegram then (s.(status := Skipped), false)
    else if v.summary.None? then (s.(status := Failed), false)
    else
      match result
      case Delivered => (Counted(s).(status := Completed), true)
      case Undelivered(retryable) =>
        ((if retryable then RetryOrFail(Counted(s)) else Counted(s).(status := Failed)), true)
      case DeliveryError => (RetryOrFail(Counted(s)), true)
  }

  /** `_skip_stage` */
  function Skip(s: Stage): Stage {
    if s.status == Completed || s.status == Failed then s else s.(status := Skipped)
  }

  // -------------------------------------------------------------- one pass

  function TranscriptPass(w: Work, services: Services, a: Answers): Work {
    var (stage, video) := AttemptTranscript(w.transcript, w.video, services, a.transcript);
    w.(transcript := stage, video := video)
  }

  function SummaryPass(w: Work, services: Services, a: Answers): Work {
    if w.transcript.status == Completed then
      var (stage, video) := AttemptSummary(w.summary, w.video, services, a.now, a.summary);
      w.(summary := stage, video := video)
    else if w.transcript.status == Failed then w.(summary := Skip(w.summary))
    else w
  }

  function TelegramPass(w: Work, services: Services, a: Answers): Work {
    if w.summary.status == Completed then
      var (stage, tried) := AttemptTelegram(w.telegram, w.video, services, a.delivery);
      w.(telegram := stage,
         sent := if tried && w.video.summary.Some? then w.sent + [w.video.summary.value] else w.sent)
    else if w.summary.status == Failed || w.summary.status == Skipped then w.(telegram := Skip(w.telegram))
    else w
  }

  /** `process_new_video_stages` */
  function Pass(w: Work, services: Services, a: Answers): Work {
    TelegramPass(SummaryPass(TranscriptPass(w, services, a), services, a), services, a)
  }

  // ------------------------------------------------------------ invariants

  predicate StageInv(s: Stage) {
    s.maxAttempts >= 1 && 0 <= s.attemptCount <= s.maxAttempts && (Live(s) ==> s.attemptCount < s.maxAttempts)
  }

  /** A stage ends only after the stages before it. */
  predicate WorkInv(w: Work) {
    && StageInv(w.transcript) && StageInv(w.summary) && StageInv(w.telegram)
    && w.transcript.status != Skipped
    && (Live(w.transcript) ==> Live(w.summary) && w.summary.nextAttemptAt.None?)
    && (Live(w.summary) ==> Live(w.telegram))
    && (w.transcript.status == Completed ==> w.video.transcript.Some?)
    && (w.summary.status == Completed ==> w.video.summary.Some? && w.transcript.status == Completed)
    && (w.summary.status != Completed ==> w.telegram.attemptCount == 0)
    && |w.sent| == w.telegram.attemptCount
    && (forall i :: 0 <= i < |w.sent| ==> w.video.summary == Some(w.sent[i]))
  }

  const ALL_SERVICES := Services(true, true, true)

  predicate NewStage(s: Stage) {
    s.status == Pending && s.attemptCount == 0 && s.maxAttempts >= 1 && s.nextAttemptAt.None?
  }

  lemma NewWork(w: Work)
    requires NewStage(w.transcript) && NewStage(w.summary) && NewStage(w.telegram)
    requires w.sent == []
    ensures WorkInv(w)
  {
  }

  lemma SummaryAttemptKeeps(s: Stage, v: Video, services: Services, now: real, result: SummaryResult)
    requires StageInv(s)
    ensures var (after, video) := AttemptSummary(s, v, services, now, result);
      && StageInv(after)
      && (after.status != Skipped || after == s)
      && video.transcript == v.transcript
      && (v.summary.Some? ==> video == v)
      && (after.status == Completed && s.status != Completed ==> video.summary.Some?)
      && (video != v ==> after.status == Completed)
      && (Live(s) && SummaryDue(s, now) ==> !Live(after) || after.attemptCount == s.attemptCount + 1)
      && (!Live(s) || !SummaryDue(s, now) ==> after == s && video == v)
  {
    hide FailurePolicy.Backoff;
  }

  /** Every pass keeps the stages in order, whatever services there are. */
  lemma PassKeepsInv(w: Work, services: Services, a: Answers)
    requires WorkInv(w)
    ensures WorkInv(Pass(w, services, a))
  {
    var w1 := TranscriptPass(w, services, a);
    assert WorkInv(w1);
    SummaryPassKeepsInv(w1, services, a);
    hide SummaryPass;
    TelegramPassKeepsInv(SummaryPass(w1, services, a), services, a);
  }

  lemma SummaryPassKeepsInv(w: Work, services: Services, a: Answers)
    requires WorkInv(w)
    ensures WorkInv(SummaryPass(w, services, a))
  {
    SummaryAttemptKeeps(w.summary, w.video, services, a.now, a.summary);
    hide AttemptSummary;
  }

  lemma TelegramPassKeepsInv(w: Work, services: Services, a: Answers)
    requires WorkInv(w)
    ensures WorkInv(TelegramPass(w, services, a))
  {
  }

  // ----------------------------------------------------------- termination

  function Weight(s: Stage): int {
    if Live(s) then s.maxAttempts - s.attemptCount else 0
  }

  /** The attempts that are left to the stages that have not ended. */
  function Remaining(w: Work): int {
    Weight(w.transcript) + Weight(w.summary) + Weight(w.telegram)
  }

  predicate AllEnded(w: Work) {
    !Live(w.transcript) && !Live(w.summary) && !Live(w.telegram)
  }

  /** The summary waits for its next attempt. */
  predicate Blocked(w: Work, now: real) {
    w.transcript.status == Completed && Live(w.summary) && !SummaryDue(w.summary, now)
  }

  /** With all services present, a pass uses up attempts unless everything has
      ended or the summary is not due, and then it changes nothing. */
  lemma PassProgressIff(w: Work, a: Answers)
    requires WorkInv(w)
    ensures 0 <= Remaining(Pass(w, ALL_SERVICES, a)) <= Remaining(w)
    ensures Remaining(Pass(w, ALL_SERVICES, a)) < Remaining(w) <==> !AllEnded(w) && !Blocked(w, a.now)
    ensures AllEnded(w) || Blocked(w, a.now) ==> Pass(w, ALL_SERVICES, a) == w
  {
    PassKeepsInv(w, ALL_SERVICES, a);
    var w1 := TranscriptPass(w, ALL_SERVICES, a);
    SummaryAttemptKeeps(w1.summary, w1.video, ALL_SERVICES, a.now, a.summary);
    hide AttemptSummary;
  }

  function Passes(w: Work, services: Services, answers: seq<Answers>): Work
    decreases |answers|
  {
    if answers == [] then w else Passes(Pass(w, services, answers[0]), services, answers[1..])
  }

  /** No pass finds the summary waiting. */
  predicate AlwaysDue(w: Work, answers: seq<Answers>)
    decreases |answers|
  {
    answers == [] || (!Blocked(w, answers[0].now) && AlwaysDue(Pass(w, ALL_SERVICES, answers[0]), answers[1..]))
  }

  /** All three stages end within their attempts taken together. */
  lemma {:induction false} EndsWithinAttempts(w: Work, answers: seq<Answers>)
    requires WorkInv(w) && AlwaysDue(w, answers) && |answers| >= Remaining(w)
    ensures AllEnded(Passes(w, ALL_SERVICES, answers))
    decreases |answers|
  {
    if answers == [] {
      assert AllEnded(w);
    } else {
      PassProgressIff(w, answers[0]);
      PassKeepsInv(w, ALL_SERVICES, answers[0]);
      hide Pass, WorkInv;
      if AllEnded(w) {
        assert Remaining(w) == 0;
      }
      EndsWithinAttempts(Pass(w, ALL_SERVICES, answers[0]), answers[1..]);
    }
  }

  // ---------------------------------------------------------------- safety

  predicate Final(s: Stage) {
    s.status == Completed || s.status == Failed
  }

  /** Completed and failed stages never change, and a stored summary stays. */
  lemma EndedStagesStay(w: Work, services: Services, a: Answers)
    requires WorkInv(w)
    ensures var after := Pass(w, services, a);
      && (Final(w.transcript) ==> after.transcript == w.transcript)
      && (Final(w.summary) ==> after.summary == w.summary)
      && (Final(w.telegram) ==> after.telegram == w.telegram)
      && (w.video.summary.Some? ==> after.video.summary == w.video.summary)
      && w.sent <= after.sent
  {
    var w1 := TranscriptPass(w, services, a);
    SummaryAttemptKeeps(w1.summary, w1.video, services, a.now, a.summary);
    hide AttemptSummary;
  }

  /** A notification is only sent about a completed summary, carries that
      summary, and there is at most one in a pass. */
  lemma SentAfterSummary(w: Work, services: Services, a: Answers)
    requires WorkInv(w)
    ensures var after := Pass(w, services, a);
      after.sent != w.sent ==>
        && after.summary.status == Completed
        && after.video.summary.Some?
        && after.sent == w.sent + [after.video.summary.value]
  {
    hide AttemptSummary, AttemptTranscript;
  }

  lemma {:induction false} PassesKeepInv(w: Work, services: Services, answers: seq<Answers>)
    requires WorkInv(w)
    ensures WorkInv(Passes(w, services, answers))
    ensures Passes(w, services, answers).telegram.maxAttempts == w.telegram.maxAttempts
    decreases |answers|
  {
    if answers != [] {
      PassKeepsInv(w, services, answers[0]);
      hide WorkInv, AttemptTranscript, AttemptSummary;
      PassesKeepInv(Pass(w, services, answers[0]), services, answers[1..]);
    }
  }

  /** Over all passes, no more notifications than the Telegram stage has
      attempts, and all of them carry the one summary. */
  lemma NotificationsBounded(w: Work, services: Services, answers: seq<Answers>)
    requires WorkInv(w)
    ensures var end := Passes(w, services, answers);
      && |end.sent| <= w.telegram.maxAttempts
      && forall i :: 0 <= i < |end.sent| ==> end.video.summary == Some(end.sent[i])
  {
    PassesKeepInv(w, services, answers);
  }

  // ------------------------------------------------- what the answers do

  /** The last attempt that the stage has. */
  predicate LastAttempt(s: Stage) {
    s.attemptCount + 1 >= s.maxAttempts
  }

  /** The transcript stage completes exactly with a text stored or fetched; it
      fails without a service, for a video that has none, and after its last
      attempt; and a video's transcript is only ever what was fetched for it. */
  lemma TranscriptAnswers(w: Work, services: Services, a: Answers)
    requires Live(w.transcript)
    ensures var after := Pass(w, services, a);
      var fetched := services.transcript && a.transcript.Fetched? && a.transcript.text != "";
      && (after.transcript.status == Completed <==> w.video.transcript.Some? || fetched)
      && (after.transcript.status == Failed <==>
            && w.video.transcript.None?
            && !fetched
            && (!services.transcript || a.transcript.Unavailable? || LastAttempt(w.transcript)))
      && (Live(after.transcript) ==> after.transcript.status == PendingRetry)
      && after.transcript.attemptCount
         == w.transcript.attemptCount + (if w.video.transcript.None? && services.transcript then 1 else 0)
      && after.video.transcript
         == (if w.video.transcript.Some? then w.video.transcript else if fetched then Some(a.transcript.text) else None)
  {
    hide AttemptSummary, AttemptTelegram;
    TranscriptIsFirst(w, services, a);
  }

  /** The later stages of a pass leave the transcript and its stage alone. */
  lemma TranscriptIsFirst(w: Work, services: Services, a: Answers)
    ensures var after, first := Pass(w, services, a), TranscriptPass(w, services, a);
      after.transcript == first.transcript && after.video.transcript == first.video.transcript
  {
    var w1 := TranscriptPass(w, services, a);
    hide TranscriptPass, AttemptTelegram;
    SummaryKeepsTranscript(w1.summary, w1.video, services, a);
    hide AttemptSummary;
  }

  lemma SummaryKeepsTranscript(s: Stage, v: Video, services: Services, a: Answers)
    ensures AttemptSummary(s, v, services, a.now, a.summary).1.transcript == v.transcript
  {
  }

  /** A due summary stage, its transcript being there, completes exactly with a
      summary stored or generated, and the video's summary is then that text; a
      failed try is repeated after the backoff, and fails as the last one. */
  lemma SummaryAnswers(w: Work, services: Services, a: Answers)
    requires WorkInv(w) && w.transcript.status == Completed && Live(w.summary) && SummaryDue(w.summary, a.now)
    ensures var after := Pass(w, services, a);
      var generated := services.summary && a.summary.Summarized? && a.summary.text != "";
      && (after.summary.status == Completed <==> w.video.summary.Some? || generated)
      && (after.summary.status == Failed <==>
            w.video.summary.None? && !generated && (!services.summary || LastAttempt(w.summary)))
      && after.summary.attemptCount
         == w.summary.attemptCount + (if w.video.summary.None? && services.summary then 1 else 0)
      && (after.summary.status == PendingRetry && a.summary.SummaryError? ==>
            after.summary.nextAttemptAt == Some(a.now + FailurePolicy.RetryWait(after.summary.attemptCount)))
      && after.video.summary
         == (if w.video.summary.Some? then w.video.summary else if generated then Some(a.summary.text) else None)
  {
    if a.summary.SummaryError? {
      FailurePolicy.DirectRouteRetriesThenFails(
        a.summary.code, w.summary.attemptCount + 1, w.summary.maxAttempts, a.now, a.summary.failureClass);
    }
    hide FailurePolicy.Classify, FailurePolicy.RetryWait, AttemptTelegram;
  }

  /** A summary stage waits for its transcript and is skipped without one. */
  lemma SummaryFollowsTranscript(w: Work, services: Services, a: Answers)
    requires WorkInv(w) && Live(w.summary)
    ensures var after := Pass(w, services, a);
      && (after.transcript.status == Failed ==> after.summary == w.summary.(status := Skipped))
      && (Live(after.transcript) ==> after.summary == w.summary)
      && (after.transcript.status != Completed ==> after.video.summary == w.video.summary)
  {
    hide AttemptSummary, AttemptTelegram;
  }

  /** The notification is sent exactly after a completed summary with a service;
      what Telegram answers decides whether it is done, repeated or given up. */
  lemma TelegramAnswers(w: Work, services: Services, a: Answers)
    requires WorkInv(w) && Live(w.telegram)
    ensures var after := Pass(w, services, a);
      var sends := after.summary.status == Completed && services.telegram;
      && (after.sent == if sends then w.sent + [after.video.summary.value] else w.sent)
      && after.telegram.attemptCount == w.telegram.attemptCount + (if sends then 1 else 0)
      && (after.telegram.status == Completed <==> sends && a.delivery.Delivered?)
      && (after.telegram.status == Failed <==>
            && sends
            && !a.delivery.Delivered?
            && (LastAttempt(w.telegram) || a.delivery == Undelivered(false)))
      && (after.telegram.status == Skipped <==>
            || (after.summary.status == Completed && !services.telegram)
            || after.summary.status == Failed
            || after.summary.status == Skipped)
      && (Live(after.summary) ==> after.telegram == w.telegram)
  {
    PassKeepsInv(w, services, a);
    hide AttemptSummary, AttemptTranscript;
  }
}
