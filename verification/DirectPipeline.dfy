/**
 The direct route as it runs (app/services/pipeline.py): methods that update the
 three stage objects and the video of one new video.
 */
module DirectPipeline {
  import opened Prelude
  import opened StagePipeline
  import FailurePolicy

  class StageRecord {
    var status: Status
    var attemptCount: int
    var nextAttemptAt: Option<real>
    const maxAttempts: int

    function Value(): Stage
      reads this
    {
      Stage(status, attemptCount, maxAttempts, nextAttemptAt)
    }

    constructor (max: int)
      ensures Value() == Stage(Pending, 0, max, None)
    {
      status, attemptCount, nextAttemptAt, maxAttempts := Pending, 0, None, max;
    }

    method RetryOrFail()
      modifies this`status
      ensures Value() == StagePipeline.RetryOrFail(old(Value()))
    {
      if attemptCount >= maxAttempts {
        status := Failed;
      } else {
        status := PendingRetry;
      }
    }

    /** `_skip_stage` */
    method Skip()
      modifies this`status
      ensures Value() == StagePipeline.Skip(old(Value()))
    {
      if status == Completed || status == Failed {
        return;
      }
      status := Skipped;
    }
  }

  class VideoRecord {
    var transcript: Option<string>
    var summary: Option<string>

    function Value(): Video
      reads this
    {
      Video(transcript, summary)
    }

    constructor (stored: Video)
      ensures Value() == stored
    {
      transcript, summary := stored.transcript, stored.summary;
    }
  }

  class PipelineService {
    const services: Services
    const transcript: StageRecord
    const summary: StageRecord
    const telegram: StageRecord
    const video: VideoRecord
    var sent: seq<string>

    ghost predicate Separate() {
      transcript != summary && transcript != telegram && summary != telegram
    }

    function Value(): Work
      reads this, transcript, summary, telegram, video
    {
      Work(transcript.Value(), summary.Value(), telegram.Value(), video.Value(), sent)
    }

    /** `create_stages_for_video` for a video without stages, whatever texts it has */
    constructor (available: Services, maxAttempts: int, stored: Video)
      requires maxAttempts >= 1
      ensures services == available && Separate() && video.Value() == stored
      ensures fresh(transcript) && fresh(summary) && fresh(telegram) && fresh(video)
      ensures WorkInv(Value()) && Remaining(Value()) == 3 * maxAttempts
    {
      services := available;
      transcript := new StageRecord(maxAttempts);
      summary := new StageRecord(maxAttempts);
      telegram := new StageRecord(maxAttempts);
      video := new VideoRecord(stored);
      sent := [];
      new;
      NewWork(Value());
    }

    method AttemptTranscriptStage(result: TranscriptResult)
      requires Separate()
      modifies transcript, video
      ensures (transcript.Value(), video.Value())
        == AttemptTranscript(old(transcript.Value()), old(video.Value()), services, result)
    {
      if transcript.status != Pending && transcript.status != PendingRetry {
        return;
      }
      if video.transcript.Some? {
        transcript.status := Completed;
        return;
      }
      if !services.transcript {
        transcript.status := Failed;
        return;
      }
      transcript.attemptCount := transcript.attemptCount + 1;
      if result.Unavailable? {
        transcript.status := Failed;
        return;
      }
      if result.Fetched? && result.text != "" {
        video.transcript := Some(result.text);
        transcript.status := Completed;
        return;
      }
      transcript.RetryOrFail();
    }

    method AttemptSummaryStage(now: real, result: SummaryResult) returns (attempted: bool)
      requires Separate()
      modifies summary, video
      ensures (summary.Value(), video.Value())
        == AttemptSummary(old(summary.Value()), old(video.Value()), services, now, result)
      ensures !attempted ==> summary.attemptCount == old(summary.attemptCount)
    {
      attempted := false;
      if summary.status != Pending && summary.status != PendingRetry {
        return;
      }
      if summary.nextAttemptAt.Some? && summary.nextAttemptAt.value > now {
        return;
      }
      if video.summary.Some? {
        summary.status := Completed;
        return;
      }
      attempted := true;
      if !services.summary || video.transcript.None? {
        summary.status := Failed;
        return;
      }
      summary.attemptCount := summary.attemptCount + 1;
      match result {
        case SummaryError(code, class_) =>
          var outcome := FailurePolicy.Classify(
            FailurePolicy.Direct, code, summary.attemptCount, summary.maxAttempts, now, class_);
          FailurePolicy.DirectRouteRetriesThenFails(code, summary.attemptCount, summary.maxAttempts, now, class_);
          summary.nextAttemptAt := outcome.retryAt;
          match outcome.disposition {
            case Terminal => summary.status := Failed;
            case Retry => summary.status := PendingRetry;
            case Quarantine => assert false;
          }
        case Summarized(text) =>
          if text != "" {
            video.summary := Some(text);
            summary.status := Completed;
            summary.nextAttemptAt := None;
          } else {
            summary.RetryOrFail();
          }
      }
    }

    method AttemptTelegramStage(result: DeliveryResult)
      requires Separate()
      modifies this`sent, telegram
      ensures var (stage, tried) := AttemptTelegram(old(telegram.Value()), video.Value(), services, result);
        && telegram.Value() == stage
        && sent == if tried && video.summary.Some? then old(sent) + [video.summary.value] else old(sent)
    {
      if telegram.status != Pending && telegram.status != PendingRetry {
        return;
      }
      if !services.telegram {
        telegram.status := Skipped;
        return;
      }
      if video.summary.None? {
        telegram.status := Failed;
        return;
      }
      telegram.attemptCount := telegram.attemptCount + 1;
      sent := sent + [video.summary.value];
      match result {
        case Delivered => telegram.status := Completed;
        case Undelivered(retryable) =>
          if !retryable {
            telegram.status := Failed;
          } else {
            telegram.RetryOrFail();
          }
        case DeliveryError => telegram.RetryOrFail();
      }
    }

    /** `process_new_video_stages` */
    method ProcessNewVideoStages(a: Answers)
      requires Separate()
      modifies this`sent, transcript, summary, telegram, video
      ensures Value() == Pass(old(Value()), services, a)
    {
      ghost var w := Value();
      AttemptTranscriptStage(a.transcript);
      assert Value() == TranscriptPass(w, services, a);
      hide AttemptTranscript, TranscriptPass;
      ghost var w1 := Value();
      if transcript.status == Completed {
        var attempted := AttemptSummaryStage(a.now, a.summary);
      } else if transcript.status == Failed {
        summary.Skip();
      }
      assert Value() == SummaryPass(w1, services, a);
      hide AttemptSummary, SummaryPass;
      ghost var w2 := Value();
      if summary.status == Completed {
        AttemptTelegramStage(a.delivery);
      } else if summary.status == Failed || summary.status == Skipped {
        telegram.Skip();
      }
      assert Value() == TelegramPass(w2, services, a);
    }

    /** Passes over the video, each made once the summary is due, until all of
        its stages have ended. */
    method Drain() returns (passes: nat)
      requires Separate() && services == ALL_SERVICES && WorkInv(Value())
      modifies this`sent, transcript, summary, telegram, video
      ensures AllEnded(Value()) && WorkInv(Value())
      ensures passes <= old(Remaining(Value()))
      ensures |sent| <= telegram.maxAttempts
    {
      passes := 0;
      while !AllEnded(Value())
        invariant WorkInv(Value())
        invariant 0 <= passes <= old(Remaining(Value())) - Remaining(Value())
        decreases Remaining(Value())
      {
        ghost var w := Value();
        var a: Answers := *;
        if summary.nextAttemptAt.Some? && a.now < summary.nextAttemptAt.value {
          a := a.(now := summary.nextAttemptAt.value);
        }
        PassProgressIff(w, a);
        PassKeepsInv(w, services, a);
        hide Pass, WorkInv;
        ProcessNewVideoStages(a);
        passes := passes + 1;
      }
    }
  }
}
