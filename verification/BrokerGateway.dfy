/**
 One POST or one GET against the broker: which results and which errors the
 pipeline can see (app/services/broker_gateway.py, app/services/broker_traffic.py).

 Transport and HTTP parsing are left to the environment, which picks one of the
 replies below; everything after that is decided here.
 */
module BrokerGateway {
  import opened Prelude
  import opened SummaryGateway
  import SummaryOutput

  datatype BrokerError = BrokerError(
    code: string,
    failureClass: Option<string>,
    brokerCode: Option<string>,
    taskId: Option<TaskId>)

  function Plain(code: string): BrokerError {
    BrokerError(code, None, None, None)
  }

  function WithTask(code: string, task: TaskId): BrokerError {
    BrokerError(code, None, None, Some(task))
  }

  datatype AcceptedTask = AcceptedTask(taskId: TaskId, key: Key)

  function ProblemCode(problem: Option<string>): string {
    match problem
    case Some("unauthorized") => "broker_unauthorized"
    case Some("invalid_request") => "broker_invalid_request"
    case Some("unprocessable") => "broker_invalid_request"
    case _ => "broker_protocol_error"
  }

  // ------------------------------------------------------------------ POST

  datatype PostReply =
    | RequestTooLarge
    | DeadlineBeforePost
    | PostTransportFailed
    | DeadlineAfterPost
    | PostUnexpected
    | PostAnswered(httpStatus: int, location: Option<TaskId>, envelopeValid: bool, problem: Option<string>)

  /** Whether the request may have reached the broker. */
  predicate Sent(reply: PostReply) {
    !reply.RequestTooLarge? && !reply.DeadlineBeforePost?
  }

  function SubmitTask(reply: PostReply, key: Key): Result<AcceptedTask, BrokerError> {
    match reply
    case RequestTooLarge => Err(Plain("broker_input_too_large"))
    case DeadlineBeforePost => Err(Plain("broker_timeout"))
    case PostTransportFailed => Err(Plain("broker_transport_error"))
    case DeadlineAfterPost => Err(Plain("broker_timeout"))
    case PostUnexpected => Err(Plain("broker_task_indeterminate"))
    case PostAnswered(httpStatus, location, envelopeValid, problem) =>
      if httpStatus == 200 then
        // An asynchronous submission must not be answered synchronously.
        match location
        case None => Err(Plain("broker_location_invalid"))
        case Some(task) => Err(WithTask("broker_protocol_error", task))
      else if httpStatus != 201 && httpStatus != 202 then Err(Plain(ProblemCode(problem)))
      else
        match location
        case None => Err(Plain("broker_location_invalid"))
        case Some(task) =>
          if envelopeValid then Ok(AcceptedTask(task, key)) else Err(WithTask("broker_protocol_error", task))
  }

  // ------------------------------------------------------------------- GET

  datatype ResultBody =
    | Malformed
    | StillPending
    | Succeeded(envelopeValid: bool, finishReason: string, content: string)
    | TaskFailed(failureClass: string, brokerCode: string, message: string)
    | TaskCancelled
    | TaskExpired

  datatype GetReply =
    | GetTransportFailed
    | GetUnexpected
    | GetAnswered(httpStatus: int, body: ResultBody, problem: Option<string>)

  predicate ClassChar(c: char) {
    'a' <= c <= 'z' || '0' <= c <= '9'
  }

  /** `[a-z0-9][a-z0-9_.-]{0,63}` */
  predicate WellFormedClass(s: string) {
    1 <= |s| <= 64 && ClassChar(s[0]) && forall i :: 0 <= i < |s| ==> ClassChar(s[i]) || s[i] in "_.-"
  }

  function Validated(partial: bool, content: string): (r: Option<string>) {
    if partial then SummaryOutput.ValidateBrokerPartialOutput(content)
    else SummaryOutput.ValidateBrokerOutput(content)
  }

  /** One result poll: a validated text, nothing yet, or an error. */
  function PollTask(reply: GetReply, task: TaskId, partial: bool): Result<Option<string>, BrokerError> {
    match reply
    case GetTransportFailed => Err(WithTask("broker_transport_error", task))
    case GetUnexpected => Err(WithTask("broker_task_indeterminate", task))
    case GetAnswered(httpStatus, body, problem) =>
      if httpStatus != 200 then Err(WithTask(ProblemCode(problem), task))
      else
        match body
        case Malformed => Err(WithTask("broker_protocol_error", task))
        case StillPending => Ok(None)
        case Succeeded(envelopeValid, finishReason, content) =>
          if !envelopeValid then Err(WithTask("broker_protocol_error", task))
          else if finishReason != "stop" then
            Err(Plain(if finishReason == "length" then "broker_output_incomplete" else "broker_output_invalid"))
          else
            (match Validated(partial, content)
             case None => Err(Plain("broker_output_invalid"))
             case Some(text) => Ok(Some(text)))
        case TaskFailed(class_, brokerCode, message) =>
          if !WellFormedClass(class_) || brokerCode == "" || message == "" then
            Err(WithTask("broker_protocol_error", task))
          else Err(BrokerError("broker_task_failed", Some(class_), Some(brokerCode), Some(task)))
        case TaskCancelled =>
          Err(BrokerError("broker_task_cancelled", Some("terminal"), Some("task_cancelled"), Some(task)))
        case TaskExpired => Err(BrokerError("broker_task_expired", Some("terminal"), Some("task_expired"), Some(task)))
  }

  /** The reconciler's GET differs in one case: an unexpected exception is not
      wrapped, so it has no code at all. */
  function ReconcileTask(reply: GetReply, task: TaskId, partial: bool): Result<Option<string>, Option<BrokerError>> {
    if reply.GetUnexpected? then Err(None)
    else
      match PollTask(reply, task, partial)
      case Ok(text) => Ok(text)
      case Err(e) => Err(Some(e))
  }

  // ------------------------------------------------ which errors can arise

  /** Codes that arrive without a failure class. */
  const UNCLASSIFIED := {
    "broker_input_too_large", "broker_timeout", "broker_transport_error", "broker_task_indeterminate",
    "broker_location_invalid", "broker_protocol_error", "broker_unauthorized", "broker_invalid_request",
    "broker_output_incomplete", "broker_output_invalid"
  }

  /** The code, class and task combinations that a request about `task` can
      end in: a class is only ever reported together with a terminal task, and
      only a failed task carries the broker's own class. */
  predicate Possible(err: BrokerError, task: Option<TaskId>) {
    && (task.Some? && err.taskId.Some? ==> err.taskId == task)
    && (match err.failureClass
        case None => err.brokerCode.None? && err.code in UNCLASSIFIED
        case Some(class_) =>
          && task.Some?
          && err.taskId == task
          && (err.code == "broker_task_failed" || class_ == "terminal"))
  }

  lemma SubmitErrors(reply: PostReply, key: Key)
    requires SubmitTask(reply, key).Err?
    ensures Possible(SubmitTask(reply, key).error, None)
  {
  }

  lemma PollErrors(reply: GetReply, task: TaskId, partial: bool)
    requires PollTask(reply, task, partial).Err?
    ensures Possible(PollTask(reply, task, partial).error, Some(task))
  {
  }

  lemma PolledText(reply: GetReply, task: TaskId, partial: bool)
    requires PollTask(reply, task, partial).Ok? && PollTask(reply, task, partial).value.Some?
    ensures PollTask(reply, task, partial).value.value != ""
  {
    SummaryOutput.ValidatedHasText(reply.body.content);
  }

  /** The accepted handle names the key that was sent. */
  lemma AcceptedKey(reply: PostReply, key: Key)
    requires SubmitTask(reply, key).Ok?
    ensures SubmitTask(reply, key).value.key == key && Sent(reply)
  {
  }
}
