/**
 The disposition table for summary failures
 (app/services/summary_failure_policy.py) and the guard of the submission epoch
 (app/services/broker_safe_retry.py).
 */
module FailurePolicy {
  import opened Prelude
  import opened SummaryGateway

  datatype Route = Direct | Broker

  datatype Disposition = Terminal | Retry | Quarantine

  datatype Outcome = Outcome(
    failureClass: string,
    failureCode: string,
    disposition: Disposition,
    retryAt: Option<real>)

  const QUARANTINE_CODES := {
    "broker_timeout", "broker_transport_error", "broker_task_indeterminate", "broker_location_invalid"
  }

  const TERMINAL_CODES := {
    "broker_output_invalid", "broker_output_incomplete", "broker_task_failed", "broker_task_cancelled",
    "broker_task_expired", "broker_invalid_request", "broker_input_too_large", "broker_protocol_error",
    "broker_chunk_plan_invalid", "broker_location_invalid", "broker_unauthorized"
  }

  const TERMINAL_CLASSES := {
    "client_invalid", "policy_rejected", "backend_rejected", "output_invalid", "internal"
  }

  const SAFE_CLASSES := {"transient_safe", "transient_unsent"}

  function PowerOfTwo(k: int): (p: real)
    ensures p > 0.0
    decreases if k < 0 then -k else k
  {
    if k == 0 then 1.0
    else if k > 0 then 2.0 * PowerOfTwo(k - 1)
    else PowerOfTwo(k + 1) / 2.0
  }

  const BASE_DELAY_SECONDS := 30.0

  function Backoff(attemptCount: int): (delay: real)
    ensures delay > 0.0
  {
    BASE_DELAY_SECONDS * PowerOfTwo(Min(attemptCount - 1, 5))
  }

  /** Python's `o or default`. */
  function GetOr(o: Option<string>, default: string): string {
    match o case Some(s) => (if s != "" then s else default) case None => default
  }

  function Classify(
    route: Route, code: string, attemptCount: int, maxAttempts: int, now: real, brokerClass: Option<string>
  ): Outcome {
    var broker := route == Broker;
    if broker && (brokerClass == Some("indeterminate") || (brokerClass == None && code in QUARANTINE_CODES)) then
      Outcome(GetOr(brokerClass, "indeterminate"), code, Quarantine, None)
    else
      var safe := broker && brokerClass.Some? && brokerClass.value in SAFE_CLASSES;
      var terminal := (brokerClass.Some? && brokerClass.value in TERMINAL_CLASSES) || code in TERMINAL_CODES;
      if !safe && broker && terminal then
        Outcome(GetOr(brokerClass, "permanent"), code, Terminal, None)
      else if !safe && broker && brokerClass.Some? then
        Outcome(brokerClass.value, code, Quarantine, None)
      else
        var class_ := if broker then GetOr(brokerClass, "transient") else "transient";
        if attemptCount >= Max(1, maxAttempts) then Outcome(class_, code, Terminal, None)
        else Outcome(class_, code, Retry, Some(now + Backoff(attemptCount)))
  }

  /** Typed facts only; the current task must be the one that failed. */
  predicate CanAdvanceEpoch(
    terminalConfirmed: bool, task: Option<TaskId>, currentTask: Option<TaskId>,
    failureClass: string, attemptCount: int, maxAttempts: int, epoch: int
  ) {
    && terminalConfirmed
    && task.Some?
    && task == currentTask
    && failureClass in SAFE_CLASSES
    && attemptCount < maxAttempts
    && epoch < maxAttempts
  }

  // -------------------------------------------------------- what it amounts to

  /** The seconds before the second, third, ... attempt. */
  function RetryWait(attemptCount: int): real
    requires attemptCount >= 1
  {
    if attemptCount == 1 then 30.0
    else if attemptCount == 2 then 60.0
    else if attemptCount == 3 then 120.0
    else if attemptCount == 4 then 240.0
    else if attemptCount == 5 then 480.0
    else 960.0
  }

  /** The delay doubles with every attempt, up to the sixth. */
  lemma BackoffTable(n: int)
    requires n >= 1
    ensures Backoff(n) == RetryWait(n)
  {
    assert PowerOfTwo(2) == 4.0 && PowerOfTwo(3) == 8.0 && PowerOfTwo(4) == 16.0;
  }

  /** The direct route retries until the attempts run out and never quarantines. */
  lemma DirectRouteRetriesThenFails(code: string, attemptCount: int, maxAttempts: int, now: real, c: Option<string>)
    ensures var o := Classify(Direct, code, attemptCount, maxAttempts, now, c);
      && o.disposition != Quarantine
      && (o.disposition == Terminal <==> attemptCount >= Max(1, maxAttempts))
      && (o.disposition == Terminal <==> o.retryAt.None?)
      && (o.disposition == Retry && attemptCount >= 1 ==> o.retryAt == Some(now + RetryWait(attemptCount)))
      && o.failureCode == code
      && o.failureClass == "transient"
  {
    if attemptCount >= 1 {
      BackoffTable(attemptCount);
    }
    hide Backoff;
  }

  /** On the broker route a retry needs a class the broker itself declared safe,
      or an unclassified code outside both tables, and attempts left; it comes
      after the backoff. */
  lemma BrokerRetryIff(code: string, attemptCount: int, maxAttempts: int, now: real, c: Option<string>)
    ensures Classify(Broker, code, attemptCount, maxAttempts, now, c).disposition == Retry <==>
      (&& attemptCount < Max(1, maxAttempts)
       && match c
          case Some(class_) => class_ in SAFE_CLASSES
          case None => code !in QUARANTINE_CODES && code !in TERMINAL_CODES)
    ensures var o := Classify(Broker, code, attemptCount, maxAttempts, now, c);
      && o.failureCode == code
      && (o.disposition != Retry ==> o.retryAt.None?)
      && (o.disposition == Retry && attemptCount >= 1 ==> o.retryAt == Some(now + RetryWait(attemptCount)))
  {
    if attemptCount >= 1 {
      BackoffTable(attemptCount);
    }
    hide Backoff;
  }

  lemma {:induction false} PowerOfTwoMonotone(j: int, k: int)
    requires 0 <= j <= k
    ensures 1.0 <= PowerOfTwo(j) <= PowerOfTwo(k)
    decreases k
  {
    if j < k {
      PowerOfTwoMonotone(j, k - 1);
    } else if k > 0 {
      PowerOfTwoMonotone(k - 1, k - 1);
    }
  }

  /** Retries are between 30 and 960 seconds away, and never sooner after more
      attempts. */
  lemma BackoffBounds(m: int, n: int)
    requires 1 <= m <= n
    ensures 30.0 <= Backoff(m) <= Backoff(n) <= 960.0
  {
    PowerOfTwoMonotone(Min(m - 1, 5), Min(n - 1, 5));
    PowerOfTwoMonotone(Min(n - 1, 5), 5);
    assert PowerOfTwo(5) == 32.0 by {
      assert PowerOfTwo(3) == 8.0;
    }
  }
}
