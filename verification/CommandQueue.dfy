/**
 The Telegram command queue (app/services/telegram_command_queue.py and
 app/models/telegram_command_request.py) as a machine over its table: the claim
 transaction, the fenced writes of the claimed workers, and crashes.

 Workers run interleaved and may stall for any time between two of their steps.
 The wall-clock readings are free, so nothing here relies on a clock.
 */
module CommandQueue {
  import opened Prelude

  datatype Status = Pending | Processing | PendingRetry | Completed | Failed | Rejected

  datatype ReplyStatus = ReplyPending | Sending | ReplyPendingRetry | Sent | ReplyFailed | Suppressed

  /** Fresh for every claim: the position of the claim among all claims. */
  type Token = nat

  /** `authorized` says whether user and chat are the configured ones. */
  datatype Request = Request(
    createdAt: real,
    authorized: bool,
    videoId: Option<string>,
    status: Status,
    attemptCount: int,
    maxAttempts: int,
    nextAttemptAt: Option<real>,
    leaseToken: Option<Token>,
    leaseExpiresAt: Option<real>,
    lastError: Option<string>,
    replyStatus: ReplyStatus,
    replyAttemptCount: int,
    replyMaxAttempts: int,
    replyNextAttemptAt: Option<real>)

  type Table = map<int, Request>

  datatype Kind = ProcessingKind | ReplyKind

  const LEASE_SECONDS := 3600.0
  const LEADER_DELAY_SECONDS := 30.0
  const RETRY_DELAYS := [30.0, 120.0, 600.0]

  const LEASE_EXPIRED := "Previous command processing lease expired."
  const EXHAUSTED := "Command processing attempts were exhausted."
  const UNAUTHORIZED := "Telegram command authorization changed."
  const WAITING_FOR_LEADER := "Waiting for shared video content processing."

  predicate Terminal(r: Request) {
    r.status == Completed || r.status == Failed || r.status == Rejected
  }

  predicate Live(r: Request) {
    !Terminal(r)
  }

  function RetryDelay(attemptCount: int): real {
    RETRY_DELAYS[Min(Max(attemptCount - 1, 0), |RETRY_DELAYS| - 1)]
  }

  // ------------------------------------------------------------ selection

  predicate NotAfter(at: Option<real>, now: real) {
    at.Some? ==> at.value <= now
  }

  predicate ProcessingDue(r: Request, now: real) {
    r.status == Pending || (r.status == PendingRetry && NotAfter(r.nextAttemptAt, now))
  }

  predicate ReplyWaiting(r: Request) {
    r.replyStatus == ReplyPending || r.replyStatus == ReplyPendingRetry
  }

  predicate ReplyDue(r: Request, now: real) {
    Terminal(r) && ReplyWaiting(r) && NotAfter(r.replyNextAttemptAt, now)
  }

  predicate Due(r: Request, now: real) {
    ProcessingDue(r, now) || ReplyDue(r, now)
  }

  /** The order by creation time, then id. */
  predicate Before(rows: Table, i: int, j: int)
    requires i in rows && j in rows
  {
    rows[i].createdAt < rows[j].createdAt || (rows[i].createdAt == rows[j].createdAt && i <= j)
  }

  predicate IsCandidate(rows: Table, now: real, c: int) {
    c in rows && Due(rows[c], now) && forall i <- rows :: Due(rows[i], now) ==> Before(rows, c, i)
  }

  predicate HasVideo(r: Request) {
    r.videoId.Some? && r.videoId.value != ""
  }

  predicate OlderLive(rows: Table, i: int, c: int)
    requires i in rows && c in rows
  {
    i < c && HasVideo(rows[c]) && rows[i].videoId == rows[c].videoId && Live(rows[i])
  }

  /** The oldest live request for the same video, if it is not `c` itself. */
  predicate IsLeader(rows: Table, c: int, leader: Option<int>)
    requires c in rows
  {
    match leader
    case None => forall i <- rows :: !OlderLive(rows, i, c)
    case Some(l) => l in rows && OlderLive(rows, l, c) && forall i <- rows :: OlderLive(rows, i, c) ==> l <= i
  }

  // ------------------------------------------------- the claim transaction

  predicate LeaseExpired(r: Request, now: real) {
    r.leaseExpiresAt.Some? && r.leaseExpiresAt.value < now
  }

  /** `_recover_stale_claims` at one row */
  function RecoverRow(r: Request, now: real): Request {
    if r.status == Processing && LeaseExpired(r, now) then
      r.(status := PendingRetry, nextAttemptAt := Some(now), leaseExpiresAt := None, leaseToken := None,
         lastError := Some(LEASE_EXPIRED))
    else if r.replyStatus == Sending && LeaseExpired(r, now) then
      r.(replyStatus := ReplyPendingRetry, replyNextAttemptAt := Some(now), leaseExpiresAt := None, leaseToken := None)
    else r
  }

  /** `_terminalize_exhausted_requests` at one row */
  function TerminalizeRow(r: Request): Request {
    if (r.status == Pending || r.status == PendingRetry) && r.attemptCount >= r.maxAttempts then
      r.(status := Failed, nextAttemptAt := None, lastError := Some(EXHAUSTED))
    else if Terminal(r) && ReplyWaiting(r) && r.replyAttemptCount >= r.replyMaxAttempts then
      r.(replyStatus := ReplyFailed, replyNextAttemptAt := None)
    else r
  }

  function SweepRow(r: Request, now: real): Request {
    TerminalizeRow(RecoverRow(r, now))
  }

  function Sweep(rows: Table, now: real): (swept: Table)
    ensures swept.Keys == rows.Keys
  {
    map i | i in rows :: SweepRow(rows[i], now)
  }

  /** `_suppress_unauthorized_request` */
  function SuppressRow(r: Request): Request {
    var rejected := if Terminal(r) then r else r.(status := Rejected, lastError := Some(UNAUTHORIZED));
    rejected.(replyStatus := Suppressed, leaseExpiresAt := None, leaseToken := None)
  }

  function DeferRow(r: Request, leader: Request, now: real): Request {
    var retryAt := now + LEADER_DELAY_SECONDS;
    r.(status := PendingRetry, lastError := Some(WAITING_FOR_LEADER),
       nextAttemptAt := Some(match leader.nextAttemptAt
                             case Some(at) => if at >= retryAt then at else retryAt
                             case None => retryAt))
  }

  /** `_claim` */
  function ClaimRow(r: Request, kind: Kind, token: Token, now: real): Request {
    var leased := r.(leaseToken := Some(token), leaseExpiresAt := Some(now + LEASE_SECONDS));
    match kind
    case ProcessingKind => leased.(status := Processing, nextAttemptAt := None)
    case ReplyKind =>
      leased.(replyStatus := Sending, replyAttemptCount := r.replyAttemptCount + 1, replyNextAttemptAt := None)
  }

  // -------------------------------------------------------- fenced writes

  /** `_conditional_update`: the values land only under the row's own token. */
  function FinishRow(
    r: Request, token: Token, status: Status, error: Option<string>, at: real, delay: Option<real>, refund: bool
  ): Request {
    if r.leaseToken != Some(token) then r
    else
      r.(status := status, lastError := error,
         nextAttemptAt := if status == PendingRetry && delay.Some? then Some(at + delay.value) else None,
         attemptCount := if refund then Max(0, r.attemptCount - 1) else r.attemptCount,
         leaseExpiresAt := None, leaseToken := None)
  }

  /** `_increment_metadata_attempt` changes the row under its own token only. */
  predicate MayCount(r: Request, token: Token) {
    r.leaseToken == Some(token) && r.attemptCount < r.maxAttempts
  }

  datatype SendResult = Delivered | Undelivered(retryable: bool, retryAfter: Option<real>)

  /** The values that `_deliver_reply` writes; `attempts` is the worker's copy of
      the attempt count. */
  function ReplyRow(r: Request, token: Token, attempts: int, result: SendResult, at: real): Request {
    if r.leaseToken != Some(token) then r
    else
      var freed := r.(leaseExpiresAt := None, leaseToken := None);
      match result
      case Delivered => freed.(replyStatus := Sent)
      case Undelivered(retryable, retryAfter) =>
        if !retryable || attempts >= r.replyMaxAttempts
        then freed.(replyStatus := ReplyFailed, replyNextAttemptAt := None)
        else
          var delay := if retryAfter.Some? && retryAfter.value != 0.0 then retryAfter.value else RetryDelay(attempts);
          freed.(replyStatus := ReplyPendingRetry, replyNextAttemptAt := Some(at + delay))
  }

  // ---------------------------------------------------------- the machine

  /** A claim, and how many messages its worker has sent. */
  datatype Claim = Claim(request: int, kind: Kind, sends: nat)

  datatype Phase = Started | Loaded(attempts: int) | Ready(attempts: int) | Answered(attempts: int, result: SendResult)

  datatype World = World(rows: Table, claims: seq<Claim>, workers: map<Token, Phase>)

  datatype Event =
    | Arrived(id: int, request: Request)
    | ProcessedNext(sweepAt: real, selectAt: real, actAt: real, candidate: Option<int>, leader: Option<int>)
    | AttemptCounted(token: Token)
    | Finished(token: Token, status: Status, error: Option<string>, at: real, delay: Option<real>, refund: bool)
    | ReplyLoaded(token: Token)
    | ReplyChecked(token: Token)
    | ReplySent(token: Token, result: SendResult)
    | ReplyWritten(token: Token, at: real)
    | WorkerGone(token: Token)

  function EmptyWorld(): World {
    World(map[], [], map[])
  }

  /** What the intake inserts: nothing tried yet, limits that the table allows,
      and ids only grow. */
  predicate NewRequest(rows: Table, id: int, r: Request) {
    && (forall i <- rows :: i < id)
    && (r.status == Pending || r.status == Rejected)
    && r.leaseToken.None?
    && r.leaseExpiresAt.None?
    && r.replyStatus == ReplyPending
    && r.replyAttemptCount == 0
    && r.maxAttempts >= 0
    && r.replyMaxAttempts >= 0
  }

  predicate Working(w: World, token: Token, kind: Kind) {
    && token in w.workers
    && token < |w.claims|
    && w.claims[token].kind == kind
    && w.claims[token].request in w.rows
  }

  predicate Outcome(status: Status) {
    status != Pending && status != Processing
  }

  predicate Enabled(w: World, e: Event) {
    match e
    case Arrived(id, r) => NewRequest(w.rows, id, r)
    case ProcessedNext(sweepAt, selectAt, actAt, candidate, leader) =>
      var rows := Sweep(w.rows, sweepAt);
      (match candidate
       case None => leader.None? && forall i <- rows :: !Due(rows[i], selectAt)
       case Some(c) => IsCandidate(rows, selectAt, c) && IsLeader(rows, c, leader))
    case AttemptCounted(token) => Working(w, token, ProcessingKind)
    case Finished(token, status, _, _, _, _) => Working(w, token, ProcessingKind) && Outcome(status)
    case ReplyLoaded(token) => Working(w, token, ReplyKind) && w.workers[token].Started?
    case ReplyChecked(token) => Working(w, token, ReplyKind) && w.workers[token].Loaded?
    case ReplySent(token, _) => Working(w, token, ReplyKind) && w.workers[token].Ready?
    case ReplyWritten(token, _) => Working(w, token, ReplyKind) && w.workers[token].Answered?
    case WorkerGone(token) => token in w.workers
  }

  function RequestOf(w: World, token: Token): Request
    requires token < |w.claims| && w.claims[token].request in w.rows
  {
    w.rows[w.claims[token].request]
  }

  function Write(w: World, token: Token, r: Request): World
    requires token < |w.claims|
  {
    w.(rows := w.rows[w.claims[token].request := r])
  }

  function Leave(w: World, token: Token): World {
    w.(workers := w.workers - {token})
  }

  /** `_owns`, after which the worker goes on or stops. */
  function Check(w: World, token: Token, phase: Phase): World
    requires token < |w.claims| && w.claims[token].request in w.rows
  {
    if RequestOf(w, token).leaseToken == Some(token) then w.(workers := w.workers[token := phase]) else Leave(w, token)
  }

  /** What the claim transaction decides about the candidate. */
  function Act(w: World, rows: Table, c: int, leader: Option<int>, selectAt: real, actAt: real): World
    requires c in rows && (leader.Some? ==> leader.value in rows)
  {
    var r := rows[c];
    var processing := ProcessingDue(r, selectAt);
    if !r.authorized then w.(rows := rows[c := SuppressRow(r)])
    else if processing && leader.Some? then w.(rows := rows[c := DeferRow(r, rows[leader.value], actAt)])
    else
      var kind := if processing then ProcessingKind else ReplyKind;
      var token := |w.claims|;
      World(rows[c := ClaimRow(r, kind, token, actAt)], w.claims + [Claim(c, kind, 0)], w.workers[token := Started])
  }

  function Apply(w: World, e: Event): World
    requires Enabled(w, e)
  {
    match e
    case Arrived(id, r) => w.(rows := w.rows[id := r])
    case ProcessedNext(sweepAt, selectAt, actAt, candidate, leader) =>
      var rows := Sweep(w.rows, sweepAt);
      (match candidate
       case None => w.(rows := rows)
       case Some(c) => Act(w, rows, c, leader, selectAt, actAt))
    case AttemptCounted(token) =>
      var r := RequestOf(w, token);
      if MayCount(r, token) then Write(w, token, r.(attemptCount := r.attemptCount + 1)) else Leave(w, token)
    case Finished(token, status, error, at, delay, refund) =>
      Leave(Write(w, token, FinishRow(RequestOf(w, token), token, status, error, at, delay, refund)), token)
    case ReplyLoaded(token) => Check(w, token, Loaded(RequestOf(w, token).replyAttemptCount))
    case ReplyChecked(token) => Check(w, token, Ready(w.workers[token].attempts))
    case ReplySent(token, result) =>
      var claim := w.claims[token];
      w.(claims := w.claims[token := claim.(sends := claim.sends + 1)],
         workers := w.workers[token := Answered(w.workers[token].attempts, result)])
    case ReplyWritten(token, at) =>
      var phase := w.workers[token];
      Leave(Write(w, token, ReplyRow(RequestOf(w, token), token, phase.attempts, phase.result, at)), token)
    case WorkerGone(token) => Leave(w, token)
  }

  // ------------------------------------------------------------------ runs

  ghost predicate Legal(w: World, log: seq<Event>)
    decreases |log|, 0
  {
    if log == [] then true
    else Legal(w, log[..|log| - 1]) && Enabled(After(w, log[..|log| - 1]), log[|log| - 1])
  }

  ghost function After(w: World, log: seq<Event>): World
    requires Legal(w, log)
    decreases |log|, 1
  {
    if log == [] then w else Apply(After(w, log[..|log| - 1]), log[|log| - 1])
  }

  lemma ExtendRun(w: World, log: seq<Event>, e: Event)
    requires Legal(w, log) && Enabled(After(w, log), e)
    ensures Legal(w, log + [e]) && After(w, log + [e]) == Apply(After(w, log), e)
  {
    assert (log + [e])[..|log|] == log;
  }

  /** `w` is reached from the empty table by `log`. */
  ghost predicate Reached(log: seq<Event>, w: World) {
    Legal(EmptyWorld(), log) && w == After(EmptyWorld(), log)
  }
}
