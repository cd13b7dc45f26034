/**
 What the steps of the command queue do to the rows, said of the rows
 (app/services/telegram_command_queue.py): which request is taken and what
 becomes of it, what a stale lease or used-up attempts lead to, and what a
 worker's write leaves.
 */
module CommandQueueEffects {
  import opened Prelude
  import opened CommandQueue
  import opened CommandQueueTheorems

  // ----------------------------------------------------------- the sweep

  predicate Ended(r: Request) {
    r.status == Completed || r.status == Failed || r.status == Rejected
  }

  predicate PastLease(r: Request, now: real) {
    r.leaseExpiresAt.Some? && r.leaseExpiresAt.value < now
  }

  function Released(r: Request): Request {
    r.(leaseToken := None, leaseExpiresAt := None)
  }

  function Exhausted(r: Request): Request {
    r.(status := Failed, nextAttemptAt := None, lastError := Some("Command processing attempts were exhausted."))
  }

  function Unanswered(r: Request): Request {
    r.(replyStatus := ReplyFailed, replyNextAttemptAt := None)
  }

  /** What the first part of a claim transaction leaves of a row: work whose lease
      has run out is due again at once, with a note about it; a reply likewise,
      keeping the content's error; what has no attempts left is failed instead. */
  ghost predicate SweptTo(r: Request, now: real, s: Request) {
    if r.status == Processing && PastLease(r, now) then
      if r.attemptCount >= r.maxAttempts then s == Exhausted(Released(r))
      else
        s == Released(r).(status := PendingRetry, nextAttemptAt := Some(now),
                          lastError := Some("Previous command processing lease expired."))
    else if r.replyStatus == Sending && PastLease(r, now) then
      if r.replyAttemptCount >= r.replyMaxAttempts then s == Unanswered(Released(r))
      else s == Released(r).(replyStatus := ReplyPendingRetry, replyNextAttemptAt := Some(now))
    else if (r.status == Pending || r.status == PendingRetry) && r.attemptCount >= r.maxAttempts then s == Exhausted(r)
    else if Ended(r) && (r.replyStatus == ReplyPending || r.replyStatus == ReplyPendingRetry)
      && r.replyAttemptCount >= r.replyMaxAttempts then s == Unanswered(r)
    else s == r
  }

  lemma SweepEffect(log: seq<Event>, w: World, now: real, id: int)
    requires Reached(log, w) && id in w.rows
    ensures SweptTo(w.rows[id], now, Sweep(w.rows, now)[id])
  {
    ReachedInv(log, w);
    assert RowInv(w.rows[id]);
  }

  // ----------------------------------------------------------- the choice

  predicate Reachable(at: Option<real>, now: real) {
    at.None? || at.value <= now
  }

  /** There is content to process, or a reply to send, and its time has come. */
  predicate ContentWaits(r: Request, now: real) {
    r.status == Pending || (r.status == PendingRetry && Reachable(r.nextAttemptAt, now))
  }

  predicate ReplyWaits(r: Request, now: real) {
    && Ended(r)
    && (r.replyStatus == ReplyPending || r.replyStatus == ReplyPendingRetry)
    && Reachable(r.replyNextAttemptAt, now)
  }

  /** An older request for the same video has not ended. */
  predicate OlderOpen(rows: Table, i: int, c: int)
    requires i in rows && c in rows
  {
    && i < c
    && rows[c].videoId.Some?
    && rows[c].videoId.value != ""
    && rows[i].videoId == rows[c].videoId
    && !Ended(rows[i])
  }

  /** A request whose chat or user is no longer the configured one. */
  ghost predicate TurnedAway(r: Request, s: Request) {
    s == Released(r).(
      status := if Ended(r) then r.status else Rejected,
      lastError := if Ended(r) then r.lastError else Some("Telegram command authorization changed."),
      replyStatus := Suppressed)
  }

  /** Put off behind the oldest open request for the video: until that one is due,
      but for thirty seconds at least. */
  ghost predicate PutOff(r: Request, leader: Request, now: real, s: Request) {
    && s == r.(status := PendingRetry, lastError := Some("Waiting for shared video content processing."),
               nextAttemptAt := s.nextAttemptAt)
    && s.nextAttemptAt.Some?
    && s.nextAttemptAt.value >= now + 30.0
    && (leader.nextAttemptAt.Some? ==> s.nextAttemptAt.value >= leader.nextAttemptAt.value)
    && (s.nextAttemptAt.value == now + 30.0 || s.nextAttemptAt == leader.nextAttemptAt)
  }

  /** Leased for an hour under the fresh token, for its content or its reply. */
  ghost predicate Taken(r: Request, content: bool, token: Token, now: real, s: Request) {
    var leased := r.(leaseToken := Some(token), leaseExpiresAt := Some(now + 3600.0));
    s == if content then leased.(status := Processing, nextAttemptAt := None)
         else leased.(replyStatus := Sending, replyAttemptCount := r.replyAttemptCount + 1, replyNextAttemptAt := None)
  }

  /** Of all requests with something to do the one created first is taken, by id
      among equals; it is turned away, put off behind the oldest open request for
      its video, or leased; no other row changes after the sweep. */
  lemma ClaimEffect(w: World, e: Event)
    requires e.ProcessedNext? && Enabled(w, e)
    ensures var rows, after := Sweep(w.rows, e.sweepAt), Apply(w, e);
      match e.candidate
      case None =>
        && (forall i <- rows :: !ContentWaits(rows[i], e.selectAt) && !ReplyWaits(rows[i], e.selectAt))
        && after == w.(rows := rows)
      case Some(c) =>
        && c in rows
        && after.rows.Keys == rows.Keys
        && (ContentWaits(rows[c], e.selectAt) || ReplyWaits(rows[c], e.selectAt))
        && (forall i <- rows | ContentWaits(rows[i], e.selectAt) || ReplyWaits(rows[i], e.selectAt) ::
              rows[c].createdAt < rows[i].createdAt || (rows[c].createdAt == rows[i].createdAt && c <= i))
        && (forall i <- rows :: i != c ==> after.rows[i] == rows[i])
        && (forall l :: e.leader == Some(l) ==>
              l in rows && OlderOpen(rows, l, c) && forall i <- rows :: OlderOpen(rows, i, c) ==> l <= i)
        && (e.leader.None? ==> forall i <- rows :: !OlderOpen(rows, i, c))
        && if !rows[c].authorized then TurnedAway(rows[c], after.rows[c]) && after.claims == w.claims
           else if ContentWaits(rows[c], e.selectAt) && e.leader.Some? then
             PutOff(rows[c], rows[e.leader.value], e.actAt, after.rows[c]) && after.claims == w.claims
           else
             var content := ContentWaits(rows[c], e.selectAt);
             && Taken(rows[c], content, |w.claims|, e.actAt, after.rows[c])
             && after.claims == w.claims + [Claim(c, if content then ProcessingKind else ReplyKind, 0)]
             && after.workers == w.workers[|w.claims| := Started]
  {
    hide SweepRow;
  }

  // ------------------------------------------------------------- the writes

  /** The seconds before the next try after the first, the second and any later
      one. */
  function PauseAfter(attempts: int): real {
    if attempts <= 1 then 30.0 else if attempts == 2 then 120.0 else 600.0
  }

  ghost predicate Replied(r: Request, attempts: int, result: SendResult, at: real, s: Request) {
    match result
    case Delivered => s == Released(r).(replyStatus := Sent)
    case Undelivered(retryable, retryAfter) =>
      if retryable && attempts < r.replyMaxAttempts then
        var pause := if retryAfter.None? || retryAfter.value == 0.0 then PauseAfter(attempts) else retryAfter.value;
        s == Released(r).(replyStatus := ReplyPendingRetry, replyNextAttemptAt := Some(at + pause))
      else s == Unanswered(Released(r))
  }

  /** A worker's write lands only under its own token, and then leaves exactly the
      result: the content's end, the reply's end, or one more attempt. */
  lemma WriteEffect(w: World, e: Event)
    requires (e.Finished? || e.ReplyWritten? || e.AttemptCounted?) && Enabled(w, e)
    ensures var id, after := w.claims[e.token].request, Apply(w, e);
      var r, s := w.rows[id], after.rows[id];
      && after.rows == w.rows[id := s]
      && after.claims == w.claims
      && (r.leaseToken != Some(e.token) ==> s == r)
      && (r.leaseToken == Some(e.token) ==>
            match e
            case Finished(_, status, error, at, delay, refund) =>
              s == Released(r).(
                status := status, lastError := error,
                nextAttemptAt := if status == PendingRetry && delay.Some? then Some(at + delay.value) else None,
                attemptCount := if refund && r.attemptCount >= 1 then r.attemptCount - 1
                                else if refund then 0 else r.attemptCount)
            case ReplyWritten(_, at) =>
              Replied(r, w.workers[e.token].attempts, w.workers[e.token].result, at, s)
            case AttemptCounted(_) =>
              if r.attemptCount < r.maxAttempts then s == r.(attemptCount := r.attemptCount + 1) else s == r)
  {
    hide Sweep, IsCandidate, IsLeader;
  }
}
