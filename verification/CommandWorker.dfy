/**
 The command worker as it runs (app/services/telegram_command_queue.py): the
 claim transaction with its loops over the table, and the steps of a claimed
 worker, between which the rest of the system does whatever it can.
 */
module CommandWorker {
  import opened Prelude
  import opened CommandQueue
  import opened CommandQueueTheorems

  datatype Metadata = Resolved | MetadataError(code: string, retryable: bool, message: string)

  datatype Content = ContentDone | ContentFailed(error: string) | ContentPending(error: string)

  /** What `_process_content` meets: whether there are a user, the request's video
      and an account, what the metadata service and the pipeline answer. */
  datatype Facts = Facts(
    user: bool,
    videoKnown: bool,
    oauthAccount: bool,
    metadata: Metadata,
    disabledShort: bool,
    summaryPresent: bool,
    content: Content)

  datatype Ending = Ending(status: Status, error: Option<string>, delay: Option<real>, refund: bool)

  const GOOGLE_CODES := {"google_reauth_required", "quota_blocked", "quota_exceeded"}
  const AUTHENTICATION_REQUIRED := "Google authentication is required."
  const CONTENT_PENDING := "Content processing is temporarily pending."

  /** `_sanitize_error` of an empty text is no error. */
  function Noted(error: string): Option<string> {
    if error == "" then None else Some(error)
  }

  predicate AsksMetadata(facts: Facts) {
    facts.user && !facts.videoKnown && facts.oauthAccount
  }

  function MetadataEnding(e: Metadata, r: Request): Ending
    requires e.MetadataError?
  {
    if e.code in GOOGLE_CODES then
      Ending(PendingRetry, Noted(e.message), Some(if e.code == "google_reauth_required" then 3600.0 else 86400.0), true)
    else if e.retryable && r.attemptCount < r.maxAttempts then
      Ending(PendingRetry, Noted(e.message), Some(RetryDelay(r.attemptCount)), false)
    else Ending(Failed, Noted(e.message), None, false)
  }

  function EndingOf(facts: Facts, r: Request): Ending {
    if !facts.user || (!facts.videoKnown && !facts.oauthAccount) then
      Ending(PendingRetry, Some(AUTHENTICATION_REQUIRED), Some(3600.0), false)
    else if !facts.videoKnown && facts.metadata.MetadataError? then MetadataEnding(facts.metadata, r)
    else if facts.disabledShort then Ending(Rejected, Some("short_disabled"), None, false)
    else if facts.summaryPresent then Ending(Completed, None, None, false)
    else
      match facts.content
      case ContentDone => Ending(Completed, None, None, false)
      case ContentFailed(error) => Ending(Failed, Noted(error), None, false)
      case ContentPending(error) =>
        Ending(PendingRetry, Some(if error != "" then error else CONTENT_PENDING), Some(30.0), false)
  }

  /** A user, and the request's video, known or resolved just now. */
  predicate Ready(facts: Facts) {
    facts.user && (facts.videoKnown || (facts.oauthAccount && facts.metadata.Resolved?))
  }

  /** Google itself is in the way. */
  predicate GoogleBlocks(facts: Facts) {
    && AsksMetadata(facts)
    && facts.metadata.MetadataError?
    && facts.metadata.code in {"google_reauth_required", "quota_blocked", "quota_exceeded"}
  }

  predicate MetadataFails(facts: Facts, r: Request) {
    && AsksMetadata(facts)
    && facts.metadata.MetadataError?
    && !GoogleBlocks(facts)
    && (!facts.metadata.retryable || r.attemptCount >= r.maxAttempts)
  }

  /** The seconds until a request that has not ended is tried again. */
  function SecondsToRetry(facts: Facts, r: Request): real {
    if Ready(facts) then 30.0
    else if !AsksMetadata(facts) then 3600.0
    else if GoogleBlocks(facts) then
      if facts.metadata.MetadataError? && facts.metadata.code == "google_reauth_required" then 3600.0 else 86400.0
    else if r.attemptCount <= 1 then 30.0
    else if r.attemptCount == 2 then 120.0
    else 600.0
  }

  /** How a request must end for what was met: completed with its summary there,
      rejected for a short, failed by a final error, and otherwise tried again;
      an attempt is given back exactly if Google was in the way. */
  ghost predicate EndsAs(facts: Facts, r: Request, e: Ending) {
    var open := Ready(facts) && !facts.disabledShort;
    var wanted := open && !facts.summaryPresent;
    && Outcome(e.status)
    && (e.status == Completed <==> open && (facts.summaryPresent || facts.content.ContentDone?))
    && (e.status == Rejected <==> Ready(facts) && facts.disabledShort)
    && (e.status == Failed <==> MetadataFails(facts, r) || (wanted && facts.content.ContentFailed?))
    && e.delay == (if e.status == PendingRetry then Some(SecondsToRetry(facts, r)) else None)
    && (e.refund <==> GoogleBlocks(facts))
    && (e.status == Completed ==> e.error.None?)
    && (e.status == Rejected ==> e.error == Some("short_disabled"))
    && (e.status == PendingRetry && !AsksMetadata(facts) && !Ready(facts) ==>
          e.error == Some("Google authentication is required."))
    && (AsksMetadata(facts) && facts.metadata.MetadataError? && facts.metadata.message != "" ==>
          e.error == Some(facts.metadata.message))
    && (e.status == Failed && wanted && facts.content.error != "" ==> e.error == Some(facts.content.error))
    && (e.status == PendingRetry && Ready(facts) ==>
          e.error == Some(if facts.content.error != "" then facts.content.error
                          else "Content processing is temporarily pending."))
  }

  lemma EndingMeaning(facts: Facts, r: Request)
    ensures EndsAs(facts, r, EndingOf(facts, r))
  {
  }

  lemma TwoPassesSweep(rows: Table, middle: Table, after: Table, now: real)
    requires forall i :: i in middle <==> i in rows
    requires forall i :: i in after <==> i in middle
    requires forall i <- rows :: middle[i] == RecoverRow(rows[i], now)
    requires forall i <- middle :: after[i] == TerminalizeRow(middle[i])
    ensures after == Sweep(rows, now)
  {
    hide RecoverRow, TerminalizeRow;
    var swept := Sweep(rows, now);
    assert forall i :: i in swept <==> i in after;
    forall i | i in after
      ensures after[i] == swept[i]
    {
      assert middle[i] == RecoverRow(rows[i], now);
      assert swept[i] == SweepRow(rows[i], now);
    }
  }

  lemma ProcessedView(w: World, rows: Table, e: Event)
    requires e.ProcessedNext? && rows == Sweep(w.rows, e.sweepAt)
    requires match e.candidate
      case None => e.leader.None? && forall i <- rows :: !Due(rows[i], e.selectAt)
      case Some(c) => IsCandidate(rows, e.selectAt, c) && IsLeader(rows, c, e.leader)
    ensures Enabled(w, e)
    ensures Apply(w, e) == match e.candidate
      case None => w.(rows := rows)
      case Some(c) => Act(w, rows, c, e.leader, e.selectAt, e.actAt)
  {
    hide SweepRow, Act;
  }

  lemma KeysAfter(w: World, e: Event)
    requires Enabled(w, e)
    ensures forall i :: i in Apply(w, e).rows <==> i in w.rows || (e.Arrived? && i == e.id)
  {
    hide SweepRow, FinishRow, ReplyRow, IsLeader, Due;
    if e.ProcessedNext? {
      assert forall i :: i in Sweep(w.rows, e.sweepAt) <==> i in w.rows;
    }
  }

  lemma ArrivesLast(w: World, e: Event)
    requires Enabled(w, e)
    ensures e.Arrived? ==> forall i <- w.rows :: i < e.id
  {
  }

  /** Steps of other workers leave a worker and its claim alone. */
  predicate Concerns(e: Event, token: Token) {
    match e
    case Arrived(_, _) => false
    case ProcessedNext(_, _, _, _, _) => false
    case _ => e.token == token
  }

  lemma OthersLeaveAlone(w: World, e: Event, token: Token)
    requires Enabled(w, e) && !Concerns(e, token) && token in w.workers && token < |w.claims|
    ensures var after := Apply(w, e);
      && token in after.workers
      && after.workers[token] == w.workers[token]
      && token < |after.claims|
      && after.claims[token] == w.claims[token]
  {
    hide Sweep, FinishRow, ReplyRow, IsCandidate, IsLeader, SuppressRow, DeferRow, ClaimRow;
  }

  /** A leased request is authorised: the branch for a destination that is not
      is never taken after a claim. */
  lemma OwnedIsAuthorized(log: seq<Event>, w: World, id: int, token: Token)
    requires Reached(log, w) && id in w.rows && w.rows[id].leaseToken == Some(token)
    ensures w.rows[id].authorized
  {
    ReachedInv(log, w);
    assert RowInv(w.rows[id]);
  }

  lemma SentAboutEnded(log: seq<Event>, w: World, token: Token)
    requires Reached(log, w) && token < |w.claims| && w.claims[token].kind == ReplyKind
    ensures w.claims[token].request in w.rows && Terminal(RequestOf(w, token))
  {
    ReachedInv(log, w);
    assert ClaimInv(w, token);
  }

  class TelegramCommandQueue {
    var rows: Table
    var ids: seq<int>
    var claims: seq<Claim>
    var workers: map<Token, Phase>
    ghost var log: seq<Event>

    function Value(): World
      reads this
    {
      World(rows, claims, workers)
    }

    /** Each row is listed once, in the order of arrival. */
    ghost predicate Listed()
      reads this`rows, this`ids
    {
      && (forall i <- rows :: i in ids)
      && (forall k :: 0 <= k < |ids| ==> ids[k] in rows)
      && (forall j, k :: 0 <= j < k < |ids| ==> ids[j] < ids[k])
    }

    /** Everything that was committed so far is a run of the queue. */
    ghost predicate Valid()
      reads this
    {
      Reached(log, Value()) && Listed()
    }

    constructor ()
      ensures Valid() && rows == map[] && log == []
    {
      rows, ids, claims, workers := map[], [], [], map[];
      log := [];
    }

    // ------------------------------------------------ the claim transaction

    method RecoverStaleClaims(now: real)
      requires Listed()
      modifies this`rows
      ensures Listed() && (forall i :: i in rows <==> i in old(rows))
      ensures forall i <- old(rows) :: rows[i] == RecoverRow(old(rows)[i], now)
    {
      for k := 0 to |ids|
        invariant Listed() && forall i :: i in rows <==> i in old(rows)
        invariant forall j :: 0 <= j < k ==> rows[ids[j]] == RecoverRow(old(rows)[ids[j]], now)
        invariant forall j :: k <= j < |ids| ==> rows[ids[j]] == old(rows)[ids[j]]
      {
        var i := ids[k];
        var r := rows[i];
        if r.status == Processing && LeaseExpired(r, now) {
          r := r.(status := PendingRetry, nextAttemptAt := Some(now), leaseExpiresAt := None, leaseToken := None,
                  lastError := Some(LEASE_EXPIRED));
        } else if r.replyStatus == Sending && LeaseExpired(r, now) {
          r := r.(replyStatus := ReplyPendingRetry, replyNextAttemptAt := Some(now), leaseExpiresAt := None,
                  leaseToken := None);
        }
        assert r == RecoverRow(rows[i], now);
        hide RecoverRow;
        rows := rows[i := r];
      }
    }

    method TerminalizeExhaustedRequests()
      requires Listed()
      modifies this`rows
      ensures Listed() && (forall i :: i in rows <==> i in old(rows))
      ensures forall i <- old(rows) :: rows[i] == TerminalizeRow(old(rows)[i])
    {
      for k := 0 to |ids|
        invariant Listed() && forall i :: i in rows <==> i in old(rows)
        invariant forall j :: 0 <= j < k ==> rows[ids[j]] == TerminalizeRow(old(rows)[ids[j]])
        invariant forall j :: k <= j < |ids| ==> rows[ids[j]] == old(rows)[ids[j]]
      {
        var i := ids[k];
        var r := rows[i];
        if (r.status == Pending || r.status == PendingRetry) && r.attemptCount >= r.maxAttempts {
          r := r.(status := Failed, nextAttemptAt := None, lastError := Some(EXHAUSTED));
        } else if Terminal(r) && ReplyWaiting(r) && r.replyAttemptCount >= r.replyMaxAttempts {
          r := r.(replyStatus := ReplyFailed, replyNextAttemptAt := None);
        }
        assert r == TerminalizeRow(rows[i]);
        hide TerminalizeRow;
        rows := rows[i := r];
      }
    }

    /** The due request that comes first by creation time, then id. */
    method SelectCandidate(now: real) returns (candidate: Option<int>)
      requires Listed()
      ensures match candidate
        case None => forall i <- rows :: !Due(rows[i], now)
        case Some(c) => IsCandidate(rows, now, c)
    {
      candidate := None;
      for k := 0 to |ids|
        invariant match candidate
          case None => forall j :: 0 <= j < k ==> !Due(rows[ids[j]], now)
          case Some(c) =>
            && c in rows
            && Due(rows[c], now)
            && forall j :: 0 <= j < k && Due(rows[ids[j]], now) ==> Before(rows, c, ids[j])
      {
        var i := ids[k];
        if Due(rows[i], now) && (candidate.None? || Before(rows, i, candidate.value)) {
          candidate := Some(i);
        }
      }
    }

    /** The oldest live request for the same video. */
    method OlderContentLeader(c: int) returns (leader: Option<int>)
      requires c in rows && Listed()
      ensures IsLeader(rows, c, leader)
    {
      leader := None;
      for k := 0 to |ids|
        invariant match leader
          case None => forall j :: 0 <= j < k ==> !OlderLive(rows, ids[j], c)
          case Some(l) =>
            && l in rows
            && OlderLive(rows, l, c)
            && forall j :: 0 <= j < k && OlderLive(rows, ids[j], c) ==> l <= ids[j]
      {
        var i := ids[k];
        if OlderLive(rows, i, c) && (leader.None? || i < leader.value) {
          leader := Some(i);
        }
      }
    }

    ghost method Record(e: Event, before: World)
      requires Reached(log, before) && Enabled(before, e) && Apply(before, e) == Value() && Listed()
      modifies this`log
      ensures Valid() && log == old(log) + [e]
    {
      ExtendRun(EmptyWorld(), log, e);
      log := log + [e];
    }

    method SweepClaims(now: real)
      requires Listed()
      modifies this`rows
      ensures Listed() && rows == Sweep(old(rows), now)
    {
      hide Listed;
      RecoverStaleClaims(now);
      ghost var recovered := rows;
      TerminalizeExhaustedRequests();
      TwoPassesSweep(old(rows), recovered, rows, now);
    }

    /** `process_next` up to the commit of its claim. */
    method ClaimNext(token: Token, sweepAt: real, selectAt: real, actAt: real) returns (claim: Option<Claim>)
      requires Valid() && token == |claims|
      modifies this
      ensures Valid()
      ensures |log| == |old(log)| + 1 && old(log) <= log && log[|old(log)|].ProcessedNext?
      ensures claim.Some? ==>
        && claims == old(claims) + [claim.value]
        && claim.value.request in rows
        && rows[claim.value.request].leaseToken == Some(token)
        && token in workers
        && workers[token].Started?
      ensures claim.None? ==> claims == old(claims) && workers == old(workers)
    {
      ghost var before := Value();
      SweepClaims(sweepAt);
      hide Sweep, Due, Before;
      var candidate := SelectCandidate(selectAt);
      claim := None;
      hide Enabled, Apply, Reached, Listed;
      if candidate.None? {
        ProcessedView(before, rows, ProcessedNext(sweepAt, selectAt, actAt, None, None));
        Record(ProcessedNext(sweepAt, selectAt, actAt, None, None), before);
        return;
      }
      var c := candidate.value;
      var leader := OlderContentLeader(c);
      ProcessedView(before, rows, ProcessedNext(sweepAt, selectAt, actAt, candidate, leader));
      hide IsCandidate, IsLeader, Act;
      claim := ActOn(c, leader, token, selectAt, actAt);
      Record(ProcessedNext(sweepAt, selectAt, actAt, candidate, leader), before);
    }

    /** What becomes of the candidate: suppressed, deferred behind its leader, or
        claimed under the fresh token. */
    method ActOn(c: int, leader: Option<int>, token: Token, selectAt: real, actAt: real)
      returns (claim: Option<Claim>)
      requires Listed() && c in rows && token == |claims| && (leader.Some? ==> leader.value in rows)
      modifies this`rows, this`claims, this`workers
      ensures Listed() && Value() == Act(old(Value()), old(rows), c, leader, selectAt, actAt)
      ensures claim.Some? ==>
        && claims == old(claims) + [claim.value]
        && claim.value.request == c
        && c in rows
        && rows[c].leaseToken == Some(token)
        && token in workers
        && workers[token].Started?
      ensures claim.None? ==> claims == old(claims) && workers == old(workers)
    {
      var r := rows[c];
      claim := None;
      if !r.authorized {
        rows := rows[c := SuppressRow(r)];
        return;
      }
      var kind := if ProcessingDue(r, selectAt) then ProcessingKind else ReplyKind;
      if kind == ProcessingKind && leader.Some? {
        rows := rows[c := DeferRow(r, rows[leader.value], actAt)];
        return;
      }
      rows := rows[c := ClaimRow(r, kind, token, actAt)];
      claim := Some(Claim(c, kind, 0));
      claims := claims + [claim.value];
      workers := workers[token := Started];
    }

    // -------------------------------------------------------- claimed workers

    /** The token is this worker's, and it works for this request. */
    ghost predicate Mine(token: Token, claim: Claim)
      reads this
    {
      token in workers && token < |claims| && claims[token] == claim && claim.request in rows
    }

    /** The rest of the system takes any number of its steps. */
    method Interleave(token: Token)
      requires Valid() && token in workers && token < |claims| && Mine(token, claims[token])
      modifies this
      ensures Valid() && token in workers && workers[token] == old(workers[token])
      ensures token < |claims| && claims[token] == old(claims[token]) && Mine(token, claims[token])
      ensures old(log) <= log
    {
      var n: nat := *;
      while n > 0
        invariant Valid() && token in workers && workers[token] == old(workers[token])
        invariant token < |claims| && claims[token] == old(claims[token]) && Mine(token, claims[token])
        invariant old(log) <= log
      {
        var e: Event := *;
        if !Concerns(e, token) && Enabled(Value(), e) {
          OthersLeaveAlone(Value(), e, token);
          KeysAfter(Value(), e);
          TakeStep(e);
        }
        n := n - 1;
      }
    }

    method TakeStep(e: Event)
      requires Valid() && Enabled(Value(), e)
      modifies this
      ensures Valid() && Value() == Apply(old(Value()), e) && log == old(log) + [e]
    {
      ghost var before := Value();
      KeysAfter(before, e);
      ArrivesLast(before, e);
      hide Enabled, Apply, Reached;
      var after := Apply(Value(), e);
      if e.Arrived? {
        ids := ids + [e.id];
      }
      rows, claims, workers := after.rows, after.claims, after.workers;
      Record(e, before);
    }

    predicate Owns(id: int, token: Token)
      requires id in rows
      reads this
    {
      rows[id].leaseToken == Some(token)
    }

    /** The worker stops without a write. */
    method GiveUp(token: Token)
      requires Valid() && token in workers
      modifies this`workers, this`log
      ensures Valid() && workers == old(workers) - {token} && log == old(log) + [WorkerGone(token)]
    {
      ghost var before := Value();
      workers := workers - {token};
      Record(WorkerGone(token), before);
    }

    /** `_finish_processing`: the result lands only under the row's own token. */
    method FinishProcessing(id: int, token: Token, status: Status, error: Option<string>, at: real,
                            delay: Option<real>, refund: bool) returns (landed: bool)
      requires Valid() && Mine(token, Claim(id, ProcessingKind, 0)) && Outcome(status)
      modifies this
      ensures Valid() && token !in workers && id in rows && old(log) <= log
      ensures landed ==>
        && rows[id].status == status
        && rows[id].lastError == error
        && rows[id].leaseToken.None?
        && rows[id].nextAttemptAt == (if status == PendingRetry && delay.Some? then Some(at + delay.value) else None)
        && log[|log| - 1] == Finished(token, status, error, at, delay, refund)
      ensures !landed ==> rows[id].leaseToken != Some(token)
    {
      hide Reached, Listed;
      landed := false;
      if !Owns(id, token) {
        GiveUp(token);
        return;
      }
      Interleave(token);
      ghost var before := Value();
      var r := rows[id];
      landed := r.leaseToken == Some(token);
      if landed {
        r := r.(status := status, lastError := error,
                nextAttemptAt := if status == PendingRetry && delay.Some? then Some(at + delay.value) else None,
                attemptCount := if refund then Max(0, r.attemptCount - 1) else r.attemptCount,
                leaseExpiresAt := None, leaseToken := None);
      }
      Store(id, r);
      workers := workers - {token};
      Record(Finished(token, status, error, at, delay, refund), before);
    }

    method Store(id: int, r: Request)
      requires Listed() && id in rows
      modifies this`rows
      ensures Listed() && rows == old(rows)[id := r]
    {
      rows := rows[id := r];
    }

    /** `_increment_metadata_attempt` */
    method IncrementMetadataAttempt(id: int, token: Token) returns (counted: bool)
      requires Valid() && Mine(token, Claim(id, ProcessingKind, 0))
      modifies this
      ensures Valid() && id in rows && old(log) <= log
      ensures counted <==> MayCount(old(rows)[id], token)
      ensures counted ==>
        && Mine(token, Claim(id, ProcessingKind, 0))
        && rows == old(rows)[id := old(rows)[id].(attemptCount := old(rows)[id].attemptCount + 1)]
      ensures !counted ==> token !in workers && rows == old(rows)
    {
      hide Reached, Listed;
      ghost var before := Value();
      var r := rows[id];
      counted := r.leaseToken == Some(token) && r.attemptCount < r.maxAttempts;
      if counted {
        Store(id, r.(attemptCount := r.attemptCount + 1));
      } else {
        workers := workers - {token};
      }
      Record(AttemptCounted(token), before);
    }

    /** The branches of `_process_content` that lead to its result. */
    method Conclude(facts: Facts, r: Request) returns (ending: Ending)
      ensures ending == EndingOf(facts, r)
    {
      if !facts.user {
        return Ending(PendingRetry, Some(AUTHENTICATION_REQUIRED), Some(3600.0), false);
      }
      if !facts.videoKnown {
        if !facts.oauthAccount {
          return Ending(PendingRetry, Some(AUTHENTICATION_REQUIRED), Some(3600.0), false);
        }
        match facts.metadata {
          case Resolved =>
          case MetadataError(code, retryable, message) =>
            if code in GOOGLE_CODES {
              var delay := if code == "google_reauth_required" then 3600.0 else 86400.0;
              return Ending(PendingRetry, Noted(message), Some(delay), true);
            }
            if !retryable || r.attemptCount >= r.maxAttempts {
              return Ending(Failed, Noted(message), None, false);
            }
            return Ending(PendingRetry, Noted(message), Some(RetryDelay(r.attemptCount)), false);
        }
      }
      if facts.disabledShort {
        return Ending(Rejected, Some("short_disabled"), None, false);
      }
      if facts.summaryPresent {
        return Ending(Completed, None, None, false);
      }
      match facts.content {
        case ContentDone => return Ending(Completed, None, None, false);
        case ContentFailed(error) => return Ending(Failed, Noted(error), None, false);
        case ContentPending(error) =>
          return Ending(PendingRetry, Some(if error == "" then CONTENT_PENDING else error), Some(30.0), false);
      }
    }

    /** `_process_content`: a metadata attempt is counted before the service is
        asked, and a result that lands is the one that the facts call for. */
    method ProcessContent(id: int, token: Token, facts: Facts, at: real)
      returns (landed: bool, ghost counted: bool, ghost seen: Request, ending: Ending)
      requires Valid() && Mine(token, Claim(id, ProcessingKind, 0))
      modifies this
      ensures Valid() && token !in workers && id in rows && old(log) <= log
      ensures landed ==>
        && counted == AsksMetadata(facts)
        && EndsAs(facts, seen, ending)
        && log[|log| - 1] == Finished(token, ending.status, ending.error, at, ending.delay, ending.refund)
        && rows[id].status == ending.status
        && rows[id].lastError == ending.error
        && rows[id].nextAttemptAt == (if ending.delay.Some? then Some(at + ending.delay.value) else None)
    {
      hide Reached, Listed;
      landed, counted := false, false;
      seen := rows[id];
      ending := Ending(PendingRetry, None, None, false);
      if !Owns(id, token) {
        GiveUp(token);
        return;
      }
      Interleave(token);
      if AsksMetadata(facts) {
        var allowed := IncrementMetadataAttempt(id, token);
        if !allowed {
          return;
        }
        counted := true;
        Interleave(token);
      }
      seen := rows[id];
      ending := Conclude(facts, rows[id]);
      EndingMeaning(facts, rows[id]);
      hide EndingOf;
      Interleave(token);
      landed := FinishProcessing(id, token, ending.status, ending.error, at, ending.delay, ending.refund);
    }

    /** `_owns`, after which the worker goes on or stops. */
    method CheckOwnership(id: int, token: Token, phase: Phase) returns (owned: bool)
      requires Valid() && Mine(token, Claim(id, ReplyKind, 0))
      requires (workers[token].Started? && phase == Loaded(rows[id].replyAttemptCount))
        || (workers[token].Loaded? && phase == Ready(workers[token].attempts))
      modifies this
      ensures Valid() && |log| == |old(log)| + 1 && old(log) <= log && rows == old(rows) && claims == old(claims)
      ensures owned <==> Owns(id, token)
      ensures workers == if owned then old(workers)[token := phase] else old(workers) - {token}
    {
      hide Reached, Listed;
      ghost var before := Value();
      owned := Owns(id, token);
      if owned {
        workers := workers[token := phase];
      } else {
        workers := workers - {token};
      }
      Record(if phase.Loaded? then ReplyLoaded(token) else ReplyChecked(token), before);
    }

    /** The message leaves, with any result. */
    method Send(id: int, token: Token, attempts: int) returns (result: SendResult)
      requires Valid() && Mine(token, Claim(id, ReplyKind, 0)) && workers[token] == Ready(attempts)
      modifies this
      ensures Valid() && log == old(log) + [ReplySent(token, result)] && rows == old(rows)
      ensures Mine(token, Claim(id, ReplyKind, 1)) && workers[token] == Answered(attempts, result)
    {
      hide Reached, Listed;
      ghost var before := Value();
      result := *;
      claims := claims[token := Claim(id, ReplyKind, 1)];
      workers := workers[token := Answered(attempts, result)];
      Record(ReplySent(token, result), before);
    }

    /** The fenced write of a message's result. */
    method WriteReply(id: int, token: Token, attempts: int, result: SendResult, at: real)
      requires Valid() && Mine(token, Claim(id, ReplyKind, 1)) && workers[token] == Answered(attempts, result)
      modifies this
      ensures Valid() && token !in workers && claims == old(claims) && id in rows
      ensures log == old(log) + [ReplyWritten(token, at)]
      ensures rows == old(rows)[id := ReplyRow(old(rows)[id], token, attempts, result, at)]
    {
      hide Reached, Listed;
      ghost var before := Value();
      var r := rows[id];
      if r.leaseToken == Some(token) {
        r := r.(leaseExpiresAt := None, leaseToken := None);
        match result {
          case Delivered => r := r.(replyStatus := Sent);
          case Undelivered(retryable, retryAfter) =>
            if !retryable || attempts >= r.replyMaxAttempts {
              r := r.(replyStatus := ReplyFailed, replyNextAttemptAt := None);
            } else {
              var delay := RetryDelay(attempts);
              if retryAfter.Some? && retryAfter.value != 0.0 {
                delay := retryAfter.value;
              }
              r := r.(replyStatus := ReplyPendingRetry, replyNextAttemptAt := Some(at + delay));
            }
        }
      }
      assert r == ReplyRow(rows[id], token, attempts, result, at);
      hide ReplyRow;
      Store(id, r);
      workers := workers - {token};
      Record(ReplyWritten(token, at), before);
    }

    /** `_deliver_reply`: two ownership checks, at most one message, one fenced
        write of its result. */
    method DeliverReply(id: int, token: Token, at: real) returns (sent: bool)
      requires Valid() && Mine(token, Claim(id, ReplyKind, 0)) && workers[token].Started?
      modifies this
      ensures Valid() && token !in workers && old(log) <= log && id in rows
      ensures token < |claims| && claims[token] == Claim(id, ReplyKind, if sent then 1 else 0)
      ensures sent ==> Terminal(rows[id]) && rows[id].leaseToken != Some(token)
    {
      hide Reached, Listed, Enabled, Apply;
      sent := false;
      Interleave(token);
      var attempts := rows[id].replyAttemptCount;
      var owned := CheckOwnership(id, token, Loaded(attempts));
      if !owned {
        return;
      }
      OwnedIsAuthorized(log, Value(), id, token);
      assert rows[id].authorized;
      Interleave(token);
      owned := CheckOwnership(id, token, Ready(attempts));
      if !owned {
        return;
      }
      Interleave(token);
      var result := Send(id, token, attempts);
      sent := true;
      Interleave(token);
      SentAboutEnded(log, Value(), token);
      WriteReply(id, token, attempts, result, at);
    }
  }
}
