/** The main results about every run of the command queue. */
module CommandQueueTheorems {
  import opened Prelude
  import opened CommandQueue

  // ------------------------------------------------------------- invariant

  function KindOf(r: Request): Kind {
    if r.status == Processing then ProcessingKind else ReplyKind
  }

  /** A token is on the row exactly while it is processing or its reply is
      sending, never both, and replies are only sent about finished requests. */
  predicate RowInv(r: Request) {
    && (r.leaseToken.Some? <==> (r.status == Processing || r.replyStatus == Sending))
    && (r.replyStatus == Sending || r.replyStatus == Sent ==> Terminal(r))
    && (r.leaseToken.Some? ==> r.authorized)
    && 0 <= r.replyAttemptCount <= Max(1, r.replyMaxAttempts)
    && (Live(r) ==> r.replyAttemptCount == 0)
  }

  /** The token on the row belongs to the latest claim of that row. */
  ghost predicate OwnerInv(w: World, id: int)
    requires id in w.rows
  {
    w.rows[id].leaseToken.Some? ==>
      var t := w.rows[id].leaseToken.value;
      && t < |w.claims|
      && w.claims[t].request == id
      && w.claims[t].kind == KindOf(w.rows[id])
      && forall u :: t < u < |w.claims| ==> w.claims[u].request != id
  }

  ghost predicate SameVideo(rows: Table, i: int, j: int)
    requires i in rows && j in rows
  {
    HasVideo(rows[j]) && rows[i].videoId == rows[j].videoId
  }

  /** No live request for the same video is older than one in processing. */
  ghost predicate OrderInv(rows: Table) {
    forall i, j :: i in rows && j in rows && i < j && SameVideo(rows, i, j) && rows[j].status == Processing ==>
      Terminal(rows[i])
  }

  /** Every worker works for a claim, and a claim sends at most once, replies
      only, about a request that is finished. */
  ghost predicate ClaimInv(w: World, t: Token)
    requires t < |w.claims|
  {
    var c := w.claims[t];
    && c.request in w.rows
    && c.sends <= 1
    && (c.kind == ProcessingKind ==> c.sends == 0)
    && (c.kind == ReplyKind ==> Terminal(w.rows[c.request]))
    && (t in w.workers && !w.workers[t].Answered? ==> c.sends == 0)
  }

  function ReplyClaims(claims: seq<Claim>, id: int): nat {
    if claims == [] then 0
    else
      var last := claims[|claims| - 1];
      ReplyClaims(claims[..|claims| - 1], id) + (if last.request == id && last.kind == ReplyKind then 1 else 0)
  }

  /** Messages sent about a request. */
  function Sends(claims: seq<Claim>, id: int): nat {
    if claims == [] then 0
    else
      var last := claims[|claims| - 1];
      Sends(claims[..|claims| - 1], id) + (if last.request == id then last.sends else 0)
  }

  ghost predicate Inv(w: World) {
    && (forall i <- w.rows :: RowInv(w.rows[i]))
    && (forall i <- w.rows :: OwnerInv(w, i))
    && OrderInv(w.rows)
    && (forall t <- w.workers :: t < |w.claims|)
    && (forall t :: 0 <= t < |w.claims| ==> ClaimInv(w, t))
    && (forall i <- w.rows :: ReplyClaims(w.claims, i) == w.rows[i].replyAttemptCount)
  }

  // ------------------------------------------- what a step does to one row

  /** Changes that no claim is involved in: the claim may be lost, a live request
      may fail, a reply may be given up. */
  predicate Loosened(r: Request, after: Request) {
    && RowInv(after)
    && after.createdAt == r.createdAt
    && after.authorized == r.authorized
    && after.videoId == r.videoId
    && after.replyMaxAttempts == r.replyMaxAttempts
    && after.replyAttemptCount == r.replyAttemptCount
    && (after.leaseToken == r.leaseToken || after.leaseToken.None?)
    && (after.leaseToken.Some? ==> KindOf(after) == KindOf(r))
    && (Terminal(r) ==> after.status == r.status && after.lastError == r.lastError)
    && (after.status == Processing ==> r.status == Processing)
    && (r.replyStatus == Sent ==> after.replyStatus == Sent)
  }

  lemma SweepLoosens(r: Request, now: real)
    requires RowInv(r)
    ensures var after := SweepRow(r, now);
      && Loosened(r, after)
      && (Terminal(after) && ReplyWaiting(after) ==> after.replyAttemptCount < Max(1, after.replyMaxAttempts))
  {
  }

  lemma SuppressLoosens(r: Request)
    requires RowInv(r) && r.leaseToken.None? && r.replyStatus != Sent
    ensures Loosened(r, SuppressRow(r))
  {
  }

  lemma DeferLoosens(r: Request, leader: Request, selectAt: real, now: real)
    requires RowInv(r) && ProcessingDue(r, selectAt)
    ensures Loosened(r, DeferRow(r, leader, now))
  {
  }

  lemma FinishLoosens(
    r: Request, token: Token, status: Status, error: Option<string>, at: real, delay: Option<real>, refund: bool
  )
    requires RowInv(r) && Outcome(status) && (r.leaseToken == Some(token) ==> r.status == Processing)
    ensures Loosened(r, FinishRow(r, token, status, error, at, delay, refund))
  {
  }

  lemma ReplyLoosens(r: Request, token: Token, attempts: int, result: SendResult, at: real)
    requires RowInv(r) && (r.leaseToken == Some(token) ==> r.status != Processing)
    ensures Loosened(r, ReplyRow(r, token, attempts, result, at))
  {
  }

  lemma LoosenedNothing(r: Request)
    requires RowInv(r)
    ensures Loosened(r, r)
  {
  }

  ghost predicate TableLoosened(rows: Table, after: Table) {
    after.Keys == rows.Keys && forall i <- rows :: Loosened(rows[i], after[i])
  }

  lemma LoosenedKeepsInv(w: World, after: Table)
    requires Inv(w) && TableLoosened(w.rows, after)
    ensures Inv(w.(rows := after))
  {
    hide Loosened, RowInv, KindOf;
    var w' := w.(rows := after);
    forall i <- after
      ensures RowInv(after[i]) && OwnerInv(w', i) && ReplyClaims(w.claims, i) == after[i].replyAttemptCount
    {
      assert Loosened(w.rows[i], after[i]);
      assert OwnerInv(w, i);
      LoosenedOwner(w, w', i);
    }
    LoosenedOrder(w.rows, after);
    forall t | 0 <= t < |w.claims|
      ensures ClaimInv(w', t)
    {
      assert ClaimInv(w, t);
      LoosenedClaim(w, w', t);
    }
  }

  lemma LoosenedOwner(w: World, after: World, i: int)
    requires i in w.rows && i in after.rows && Loosened(w.rows[i], after.rows[i]) && OwnerInv(w, i)
    requires after.claims == w.claims
    ensures RowInv(after.rows[i]) && OwnerInv(after, i)
    ensures after.rows[i].replyAttemptCount == w.rows[i].replyAttemptCount
  {
  }

  lemma LoosenedClaim(w: World, after: World, t: Token)
    requires t < |w.claims| && ClaimInv(w, t) && TableLoosened(w.rows, after.rows)
    requires after.claims == w.claims && after.workers == w.workers
    ensures ClaimInv(after, t)
  {
    var id := w.claims[t].request;
    assert Loosened(w.rows[id], after.rows[id]);
  }

  lemma LoosenedOrder(rows: Table, after: Table)
    requires OrderInv(rows) && TableLoosened(rows, after)
    ensures OrderInv(after)
  {
    forall i, j | i in after && j in after && i < j && SameVideo(after, i, j) && after[j].status == Processing
      ensures Terminal(after[i])
    {
      assert Loosened(rows[i], after[i]) && Loosened(rows[j], after[j]);
      assert SameVideo(rows, i, j);
    }
  }

  /** Loosening one row. */
  lemma LoosenOne(w: World, id: int, r: Request)
    requires Inv(w) && id in w.rows && Loosened(w.rows[id], r)
    ensures Inv(w.(rows := w.rows[id := r]))
  {
    var after := w.rows[id := r];
    assert TableLoosened(w.rows, after) by {
      hide Loosened;
      forall i <- w.rows
        ensures Loosened(w.rows[i], after[i])
      {
        if i != id {
          LoosenedNothing(w.rows[i]);
        }
      }
    }
    LoosenedKeepsInv(w, after);
  }

  lemma SweepKeepsInv(w: World, now: real)
    requires Inv(w)
    ensures Inv(w.(rows := Sweep(w.rows, now)))
    ensures TableLoosened(w.rows, Sweep(w.rows, now))
  {
    var after := Sweep(w.rows, now);
    assert TableLoosened(w.rows, after) by {
      forall i <- w.rows
        ensures Loosened(w.rows[i], after[i])
      {
        SweepLoosens(w.rows[i], now);
        hide SweepRow, Loosened;
      }
    }
    LoosenedKeepsInv(w, after);
  }

  // -------------------------------------------------------------- the claim

  lemma CountsAppend(claims: seq<Claim>, c: Claim, id: int)
    ensures ReplyClaims(claims + [c], id)
      == ReplyClaims(claims, id) + (if c.request == id && c.kind == ReplyKind then 1 else 0)
    ensures Sends(claims + [c], id) == Sends(claims, id) + (if c.request == id then c.sends else 0)
  {
    assert (claims + [c])[..|claims|] == claims;
  }

  lemma {:induction false} CountsUpdate(claims: seq<Claim>, t: Token, sends: nat, id: int)
    requires t < |claims|
    ensures var after := claims[t := claims[t].(sends := sends)];
      && ReplyClaims(after, id) == ReplyClaims(claims, id)
      && Sends(after, id) == Sends(claims, id) + (if claims[t].request == id then sends - claims[t].sends else 0)
    decreases |claims|
  {
    var after := claims[t := claims[t].(sends := sends)];
    var n := |claims| - 1;
    if t == n {
      assert after[..n] == claims[..n];
    } else {
      CountsUpdate(claims[..n], t, sends, id);
      assert after[..n] == claims[..n][t := claims[t].(sends := sends)];
    }
  }

  ghost predicate MayClaim(rows: Table, c: int, kind: Kind) {
    && c in rows
    && RowInv(rows[c])
    && rows[c].authorized
    && rows[c].leaseToken.None?
    && match kind
       case ProcessingKind => Live(rows[c]) && forall i <- rows :: !OlderLive(rows, i, c)
       case ReplyKind =>
         Terminal(rows[c]) && ReplyWaiting(rows[c]) && rows[c].replyAttemptCount < Max(1, rows[c].replyMaxAttempts)
  }

  lemma ClaimedRow(r: Request, kind: Kind, token: Token, now: real)
    requires RowInv(r) && r.leaseToken.None? && r.authorized
    requires kind == ReplyKind ==> Terminal(r) && r.replyAttemptCount < Max(1, r.replyMaxAttempts)
    requires kind == ProcessingKind ==> Live(r)
    ensures var after := ClaimRow(r, kind, token, now);
      && RowInv(after)
      && after.leaseToken == Some(token)
      && KindOf(after) == kind
      && Terminal(after) == Terminal(r)
      && after.videoId == r.videoId
      && after.replyAttemptCount == r.replyAttemptCount + (if kind == ReplyKind then 1 else 0)
  {
  }

  lemma ClaimOrder(rows: Table, c: int, r: Request, kind: Kind)
    requires OrderInv(rows) && MayClaim(rows, c, kind)
    requires Terminal(r) == Terminal(rows[c]) && r.videoId == rows[c].videoId && KindOf(r) == kind
    ensures OrderInv(rows[c := r])
  {
    var after := rows[c := r];
    forall i, j | i in after && j in after && i < j && SameVideo(after, i, j) && after[j].status == Processing
      ensures Terminal(after[i])
    {
      assert SameVideo(rows, i, j);
      if j == c {
        assert !OlderLive(rows, i, c);
      }
    }
  }

  lemma ClaimKeepsInv(w: World, c: int, kind: Kind, now: real)
    requires Inv(w) && MayClaim(w.rows, c, kind)
    ensures var token := |w.claims|;
      Inv(World(w.rows[c := ClaimRow(w.rows[c], kind, token, now)], w.claims + [Claim(c, kind, 0)],
                w.workers[token := Started]))
  {
    var token := |w.claims|;
    var r := ClaimRow(w.rows[c], kind, token, now);
    ClaimedRow(w.rows[c], kind, token, now);
    hide ClaimRow;
    ClaimOrder(w.rows, c, r, kind);
    hide RowInv, KindOf, OrderInv;
    var after := World(w.rows[c := r], w.claims + [Claim(c, kind, 0)], w.workers[token := Started]);
    forall i <- after.rows
      ensures RowInv(after.rows[i]) && OwnerInv(after, i)
      ensures ReplyClaims(after.claims, i) == after.rows[i].replyAttemptCount
    {
      CountsAppend(w.claims, Claim(c, kind, 0), i);
      if i != c {
        assert OwnerInv(w, i);
      }
    }
    forall t | 0 <= t < |after.claims|
      ensures ClaimInv(after, t)
    {
      if t < token {
        assert ClaimInv(w, t);
      }
    }
  }

  lemma CandidateMayClaim(w: World, c: int, leader: Option<int>, selectAt: real)
    requires Inv(w) && IsCandidate(w.rows, selectAt, c) && IsLeader(w.rows, c, leader) && w.rows[c].authorized
    requires Terminal(w.rows[c]) && ReplyWaiting(w.rows[c]) ==>
      w.rows[c].replyAttemptCount < Max(1, w.rows[c].replyMaxAttempts)
    ensures ProcessingDue(w.rows[c], selectAt) && leader.None? ==> MayClaim(w.rows, c, ProcessingKind)
    ensures !ProcessingDue(w.rows[c], selectAt) ==> MayClaim(w.rows, c, ReplyKind)
  {
  }

  lemma ActKeepsInv(w: World, rows: Table, c: int, leader: Option<int>, selectAt: real, actAt: real)
    requires Inv(w.(rows := rows)) && IsCandidate(rows, selectAt, c) && IsLeader(rows, c, leader)
    requires Terminal(rows[c]) && ReplyWaiting(rows[c]) ==>
      rows[c].replyAttemptCount < Max(1, rows[c].replyMaxAttempts)
    ensures Inv(Act(w, rows, c, leader, selectAt, actAt))
  {
    var w0 := w.(rows := rows);
    var r := rows[c];
    assert RowInv(r);
    hide Inv;
    if !r.authorized {
      SuppressLoosens(r);
      LoosenOne(w0, c, SuppressRow(r));
    } else {
      CandidateMayClaim(w0, c, leader, selectAt);
      if ProcessingDue(r, selectAt) && leader.Some? {
        DeferLoosens(r, rows[leader.value], selectAt, actAt);
        LoosenOne(w0, c, DeferRow(r, rows[leader.value], actAt));
      } else {
        hide MayClaim, ClaimRow, IsCandidate, IsLeader;
        ClaimKeepsInv(w0, c, if ProcessingDue(r, selectAt) then ProcessingKind else ReplyKind, actAt);
      }
    }
  }

  lemma ProcessingKeepsInv(w: World, e: Event)
    requires Inv(w) && e.ProcessedNext? && Enabled(w, e)
    ensures Inv(Apply(w, e))
  {
    SweepKeepsInv(w, e.sweepAt);
    if e.candidate.Some? {
      var c := e.candidate.value;
      var rows := Sweep(w.rows, e.sweepAt);
      assert rows[c] == SweepRow(w.rows[c], e.sweepAt);
      SweepLoosens(w.rows[c], e.sweepAt);
      hide Inv, SweepRow, Loosened, TableLoosened, IsCandidate, IsLeader, Act;
      ActKeepsInv(w, rows, c, e.leader, e.selectAt, e.actAt);
    }
  }

  lemma ArrivalKeepsInv(w: World, id: int, r: Request)
    requires Inv(w) && NewRequest(w.rows, id, r)
    ensures Inv(w.(rows := w.rows[id := r]))
  {
    var after := w.(rows := w.rows[id := r]);
    NoClaims(w, id);
    forall i <- after.rows
      ensures RowInv(after.rows[i]) && OwnerInv(after, i)
      ensures ReplyClaims(after.claims, i) == after.rows[i].replyAttemptCount
    {
      if i != id {
        assert OwnerInv(w, i);
      }
    }
    forall t | 0 <= t < |w.claims|
      ensures ClaimInv(after, t)
    {
      assert ClaimInv(w, t);
    }
    forall i, j | i in after.rows && j in after.rows && i < j && SameVideo(after.rows, i, j)
      && after.rows[j].status == Processing
      ensures Terminal(after.rows[i])
    {
      assert SameVideo(w.rows, i, j);
    }
  }

  lemma NoClaims(w: World, id: int)
    requires Inv(w) && id !in w.rows
    ensures ReplyClaims(w.claims, id) == 0
  {
    forall t | 0 <= t < |w.claims|
      ensures w.claims[t].request != id
    {
      assert ClaimInv(w, t);
    }
    CountsOfOthers(w.claims, id);
  }

  lemma {:induction false} CountsOfOthers(claims: seq<Claim>, id: int)
    requires forall t :: 0 <= t < |claims| ==> claims[t].request != id
    ensures ReplyClaims(claims, id) == 0 == Sends(claims, id)
  {
    if claims != [] {
      CountsOfOthers(claims[..|claims| - 1], id);
    }
  }

  /** Workers that come, go and look. */
  lemma WorkersKeepInv(w: World, workers: map<Token, Phase>)
    requires Inv(w)
    requires forall t <- workers :: t < |w.claims| && (!workers[t].Answered? ==> w.claims[t].sends == 0)
    ensures Inv(w.(workers := workers))
  {
    var after := w.(workers := workers);
    forall i <- after.rows
      ensures OwnerInv(after, i)
    {
      assert OwnerInv(w, i);
    }
    forall t | 0 <= t < |w.claims|
      ensures ClaimInv(after, t)
    {
      assert ClaimInv(w, t);
    }
  }

  lemma SendKeepsInv(w: World, token: Token, result: SendResult)
    requires Inv(w) && Enabled(w, ReplySent(token, result))
    ensures Inv(Apply(w, ReplySent(token, result)))
  {
    var after := Apply(w, ReplySent(token, result));
    assert ClaimInv(w, token);
    forall i <- after.rows
      ensures OwnerInv(after, i)
      ensures ReplyClaims(after.claims, i) == after.rows[i].replyAttemptCount
    {
      assert OwnerInv(w, i);
      CountsUpdate(w.claims, token, w.claims[token].sends + 1, i);
    }
    forall t | 0 <= t < |w.claims|
      ensures ClaimInv(after, t)
    {
      assert ClaimInv(w, t);
    }
  }

  /** A worker's own token means that the row is still in its kind of work. */
  lemma OwnKind(w: World, token: Token, kind: Kind)
    requires Inv(w) && Working(w, token, kind)
    ensures var r := RequestOf(w, token);
      RowInv(r) && (r.leaseToken == Some(token) ==> KindOf(r) == kind)
  {
    assert OwnerInv(w, w.claims[token].request);
  }

  lemma StepKeepsInv(w: World, e: Event)
    requires Inv(w) && Enabled(w, e)
    ensures Inv(Apply(w, e))
  {
    match e {
      case Arrived(id, r) => ArrivalKeepsInv(w, id, r);
      case ProcessedNext(_, _, _, _, _) => ProcessingKeepsInv(w, e);
      case ReplySent(token, result) => SendKeepsInv(w, token, result);
      case WorkerGone(token) =>
        WorkersStay(w);
        hide Inv;
        WorkersKeepInv(w, w.workers - {token});
      case _ => WorkerStepKeepsInv(w, e);
    }
  }

  lemma WorkersStay(w: World)
    requires Inv(w)
    ensures forall t <- w.workers :: t < |w.claims| && (!w.workers[t].Answered? ==> w.claims[t].sends == 0)
  {
    forall t <- w.workers
      ensures t < |w.claims| && (!w.workers[t].Answered? ==> w.claims[t].sends == 0)
    {
      assert ClaimInv(w, t);
    }
  }

  lemma WriteKeepsInv(w: World, token: Token, r: Request)
    requires Inv(w) && token in w.workers && w.claims[token].request in w.rows && Loosened(RequestOf(w, token), r)
    ensures Inv(Write(w, token, r)) && Inv(Leave(Write(w, token, r), token))
  {
    LoosenOne(w, w.claims[token].request, r);
    var after := Write(w, token, r);
    WorkersStay(after);
    hide Inv, Loosened;
    WorkersKeepInv(after, after.workers - {token});
  }

  lemma WorkerStepKeepsInv(w: World, e: Event)
    requires Inv(w) && Enabled(w, e)
    requires e.AttemptCounted? || e.Finished? || e.ReplyLoaded? || e.ReplyChecked? || e.ReplyWritten?
    ensures Inv(Apply(w, e))
  {
    var token := e.token;
    OwnKind(w, token, w.claims[token].kind);
    WorkersStay(w);
    var r := RequestOf(w, token);
    hide Inv, RowInv;
    match e {
      case Finished(_, status, error, at, delay, refund) =>
        FinishLoosens(r, token, status, error, at, delay, refund);
        WriteKeepsInv(w, token, FinishRow(r, token, status, error, at, delay, refund));
      case ReplyWritten(_, at) =>
        var phase := w.workers[token];
        ReplyLoosens(r, token, phase.attempts, phase.result, at);
        WriteKeepsInv(w, token, ReplyRow(r, token, phase.attempts, phase.result, at));
      case AttemptCounted(_) =>
        CountLoosens(r);
        WriteKeepsInv(w, token, r.(attemptCount := r.attemptCount + 1));
        WorkersKeepInv(w, w.workers - {token});
      case ReplyLoaded(_) =>
        WorkersKeepInv(w, w.workers - {token});
        WorkersKeepInv(w, w.workers[token := Loaded(r.replyAttemptCount)]);
      case ReplyChecked(_) =>
        WorkersKeepInv(w, w.workers - {token});
        WorkersKeepInv(w, w.workers[token := Ready(w.workers[token].attempts)]);
    }
  }

  lemma CountLoosens(r: Request)
    requires RowInv(r)
    ensures Loosened(r, r.(attemptCount := r.attemptCount + 1))
  {
  }

  lemma {:induction false} RunKeepsInv(w: World, log: seq<Event>)
    requires Inv(w) && Legal(w, log)
    ensures Inv(After(w, log))
    decreases |log|
  {
    if log != [] {
      RunKeepsInv(w, log[..|log| - 1]);
      StepKeepsInv(After(w, log[..|log| - 1]), log[|log| - 1]);
    }
  }

  lemma ReachedInv(log: seq<Event>, w: World)
    requires Reached(log, w)
    ensures Inv(w)
  {
    RunKeepsInv(EmptyWorld(), log);
  }

  // -------------------------------------------------------- per-video order

  /** In every reachable state a request in processing is the lowest-id live
      request for its video; so no two requests for a video are in processing. */
  lemma ProcessingIsOldest(log: seq<Event>, w: World, i: int, j: int)
    requires Reached(log, w) && i in w.rows && j in w.rows && i != j && SameVideo(w.rows, i, j)
    requires w.rows[j].status == Processing
    ensures w.rows[i].status != Processing
    ensures Live(w.rows[i]) ==> j < i
  {
    ReachedInv(log, w);
    assert SameVideo(w.rows, j, i) by {
      assert w.rows[i].videoId == w.rows[j].videoId;
    }
  }

  /** Content work for a video finishes in id order, despite expired leases and
      crashes: a result lands only when every older request has ended. */
  lemma ContentFinishesInOrder(log: seq<Event>, w: World, e: Event, i: int)
    requires Reached(log, w) && Enabled(w, e) && e.Finished? && i in w.rows
    requires Apply(w, e).rows != w.rows
    requires i < w.claims[e.token].request && SameVideo(w.rows, i, w.claims[e.token].request)
    ensures Terminal(w.rows[i])
  {
    ReachedInv(log, w);
    OwnKind(w, e.token, ProcessingKind);
    WriteNothing(w, e.token);
  }

  lemma WriteNothing(w: World, token: Token)
    requires token < |w.claims| && w.claims[token].request in w.rows
    ensures Write(w, token, RequestOf(w, token)).rows == w.rows
  {
  }

  // ---------------------------------------------------------------- leases

  /** A token is present exactly while the request is processing or its reply is
      sending, and it is never both. */
  lemma TokenMeaning(log: seq<Event>, w: World, id: int)
    requires Reached(log, w) && id in w.rows
    ensures w.rows[id].leaseToken.Some? <==> w.rows[id].status == Processing || w.rows[id].replyStatus == Sending
    ensures !(w.rows[id].status == Processing && w.rows[id].replyStatus == Sending)
  {
    ReachedInv(log, w);
    assert RowInv(w.rows[id]);
  }

  /** Fencing: a worker's result lands exactly while its token is on the row, and
      then its claim is the latest claim of the row and still in its work. */
  lemma WriteLandsIffOwned(log: seq<Event>, w: World, e: Event)
    requires Reached(log, w) && Enabled(w, e) && (e.Finished? || e.ReplyWritten?)
    ensures var r := RequestOf(w, e.token);
      && (Apply(w, e).rows != w.rows <==> r.leaseToken == Some(e.token))
      && (r.leaseToken == Some(e.token) ==>
            && (forall u :: e.token < u < |w.claims| ==> w.claims[u].request != w.claims[e.token].request)
            && (if e.Finished? then r.status == Processing else r.replyStatus == Sending))
  {
    ReachedInv(log, w);
    var id := w.claims[e.token].request;
    OwnKind(w, e.token, w.claims[e.token].kind);
    assert OwnerInv(w, id);
    WriteNothing(w, e.token);
    if w.rows[id].leaseToken == Some(e.token) {
      assert Apply(w, e).rows[id].leaseToken.None?;
    }
  }

  /** What one step can do to a request that is already there. */
  ghost predicate Taken(w: World, e: Event, id: int)
    requires id in w.rows
  {
    && Enabled(w, e)
    && e.ProcessedNext?
    && e.candidate == Some(id)
    && var r := SweepRow(w.rows[id], e.sweepAt);
      && Loosened(w.rows[id], r)
      && r.replyStatus != Sent
      && exists kind ::
           && Apply(w, e).rows[id] == ClaimRow(r, kind, |w.claims|, e.actAt)
           && (kind == ProcessingKind ==> Live(r))
  }

  lemma StepEffect(w: World, e: Event, id: int)
    requires Inv(w) && Enabled(w, e) && id in w.rows
    ensures id in Apply(w, e).rows
    ensures Loosened(w.rows[id], Apply(w, e).rows[id]) || Taken(w, e, id)
  {
    assert RowInv(w.rows[id]);
    LoosenedNothing(w.rows[id]);
    if e.ProcessedNext? {
      SweepLoosens(w.rows[id], e.sweepAt);
      hide Inv, SweepRow, IsLeader;
      if e.candidate == Some(id) {
        ActEffect(w, e, id);
      }
    } else if e.Finished? || e.ReplyWritten? {
      var token := e.token;
      OwnKind(w, token, w.claims[token].kind);
      hide Inv, RowInv, Loosened;
      if w.claims[token].request == id {
        if e.Finished? {
          FinishLoosens(w.rows[id], token, e.status, e.error, e.at, e.delay, e.refund);
        } else {
          var phase := w.workers[token];
          ReplyLoosens(w.rows[id], token, phase.attempts, phase.result, e.at);
        }
      }
    } else if e.AttemptCounted? {
      CountLoosens(w.rows[id]);
      hide Inv, RowInv, Loosened;
    } else {
      hide Inv, RowInv, Loosened;
    }
  }

  lemma LoosenedTwice(a: Request, b: Request, c: Request)
    requires Loosened(a, b) && Loosened(b, c)
    ensures Loosened(a, c)
  {
  }

  lemma ActEffect(w: World, e: Event, id: int)
    requires Enabled(w, e) && id in w.rows && e.ProcessedNext? && e.candidate == Some(id)
    requires Loosened(w.rows[id], SweepRow(w.rows[id], e.sweepAt))
    ensures Loosened(w.rows[id], Apply(w, e).rows[id]) || Taken(w, e, id)
  {
    var rows := Sweep(w.rows, e.sweepAt);
    var r := rows[id];
    assert r == SweepRow(w.rows[id], e.sweepAt);
    hide SweepRow;
    if !r.authorized {
      SuppressLoosens(r);
      LoosenedTwice(w.rows[id], r, SuppressRow(r));
    } else if ProcessingDue(r, e.selectAt) && e.leader.Some? {
      DeferLoosens(r, rows[e.leader.value], e.selectAt, e.actAt);
      LoosenedTwice(w.rows[id], r, DeferRow(r, rows[e.leader.value], e.actAt));
    } else {
      var kind := if ProcessingDue(r, e.selectAt) then ProcessingKind else ReplyKind;
      assert Apply(w, e).rows[id] == ClaimRow(r, kind, |w.claims|, e.actAt);
      assert Taken(w, e, id);
    }
  }

  /** What never comes back at a request: a lost claim, an ended status with its
      error, a sent reply. */
  ghost predicate Settled(before: Request, after: Request, claimed: nat) {
    && (forall t: Token :: t < claimed && before.leaseToken != Some(t) ==> after.leaseToken != Some(t))
    && (Terminal(before) ==> after.status == before.status && after.lastError == before.lastError)
    && (before.replyStatus == Sent ==> after.replyStatus == Sent)
  }

  lemma StepSettles(w: World, e: Event, id: int)
    requires Inv(w) && Enabled(w, e) && id in w.rows
    ensures id in Apply(w, e).rows && |w.claims| <= |Apply(w, e).claims|
    ensures Settled(w.rows[id], Apply(w, e).rows[id], |w.claims|)
  {
    StepEffect(w, e, id);
    hide Inv, RowInv, SweepRow;
  }

  lemma {:induction false} RunSettles(w: World, log: seq<Event>, id: int)
    requires Inv(w) && Legal(w, log) && id in w.rows
    ensures id in After(w, log).rows && |w.claims| <= |After(w, log).claims|
    ensures Settled(w.rows[id], After(w, log).rows[id], |w.claims|)
    decreases |log|
  {
    if log != [] {
      var before := log[..|log| - 1];
      RunSettles(w, before, id);
      RunKeepsInv(w, before);
      StepSettles(After(w, before), log[|log| - 1], id);
      hide Inv, Enabled, Apply;
    }
  }

  /** A claim that has been recovered, suppressed or finished is lost for good:
      whatever happens next, no later write of its worker lands. */
  lemma LostClaimStaysLost(log: seq<Event>, w: World, further: seq<Event>, token: Token)
    requires Reached(log, w) && Legal(w, further) && token < |w.claims|
    requires w.claims[token].request in w.rows && RequestOf(w, token).leaseToken != Some(token)
    ensures w.claims[token].request in After(w, further).rows
    ensures After(w, further).rows[w.claims[token].request].leaseToken != Some(token)
  {
    ReachedInv(log, w);
    RunSettles(w, further, w.claims[token].request);
  }

  /** Once a request has ended, its status and its error never change again, and
      a sent reply stays sent. */
  lemma EndedRequestIsFrozen(log: seq<Event>, w: World, further: seq<Event>, id: int)
    requires Reached(log, w) && Legal(w, further) && id in w.rows
    ensures id in After(w, further).rows
    ensures Terminal(w.rows[id]) ==>
      && After(w, further).rows[id].status == w.rows[id].status
      && After(w, further).rows[id].lastError == w.rows[id].lastError
    ensures w.rows[id].replyStatus == Sent ==> After(w, further).rows[id].replyStatus == Sent
  {
    ReachedInv(log, w);
    RunSettles(w, further, id);
  }

  // --------------------------------------------------------------- replies

  /** `Sends` counts the messages: a step adds one exactly when it sends one. */
  lemma SendsCountsMessages(log: seq<Event>, w: World, e: Event, id: int)
    requires Reached(log, w) && Enabled(w, e)
    ensures Sends(Apply(w, e).claims, id)
      == Sends(w.claims, id) + (if e.ReplySent? && w.claims[e.token].request == id then 1 else 0)
  {
    if e.ProcessedNext? && e.candidate.Some? {
      var c := e.candidate.value;
      CountsAppend(w.claims, Claim(c, ProcessingKind, 0), id);
      CountsAppend(w.claims, Claim(c, ReplyKind, 0), id);
    } else if e.ReplySent? {
      CountsUpdate(w.claims, e.token, w.claims[e.token].sends + 1, id);
    }
  }

  lemma {:induction false} SendsWithinClaims(claims: seq<Claim>, id: int)
    requires forall t :: 0 <= t < |claims| ==>
      claims[t].sends <= 1 && (claims[t].kind == ProcessingKind ==> claims[t].sends == 0)
    ensures Sends(claims, id) <= ReplyClaims(claims, id)
    decreases |claims|
  {
    if claims != [] {
      SendsWithinClaims(claims[..|claims| - 1], id);
    }
  }

  /** Under any interleaving, with stalled and resumed workers, a request causes
      at most `reply_max_attempts` messages, provided that this is at least one;
      otherwise there can be one message (`ReplyLimitKeptIff`). */
  lemma RepliesAreBounded(log: seq<Event>, w: World, id: int)
    requires Reached(log, w) && id in w.rows
    ensures Sends(w.claims, id) <= w.rows[id].replyAttemptCount <= Max(1, w.rows[id].replyMaxAttempts)
  {
    ReachedInv(log, w);
    forall t | 0 <= t < |w.claims|
      ensures w.claims[t].sends <= 1 && (w.claims[t].kind == ProcessingKind ==> w.claims[t].sends == 0)
    {
      assert ClaimInv(w, t);
    }
    SendsWithinClaims(w.claims, id);
    assert RowInv(w.rows[id]);
  }

  /** No message before the request has ended, and none from a worker that has
      sent one already. */
  lemma SendNeedsEndedRequest(log: seq<Event>, w: World, token: Token, result: SendResult)
    requires Reached(log, w) && Enabled(w, ReplySent(token, result))
    ensures Terminal(RequestOf(w, token)) && w.claims[token].sends == 0
  {
    ReachedInv(log, w);
    assert ClaimInv(w, token);
  }

  // ------------------------------------------------- one worker at a time

  /** Every claim transaction starts when no earlier worker is at work: it has
      finished or is gone. */
  ghost predicate OneAtATime(w: World, log: seq<Event>)
    requires Legal(w, log)
    decreases |log|
  {
    if log == [] then true
    else
      var before := log[..|log| - 1];
      OneAtATime(w, before) && (log[|log| - 1].ProcessedNext? ==> After(w, before).workers == map[])
  }

  /** Every worker still holds the row that it claimed. */
  ghost predicate AllOwn(w: World) {
    forall t <- w.workers :: t < |w.claims| && w.claims[t].request in w.rows && RequestOf(w, t).leaseToken == Some(t)
  }

  lemma StepKeepsOwnership(w: World, e: Event)
    requires Inv(w) && Enabled(w, e) && AllOwn(w) && (e.ProcessedNext? ==> w.workers == map[])
    ensures AllOwn(Apply(w, e))
  {
    hide Inv, SweepRow, FinishRow, ReplyRow;
    var after := Apply(w, e);
    forall t <- after.workers
      ensures t < |after.claims| && after.claims[t].request in after.rows && RequestOf(after, t).leaseToken == Some(t)
    {
      if (e.Finished? || e.ReplyWritten? || e.AttemptCounted?) && t != e.token {
        assert RequestOf(w, t).leaseToken == Some(t);
      }
    }
  }

  lemma {:induction false} RunKeepsOwnership(w: World, log: seq<Event>)
    requires Inv(w) && AllOwn(w) && Legal(w, log) && OneAtATime(w, log)
    ensures AllOwn(After(w, log))
    decreases |log|
  {
    if log != [] {
      var before := log[..|log| - 1];
      RunKeepsOwnership(w, before);
      RunKeepsInv(w, before);
      StepKeepsOwnership(After(w, before), log[|log| - 1]);
    }
  }

  /** With one worker at a time, and crashes anywhere, no message follows a
      reply that is recorded as sent. */
  lemma NoMessageAfterSent(log: seq<Event>, w: World, token: Token, result: SendResult)
    requires Reached(log, w) && OneAtATime(EmptyWorld(), log) && Enabled(w, ReplySent(token, result))
    ensures RequestOf(w, token).leaseToken == Some(token)
    ensures RequestOf(w, token).replyStatus == Sending
  {
    ReachedInv(log, w);
    RunKeepsOwnership(EmptyWorld(), log);
    OwnKind(w, token, ReplyKind);
  }

  // ------------------------------------------------------- late sweeps

  /** The writes that end a claim. */
  predicate EndsClaim(e: Event, token: Token) {
    (e.Finished? || e.ReplyWritten?) && e.token == token
  }

  predicate LateSweep(e: Event, lease: real) {
    e.ProcessedNext? && e.sweepAt > lease
  }

  ghost predicate NoLateSweep(log: seq<Event>, lease: real) {
    forall k :: 0 <= k < |log| ==> !LateSweep(log[k], lease)
  }

  ghost predicate NoResultOf(log: seq<Event>, token: Token) {
    forall k :: 0 <= k < |log| ==> !EndsClaim(log[k], token)
  }

  predicate Holds(rows: Table, id: int, token: Token, lease: real) {
    id in rows && rows[id].leaseToken == Some(token) && rows[id].leaseExpiresAt == Some(lease)
  }

  /** A step other than its own result takes the lease exactly when it is a claim
      transaction that sweeps after the lease. */
  lemma StepTakesLeaseIff(w: World, e: Event, id: int, token: Token, lease: real)
    requires Inv(w) && Enabled(w, e) && Holds(w.rows, id, token, lease) && !EndsClaim(e, token)
    ensures if LateSweep(e, lease) then Apply(w, e).rows[id].leaseToken != Some(token)
      else Holds(Apply(w, e).rows, id, token, lease)
  {
    assert OwnerInv(w, id) && RowInv(w.rows[id]);
    if e.ProcessedNext? {
      var swept := SweepRow(w.rows[id], e.sweepAt);
      assert if LateSweep(e, lease) then swept.leaseToken.None? else swept == w.rows[id];
      hide Inv, OwnerInv, IsLeader;
    } else {
      hide Inv;
    }
  }

  lemma StepKeepsClaims(w: World, e: Event)
    requires Enabled(w, e)
    ensures |w.claims| <= |Apply(w, e).claims|
    ensures forall t: Token :: t < |w.claims| ==> Apply(w, e).claims[t].request == w.claims[t].request
  {
    hide Sweep, FinishRow, ReplyRow, IsCandidate, IsLeader, SuppressRow, DeferRow, ClaimRow, NewRequest, Due;
  }

  lemma {:induction false} ClaimsStay(w: World, further: seq<Event>)
    requires Legal(w, further)
    ensures |w.claims| <= |After(w, further).claims|
    ensures forall t: Token :: t < |w.claims| ==> After(w, further).claims[t].request == w.claims[t].request
    decreases |further|
  {
    hide Enabled, Apply;
    if further != [] {
      ClaimsStay(w, further[..|further| - 1]);
      StepKeepsClaims(After(w, further[..|further| - 1]), further[|further| - 1]);
    }
  }

  lemma HeldStep(w: World, e: Event, id: int, token: Token, lease: real, held: bool)
    requires Inv(w) && Enabled(w, e) && id in w.rows && token < |w.claims| && !EndsClaim(e, token)
    requires if held then Holds(w.rows, id, token, lease) else w.rows[id].leaseToken != Some(token)
    ensures id in Apply(w, e).rows
    ensures if held && !LateSweep(e, lease) then Holds(Apply(w, e).rows, id, token, lease)
      else Apply(w, e).rows[id].leaseToken != Some(token)
  {
    StepSettles(w, e, id);
    hide Apply, Enabled, Inv;
    if held {
      StepTakesLeaseIff(w, e, id, token, lease);
    }
  }

  lemma SweepsAppend(log: seq<Event>, e: Event, lease: real, token: Token)
    ensures NoLateSweep(log + [e], lease) <==> NoLateSweep(log, lease) && !LateSweep(e, lease)
    ensures NoResultOf(log + [e], token) ==> NoResultOf(log, token) && !EndsClaim(e, token)
  {
    hide LateSweep, EndsClaim;
    var all := log + [e];
    assert all[|log|] == e;
    assert forall k :: 0 <= k < |log| ==> all[k] == log[k];
  }

  lemma HolderClaimed(w: World, id: int, token: Token, lease: real)
    requires Inv(w) && Holds(w.rows, id, token, lease)
    ensures token < |w.claims|
  {
    assert OwnerInv(w, id);
  }

  /** A claim is kept exactly as long as no claim transaction sweeps after its
      lease, whatever else happens before its worker writes its result. */
  lemma {:induction false} ClaimHeldIff(w: World, further: seq<Event>, id: int, token: Token, lease: real)
    requires Inv(w) && Legal(w, further) && Holds(w.rows, id, token, lease) && NoResultOf(further, token)
    ensures id in After(w, further).rows
    ensures After(w, further).rows[id].leaseToken == Some(token) <==> NoLateSweep(further, lease)
    ensures NoLateSweep(further, lease) ==> Holds(After(w, further).rows, id, token, lease)
    decreases |further|
  {
    hide Inv, Enabled, Apply, NoResultOf;
    if further != [] {
      var before, e := further[..|further| - 1], further[|further| - 1];
      assert before + [e] == further;
      SweepsAppend(before, e, lease, token);
      hide NoLateSweep, LateSweep;
      ClaimHeldIff(w, before, id, token, lease);
      RunKeepsInv(w, before);
      HolderClaimed(w, id, token, lease);
      ClaimsStay(w, before);
      HeldStep(After(w, before), e, id, token, lease, NoLateSweep(before, lease));
    }
  }

  /** A worker that is still there has not written its result, and was there from
      its claim on. */
  lemma {:induction false} WorkerNeverReturns(w: World, further: seq<Event>, token: Token)
    requires Legal(w, further) && token < |w.claims| && token in After(w, further).workers
    ensures |w.claims| <= |After(w, further).claims|
    ensures token in w.workers && NoResultOf(further, token)
    decreases |further|
  {
    if further != [] {
      var before, e := further[..|further| - 1], further[|further| - 1];
      ClaimsStay(w, before);
      StepKeepsAway(After(w, before), e, token);
      hide Enabled, Apply;
      WorkerNeverReturns(w, before, token);
    }
  }

  lemma StepKeepsAway(w: World, e: Event, token: Token)
    requires Enabled(w, e) && token < |w.claims|
    ensures |w.claims| <= |Apply(w, e).claims|
    ensures token in Apply(w, e).workers ==> token in w.workers && !EndsClaim(e, token)
  {
    hide Sweep, FinishRow, ReplyRow, IsCandidate, IsLeader, SuppressRow, DeferRow, ClaimRow, NewRequest;
  }

  /** What a claim transaction that claims something has done. */
  lemma ClaimSetsLease(w: World, e: Event)
    requires Inv(w) && Enabled(w, e) && |Apply(w, e).claims| > |w.claims|
    ensures var after, token := Apply(w, e), |w.claims|;
      && e.ProcessedNext?
      && |after.claims| == token + 1
      && Holds(after.rows, after.claims[token].request, token, e.actAt + LEASE_SECONDS)
  {
    hide Inv, Sweep, IsCandidate, IsLeader, ProcessingDue;
  }

  /** While the worker of a claim is there, the claim is held exactly if no claim
      transaction has swept after its lease. */
  lemma ClaimSurvivesIff(log: seq<Event>, w: World, e: Event, further: seq<Event>)
    requires Reached(log, w) && Enabled(w, e) && |Apply(w, e).claims| > |w.claims|
    requires Legal(Apply(w, e), further) && |w.claims| in After(Apply(w, e), further).workers
    ensures e.ProcessedNext? && Inv(After(Apply(w, e), further))
    ensures var after, token := After(Apply(w, e), further), |w.claims|;
      && token < |after.claims|
      && after.claims[token].request in after.rows
      && (RequestOf(after, token).leaseToken == Some(token) <==> NoLateSweep(further, e.actAt + LEASE_SECONDS))
  {
    hide Apply, Inv, Enabled;
    var claimed, token := Apply(w, e), |w.claims|;
    ReachedInv(log, w);
    hide Reached;
    StepKeepsInv(w, e);
    ClaimSetsLease(w, e);
    WorkerNeverReturns(claimed, further, token);
    ClaimsStay(claimed, further);
    RunKeepsInv(claimed, further);
    hide NoLateSweep, NoResultOf, Legal;
    ClaimHeldIff(claimed, further, claimed.claims[token].request, token, e.actAt + LEASE_SECONDS);
  }

  /** The exact condition for a message under its own claim.  A claim transaction
      `e` hands out a token; whatever happens until its worker sends, the message
      leaves under the claim exactly if no claim transaction has swept after its
      lease.  So a message follows a sent reply only after such a sweep. */
  lemma MessageUnderClaimIff(log: seq<Event>, w: World, e: Event, further: seq<Event>, result: SendResult)
    requires Reached(log, w) && Enabled(w, e) && |Apply(w, e).claims| > |w.claims|
    requires Legal(Apply(w, e), further)
    requires Enabled(After(Apply(w, e), further), ReplySent(|w.claims|, result))
    ensures e.ProcessedNext?
    ensures var r := RequestOf(After(Apply(w, e), further), |w.claims|);
      && (r.replyStatus == Sending && r.leaseToken == Some(|w.claims|)
          <==> NoLateSweep(further, e.actAt + LEASE_SECONDS))
      && (r.replyStatus == Sent ==> !NoLateSweep(further, e.actAt + LEASE_SECONDS))
  {
    var token := |w.claims|;
    hide Legal, Apply;
    ClaimSurvivesIff(log, w, e, further);
    OwnKind(After(Apply(w, e), further), token, ReplyKind);
    hide Inv, NoLateSweep, Reached;
  }

  // A worker that stalls between its last check and its message, for longer
  // than its lease, sends after another worker's reply was recorded.

  const REJECTED_REQUEST := Request(
    0.0, true, None, Rejected, 0, 3, None, None, None, None, ReplyPending, 0, 3, None)

  lemma Go(log: seq<Event>, w: World, e: Event, after: World)
    requires Reached(log, w) && Enabled(w, e) && Apply(w, e) == after
    ensures Reached(log + [e], after)
  {
    ExtendRun(EmptyWorld(), log, e);
  }

  function OneRow(r: Request, claims: seq<Claim>, workers: map<Token, Phase>): World {
    World(map[1 := r], claims, workers)
  }

  lemma ClaimingReply(w: World, r: Request, now: real)
    requires w.rows == map[1 := r] && ReplyDue(SweepRow(r, now), now) && SweepRow(r, now).authorized
    ensures Enabled(w, ProcessedNext(now, now, now, Some(1), None))
    ensures Apply(w, ProcessedNext(now, now, now, Some(1), None))
      == OneRow(ClaimRow(SweepRow(r, now), ReplyKind, |w.claims|, now), w.claims + [Claim(1, ReplyKind, 0)],
                w.workers[|w.claims| := Started])
  {
    var swept := Sweep(w.rows, now);
    assert swept == map[1 := SweepRow(r, now)];
    assert swept[1 := ClaimRow(SweepRow(r, now), ReplyKind, |w.claims|, now)]
      == map[1 := ClaimRow(SweepRow(r, now), ReplyKind, |w.claims|, now)];
  }

  const FIRST := ClaimRow(REJECTED_REQUEST, ReplyKind, 0, 0.0)
  const SECOND := ClaimRow(SweepRow(FIRST, 4000.0), ReplyKind, 1, 4000.0)
  const UNSENT := Claim(1, ReplyKind, 0)

  lemma FirstWorkerClaims() returns (log: seq<Event>)
    ensures Reached(log, OneRow(FIRST, [UNSENT], map[0 := Started]))
    ensures FIRST.leaseToken == Some(0) && FIRST.replyAttemptCount == 1
  {
    log := [];
    var w1 := OneRow(REJECTED_REQUEST, [], map[]);
    Go(log, EmptyWorld(), Arrived(1, REJECTED_REQUEST), w1);
    log := log + [Arrived(1, REJECTED_REQUEST)];
    assert SweepRow(REJECTED_REQUEST, 0.0) == REJECTED_REQUEST;
    hide SweepRow;
    ClaimingReply(w1, REJECTED_REQUEST, 0.0);
    var e := ProcessedNext(0.0, 0.0, 0.0, Some(1), None);
    assert map[][0 := Started] == map[0 := Started];
    hide Reached, Enabled, Apply;
    Go(log, w1, e, OneRow(FIRST, [UNSENT], map[0 := Started]));
    log := log + [e];
  }

  /** The first worker has made its last check. */
  lemma FirstWorkerReady() returns (log: seq<Event>)
    ensures Reached(log, OneRow(FIRST, [UNSENT], map[0 := Ready(1)]))
  {
    log := FirstWorkerClaims();
    hide ClaimRow, SweepRow, Reached, Enabled, Apply;
    var started := OneRow(FIRST, [UNSENT], map[0 := Started]);
    log := CheckTwice(log, started, FIRST, 0);
    assert started.workers[0 := Ready(1)] == map[0 := Ready(1)];
  }

  lemma CheckTwice(log: seq<Event>, w: World, r: Request, token: Token) returns (further: seq<Event>)
    requires Reached(log, w) && w.rows == map[1 := r] && r.leaseToken == Some(token)
    requires Working(w, token, ReplyKind) && w.workers[token].Started? && w.claims[token].request == 1
    ensures Reached(further, w.(workers := w.workers[token := Ready(r.replyAttemptCount)]))
  {
    var loaded := w.(workers := w.workers[token := Loaded(r.replyAttemptCount)]);
    Go(log, w, ReplyLoaded(token), loaded);
    var ready := w.(workers := w.workers[token := Ready(r.replyAttemptCount)]);
    assert loaded.workers[token := Ready(r.replyAttemptCount)] == ready.workers;
    Go(log + [ReplyLoaded(token)], loaded, ReplyChecked(token), ready);
    further := log + [ReplyLoaded(token)] + [ReplyChecked(token)];
  }

  /** The lease has expired meanwhile, and a second worker is as far. */
  lemma SecondWorkerReady() returns (log: seq<Event>)
    ensures Reached(log, OneRow(SECOND, [UNSENT, UNSENT], map[0 := Ready(1), 1 := Ready(2)]))
  {
    log := FirstWorkerReady();
    var w := OneRow(FIRST, [UNSENT], map[0 := Ready(1)]);
    ClaimingReply(w, FIRST, 4000.0);
    var e := ProcessedNext(4000.0, 4000.0, 4000.0, Some(1), None);
    var w' := Apply(w, e);
    Go(log, w, e, w');
    log := CheckTwice(log + [e], w', SECOND, 1);
    assert w'.workers[1 := Ready(2)] == map[0 := Ready(1), 1 := Ready(2)];
  }

  lemma StalledWorkerCanSendAfterSent() returns (log: seq<Event>, w: World)
    ensures Reached(log, w) && 1 in w.rows && w.rows[1].replyStatus == Sent
    ensures Enabled(w, ReplySent(0, Delivered)) && w.claims[0].request == 1
  {
    log := SecondWorkerReady();
    var ready := OneRow(SECOND, [UNSENT, UNSENT], map[0 := Ready(1), 1 := Ready(2)]);
    var sent := OneRow(SECOND, [UNSENT, UNSENT.(sends := 1)], map[0 := Ready(1), 1 := Answered(2, Delivered)]);
    Go(log, ready, ReplySent(1, Delivered), sent);
    log := log + [ReplySent(1, Delivered)];
    w := Apply(sent, ReplyWritten(1, 4001.0));
    Go(log, sent, ReplyWritten(1, 4001.0), w);
    log := log + [ReplyWritten(1, 4001.0)];
  }

  // A request that fails for exhausted attempts is answered in the very pass
  // that fails it, before its reply limit is looked at.

  /** A request whose workers have died `n` times, each after counting its
      metadata attempt; its attempts are the usual three, its reply limit is 0. */
  function Ailing(n: nat, token: Token): Request {
    Request(
      0.0, true, Some("dQw4w9WgXcQ"), if n == 0 then Pending else Processing, n, 3, None,
      if n == 0 then None else Some(token), if n == 0 then None else Some(ClaimTime(token) + LEASE_SECONDS),
      if n <= 1 then None else Some(LEASE_EXPIRED), ReplyPending, 0, 0, None)
  }

  function ClaimTime(token: Token): real {
    4000.0 * token as real
  }

  function ContentClaims(n: nat): seq<Claim> {
    seq(n, i => Claim(1, ProcessingKind, 0))
  }

  lemma ClaimingContent(w: World, r: Request, now: real)
    requires w.rows == map[1 := r] && ProcessingDue(SweepRow(r, now), now) && SweepRow(r, now).authorized
    ensures Enabled(w, ProcessedNext(now, now, now, Some(1), None))
    ensures Apply(w, ProcessedNext(now, now, now, Some(1), None))
      == OneRow(ClaimRow(SweepRow(r, now), ProcessingKind, |w.claims|, now),
                w.claims + [Claim(1, ProcessingKind, 0)], w.workers[|w.claims| := Started])
  {
    var swept := Sweep(w.rows, now);
    assert swept == map[1 := SweepRow(r, now)];
    assert swept[1 := ClaimRow(SweepRow(r, now), ProcessingKind, |w.claims|, now)]
      == map[1 := ClaimRow(SweepRow(r, now), ProcessingKind, |w.claims|, now)];
  }

  lemma AilingIsClaimed(n: nat)
    requires n < 3
    ensures var r, now := Ailing(n, Max(0, n - 1)), ClaimTime(n);
      && ProcessingDue(SweepRow(r, now), now)
      && SweepRow(r, now).authorized
      && ClaimRow(SweepRow(r, now), ProcessingKind, n, now) == Ailing(n + 1, n).(attemptCount := n)
  {
  }

  /** A worker claims the request, counts its attempt and dies. */
  lemma WorkerDies(log: seq<Event>, n: nat) returns (further: seq<Event>)
    requires n < 3 && Reached(log, OneRow(Ailing(n, Max(0, n - 1)), ContentClaims(n), map[]))
    ensures Reached(further, OneRow(Ailing(n + 1, n), ContentClaims(n + 1), map[]))
  {
    var r, now := Ailing(n, Max(0, n - 1)), ClaimTime(n);
    var w := OneRow(r, ContentClaims(n), map[]);
    AilingIsClaimed(n);
    ClaimingContent(w, r, now);
    var e := ProcessedNext(now, now, now, Some(1), None);
    hide SweepRow, ClaimRow, Reached, ProcessingDue;
    assert ContentClaims(n) + [Claim(1, ProcessingKind, 0)] == ContentClaims(n + 1);
    var claimed := OneRow(Ailing(n + 1, n).(attemptCount := n), ContentClaims(n + 1), map[n := Started]);
    assert map[][n := Started] == map[n := Started];
    Go(log, w, e, claimed);
    var counted := OneRow(Ailing(n + 1, n), ContentClaims(n + 1), map[n := Started]);
    CountingAilment(n);
    Go(log + [e], claimed, AttemptCounted(n), counted);
    var gone := OneRow(Ailing(n + 1, n), ContentClaims(n + 1), map[]);
    assert Leave(counted, n) == gone;
    Go(log + [e] + [AttemptCounted(n)], counted, WorkerGone(n), gone);
    further := log + [e] + [AttemptCounted(n)] + [WorkerGone(n)];
  }

  lemma CountingAilment(n: nat)
    requires n < 3
    ensures var w := OneRow(Ailing(n + 1, n).(attemptCount := n), ContentClaims(n + 1), map[n := Started]);
      && Enabled(w, AttemptCounted(n))
      && Apply(w, AttemptCounted(n)) == OneRow(Ailing(n + 1, n), ContentClaims(n + 1), map[n := Started])
  {
    var r := Ailing(n + 1, n).(attemptCount := n);
    assert map[1 := r][1 := Ailing(n + 1, n)] == map[1 := Ailing(n + 1, n)];
    assert ContentClaims(n + 1)[n] == Claim(1, ProcessingKind, 0);
  }

  const ANSWERED := ClaimRow(SweepRow(Ailing(3, 2), ClaimTime(3)), ReplyKind, 3, ClaimTime(3))

  /** The next pass fails the request and claims its reply. */
  lemma AilingIsAnswered() returns (log: seq<Event>)
    ensures Reached(log, OneRow(ANSWERED, ContentClaims(3) + [UNSENT], map[3 := Started]))
    ensures ANSWERED.leaseToken == Some(3) && ANSWERED.replyAttemptCount == 1
    ensures ANSWERED.replyMaxAttempts == 0 && ANSWERED.maxAttempts == 3
  {
    var w0 := OneRow(Ailing(0, 0), ContentClaims(0), map[]);
    Go([], EmptyWorld(), Arrived(1, Ailing(0, 0)), w0);
    log := [] + [Arrived(1, Ailing(0, 0))];
    log := WorkerDies(log, 0);
    log := WorkerDies(log, 1);
    log := WorkerDies(log, 2);
    var w := OneRow(Ailing(3, 2), ContentClaims(3), map[]);
    ClaimingReply(w, Ailing(3, 2), ClaimTime(3));
    var e := ProcessedNext(ClaimTime(3), ClaimTime(3), ClaimTime(3), Some(1), None);
    assert map[][3 := Started] == map[3 := Started];
    hide Reached, Enabled, Apply;
    Go(log, w, e, OneRow(ANSWERED, ContentClaims(3) + [UNSENT], map[3 := Started]));
    log := log + [e];
  }

  lemma ZeroReplyLimitIsExceeded() returns (log: seq<Event>, w: World)
    ensures Reached(log, w) && 1 in w.rows && w.rows[1].replyMaxAttempts == 0 && w.rows[1].maxAttempts == 3
    ensures Sends(w.claims, 1) == 1
  {
    log := AilingIsAnswered();
    hide ClaimRow, SweepRow;
    var claims := ContentClaims(3) + [UNSENT];
    var started := OneRow(ANSWERED, claims, map[3 := Started]);
    log := CheckTwice(log, started, ANSWERED, 3);
    hide Reached;
    var ready := started.(workers := started.workers[3 := Ready(1)]);
    w := Apply(ready, ReplySent(3, Delivered));
    Go(log, ready, ReplySent(3, Delivered), w);
    log := log + [ReplySent(3, Delivered)];
    CountsUpdate(claims, 3, 1, 1);
    NoContentSends(3);
    CountsAppend(ContentClaims(3), UNSENT, 1);
  }

  lemma {:induction false} NoContentSends(n: nat)
    ensures Sends(ContentClaims(n), 1) == 0
  {
    if n > 0 {
      NoContentSends(n - 1);
      assert ContentClaims(n)[..n - 1] == ContentClaims(n - 1);
    }
  }

  /** Every reachable request with this limit keeps to it. */
  ghost predicate LimitKept(limit: int) {
    forall log, w, id :: Reached(log, w) && id in w.rows && w.rows[id].replyMaxAttempts == limit ==>
      Sends(w.claims, id) <= limit
  }

  /** A reply limit that the table allows is kept exactly if it is at least 1. */
  lemma ReplyLimitKeptIff(limit: nat)
    ensures LimitKept(limit) <==> limit >= 1
  {
    if limit >= 1 {
      forall log, w, id | Reached(log, w) && id in w.rows && w.rows[id].replyMaxAttempts == limit
        ensures Sends(w.claims, id) <= limit
      {
        RepliesAreBounded(log, w, id);
      }
    } else {
      var log, w := ZeroReplyLimitIsExceeded();
    }
  }
}
