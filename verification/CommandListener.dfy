/**
 The intake as it runs: the endpoint's handler
 (app/api/routes/telegram_commands.py) and the listener's loops
 (app/services/telegram_command_listener.py), between whose steps new updates
 arrive and older requests go on.
 */
module CommandListener {
  import opened Prelude
  import opened CommandIntake
  import opened CommandIntakeTheorems

  // ---------------------------------------------------- sorting of a batch

  predicate Sorted(updates: seq<Update>) {
    forall i, j :: 0 <= i < j < |updates| ==> updates[i].id <= updates[j].id
  }

  function InsertInOrder(u: Update, sorted: seq<Update>): seq<Update> {
    if sorted == [] || u.id < sorted[0].id then [u] + sorted else [sorted[0]] + InsertInOrder(u, sorted[1..])
  }

  /** `sorted(updates, key=update_id)`, which is stable. */
  function SortById(updates: seq<Update>): seq<Update> {
    if updates == [] then []
    else InsertInOrder(updates[|updates| - 1], SortById(updates[..|updates| - 1]))
  }

  lemma {:induction false} InsertKeepsContents(u: Update, sorted: seq<Update>)
    ensures multiset(InsertInOrder(u, sorted)) == multiset(sorted) + multiset{u}
  {
    if sorted != [] && u.id >= sorted[0].id {
      InsertKeepsContents(u, sorted[1..]);
      assert sorted == [sorted[0]] + sorted[1..];
    }
  }

  lemma {:induction false} InsertKeepsOrder(u: Update, sorted: seq<Update>, least: int)
    requires Sorted(sorted) && least <= u.id && forall x <- sorted :: least <= x.id
    ensures Sorted(InsertInOrder(u, sorted)) && forall x <- InsertInOrder(u, sorted) :: least <= x.id
  {
    if sorted != [] && u.id >= sorted[0].id {
      InsertKeepsOrder(u, sorted[1..], sorted[0].id);
    }
  }

  lemma InsertKeeps(u: Update, sorted: seq<Update>)
    requires Sorted(sorted)
    ensures Sorted(InsertInOrder(u, sorted))
    ensures multiset(InsertInOrder(u, sorted)) == multiset(sorted) + multiset{u}
  {
    InsertKeepsContents(u, sorted);
    InsertKeepsOrder(u, sorted, if sorted == [] then u.id else Min(u.id, sorted[0].id));
  }

  lemma {:induction false} SortSorts(updates: seq<Update>)
    ensures Sorted(SortById(updates)) && multiset(SortById(updates)) == multiset(updates)
  {
    if updates != [] {
      var n := |updates| - 1;
      SortSorts(updates[..n]);
      InsertKeeps(updates[n], SortById(updates[..n]));
      assert updates == updates[..n] + [updates[n]];
      hide Sorted, InsertInOrder;
    }
  }

  lemma TailContents(a: seq<Update>)
    requires a != []
    ensures multiset(a[1..]) == multiset(a) - multiset{a[0]}
  {
    assert a == [a[0]] + a[1..];
  }

  lemma SameSize(a: seq<Update>, b: seq<Update>)
    requires multiset(a) == multiset(b)
    ensures |a| == |b|
  {
    assert |multiset(a)| == |multiset(b)|;
  }

  lemma SameContents(a: seq<Update>, b: seq<Update>, u: Update)
    requires multiset(a) == multiset(b) && u in a
    ensures u in b
  {
    assert u in multiset(a);
  }

  lemma FirstIsLeast(a: seq<Update>, u: Update)
    requires Sorted(a) && u in a
    ensures a[0].id <= u.id
  {
  }

  lemma SameHead(a: seq<Update>, b: seq<Update>)
    requires a != [] && b != [] && Sorted(a) && Ordered(b) && b[0] in a && a[0] in b
    ensures a[0] == b[0]
  {
    FirstIsLeast(a, b[0]);
    var j :| 0 <= j < |b| && b[j] == a[0];
    assert j == 0;
  }

  lemma TailsInOrder(a: seq<Update>, b: seq<Update>)
    requires a != [] && b != [] && Sorted(a) && Ordered(b)
    ensures Sorted(a[1..]) && Ordered(b[1..])
  {
  }

  /** A sorted batch with distinct ids has only one order. */
  lemma {:induction false} OneOrder(a: seq<Update>, b: seq<Update>)
    requires Sorted(a) && Ordered(b) && multiset(a) == multiset(b)
    ensures a == b
    decreases |b|
  {
    SameSize(a, b);
    if a != [] {
      SameContents(a, b, a[0]);
      SameContents(b, a, b[0]);
      SameHead(a, b);
      TailsInOrder(a, b);
      TailContents(a);
      TailContents(b);
      hide Sorted, Ordered;
      OneOrder(a[1..], b[1..]);
      assert a == [a[0]] + a[1..] && b == [b[0]] + b[1..];
    }
  }

  /** The order in which the server lists a batch does not matter. */
  lemma SortRestoresOrder(updates: seq<Update>, batch: seq<Update>)
    requires multiset(updates) == multiset(batch) && Ordered(batch)
    ensures SortById(updates) == batch
  {
    SortSorts(updates);
    OneOrder(SortById(updates), batch);
  }

  // ------------------------------------------------------------ the system

  /** Events that the listener takes no part in. */
  predicate Elsewhere(e: Event, mine: Option<nat>) {
    match e
    case Posted(_) => true
    case LookedUp(call) => mine != Some(call)
    case Flushed(call) => mine != Some(call)
    case Committed(call) => mine != Some(call)
    case CallDied(call) => mine != Some(call)
    case _ => false
  }

  lemma ElsewhereView(c: Config, w: World, e: Event, mine: Option<nat>)
    requires Enabled(c, w, e) && Elsewhere(e, mine)
    ensures var after := Apply(c, w, e);
      && w.posted <= after.posted
      && after.listener == w.listener
      && after.confirmed == w.confirmed
      && w.rows <= after.rows
      && (forall k <- after.calls :: k in w.calls)
      && (mine.Some? && mine.value in w.calls ==>
            mine.value in after.calls && after.calls[mine.value] == w.calls[mine.value])
  {
    hide LookUp, Flush, Blocked, IsCommand, CommandPayload;
  }

  class Intake {
    const c: Config
    var posted: seq<Update>
    var confirmed: Option<int>
    var rows: seq<Row>
    var calls: map<nat, Call>
    var nextId: nat
    var nextCall: nat
    ghost var listener: Listener
    ghost var log: seq<Event>

    ghost function Value(): World
      reads this
    {
      World(posted, confirmed, listener, calls, rows, nextId)
    }

    /** Everything so far is a run of the intake. */
    ghost predicate Valid()
      reads this
    {
      Reached(c, log, Value()) && forall k <- calls :: k < nextCall
    }

    constructor (config: Config)
      ensures Valid() && c == config && rows == [] && log == [] && listener == Polling(None)
    {
      c := config;
      posted, confirmed, rows, calls := [], None, [], map[];
      nextId, nextCall, listener, log := 1, 0, Polling(None), [];
    }

    ghost method Record(e: Event, before: World)
      requires Reached(c, log, before) && Enabled(c, before, e)
      requires Apply(c, before, e).(listener := listener) == Value() && forall k <- calls :: k < nextCall
      modifies this`log, this`listener
      ensures Valid() && log == old(log) + [e] && Value() == Apply(c, before, e)
    {
      ExtendRun(c, EmptyWorld(), log, e);
      log := log + [e];
      listener := Apply(c, before, e).listener;
    }

    /** Updates arrive, and other requests are looked up, inserted or die. */
    method Interleave(mine: Option<nat>)
      requires Valid()
      modifies this
      ensures Valid() && listener == old(listener) && old(posted) <= posted && old(log) <= log && old(rows) <= rows
      ensures mine.Some? && mine.value in old(calls) ==>
        mine.value in calls && calls[mine.value] == old(calls)[mine.value]
    {
      var n: nat := *;
      while n > 0
        invariant Valid() && listener == old(listener)
        invariant old(posted) <= posted && old(log) <= log && old(rows) <= rows
        invariant mine.Some? && mine.value in old(calls) ==>
          mine.value in calls && calls[mine.value] == old(calls)[mine.value]
      {
        var e: Event := *;
        var w := World(posted, confirmed, Stopped, calls, rows, nextId);
        if Elsewhere(e, mine) && Enabled(c, w, e) {
          TakeStep(e, mine);
        }
        n := n - 1;
      }
    }

    method TakeStep(e: Event, mine: Option<nat>)
      requires Valid() && Elsewhere(e, mine)
      requires Enabled(c, World(posted, confirmed, Stopped, calls, rows, nextId), e)
      modifies this
      ensures Valid() && Value() == Apply(c, old(Value()), e) && listener == old(listener)
      ensures log == old(log) + [e] && old(posted) <= posted && old(rows) <= rows
      ensures mine.Some? && mine.value in old(calls) ==>
        mine.value in calls && calls[mine.value] == old(calls)[mine.value]
    {
      ghost var before := Value();
      WithoutListener(c, before, e, mine);
      ElsewhereView(c, before, e, mine);
      var after := Apply(c, World(posted, confirmed, Stopped, calls, rows, nextId), e);
      hide Reached, Enabled, Apply;
      posted, confirmed, rows, calls := after.posted, after.confirmed, after.rows, after.calls;
      nextId := after.nextId;
      Record(e, before);
    }

    /** A poll: lost on the way there or back, or answered with the oldest
        unconfirmed updates, listed in any order. */
    method GetUpdates(offset: Option<int>) returns (updates: Option<seq<Update>>, ghost first: nat, ghost last: nat)
      requires Valid() && listener == Polling(offset)
      modifies this
      ensures Valid() && posted == old(posted) && rows == old(rows) && old(log) <= log
      ensures updates.None? || updates.value == [] ==> listener == Polling(offset)
      ensures updates.Some? && updates.value != [] ==>
        && first < last <= |posted|
        && listener == Handling(offset, first, last)
        && multiset(updates.value) == multiset(posted[first..last])
    {
      hide Reached;
      ghost var before := Value();
      var answered: bool, received: bool, lo: nat, hi: nat, batch: seq<Update> := *, *, *, *, *;
      first, last := lo, hi;
      var w := World(posted, confirmed, Polling(offset), calls, rows, nextId);
      if answered && Delivers(w, offset, lo, hi) && multiset(batch) == multiset(posted[lo..hi]) {
        assert |batch| == |multiset(batch)| == |posted[lo..hi]| == hi - lo;
        confirmed := Confirm(w, offset);
        updates := Some(batch);
        Record(Polled(lo, hi), before);
      } else {
        confirmed := if received then Confirm(w, offset) else confirmed;
        updates := None;
        Record(PollLost(received), before);
      }
    }

    /** An update below the running offset is skipped. */
    method PassOver()
      requires Valid() && listener.Handling? && listener.first < listener.last <= |posted|
      requires Below(posted[listener.first].id, listener.next)
      modifies this
      ensures Valid() && posted == old(posted) && rows == old(rows) && old(log) <= log
      ensures listener == Handling(old(listener).next, old(listener).first + 1, old(listener).last)
    {
      hide Reached;
      Record(Passed, Value());
    }

    /** The batch has been handled to its end. */
    method EndBatch()
      requires Valid() && listener.Handling? && listener.first == listener.last
      modifies this
      ensures Valid() && posted == old(posted) && rows == old(rows) && old(log) <= log
      ensures listener == Polling(old(listener).next)
    {
      hide Reached;
      Record(BatchDone, Value());
    }

    /** The request leaves for the endpoint. */
    method SubmitCommand(payload: Payload) returns (call: nat)
      requires Valid() && listener.Handling? && listener.first < listener.last <= |posted|
      requires !PassesOver(c, listener.next, posted[listener.first])
      requires CommandPayload(c, posted[listener.first]) == Some(payload)
      modifies this
      ensures Valid() && posted == old(posted) && rows == old(rows) && old(log) <= log
      ensures call in calls && calls[call] == Call(payload, Entered)
      ensures listener == Waiting(old(listener).next, old(listener).first, old(listener).last, call)
    {
      hide Reached, CommandPayload;
      ghost var before := Value();
      call := nextCall;
      nextCall := nextCall + 1;
      calls := calls[call := Call(payload, Entered)];
      Record(Submitted(call), before);
    }

    /** The answer reaches the listener. */
    method TakeAnswer(call: nat, response: Response)
      requires Valid() && listener.Waiting? && listener.call == call && listener.first < |posted|
      requires call in calls && calls[call].stage == Done(response)
      modifies this
      ensures Valid() && posted == old(posted) && rows == old(rows) && old(log) <= log
      ensures LetsPass(response) ==>
        listener == MoveOn(old(Value()), old(listener).next, old(listener).first, old(listener).last)
      ensures !LetsPass(response) && Retryable(response) ==> listener == Polling(old(listener).next)
    {
      hide Reached;
      ghost var before := Value();
      calls := calls - {call};
      Record(Answered, before);
    }

    // -------------------------------------------------------- the endpoint

    method FindExisting(updateId: int) returns (existing: Option<Row>)
      ensures existing.Some? <==> HasRow(rows, updateId)
      ensures existing.Some? ==> existing.value == RowFor(rows, updateId)
    {
      for k := 0 to |rows|
        invariant forall j :: 0 <= j < k ==> rows[j].updateId != updateId
      {
        if rows[k].updateId == updateId {
          FirstRow(rows, k);
          return Some(rows[k]);
        }
      }
      return None;
    }

    /** `accept_telegram_command`: it may die at any of its points, which `lifetime`
        counts, or wait for another insert beyond all patience; otherwise it
        answers, and what it answers is what the table says. */
    method AcceptTelegramCommand(call: nat, lifetime: nat, patience: nat) returns (response: Option<Response>)
      requires Valid() && call in calls && calls[call].stage.Entered?
      modifies this
      ensures Valid() && listener == old(listener) && old(posted) <= posted && old(log) <= log && old(rows) <= rows
      ensures response.Some? ==>
        && call in calls
        && calls[call] == Call(old(calls)[call].payload, Done(response.value))
      ensures response.None? && lifetime > 2 ==> call in calls && Blocked(calls, call)
    {
      hide Reached, Enabled, Apply;
      var p := calls[call].payload;
      response := None;
      if lifetime == 0 {
        return;
      }
      Interleave(Some(call));
      var stage := LookUpCommand(call);
      if stage.Done? {
        return Some(stage.response);
      }
      Interleave(Some(call));
      if lifetime == 1 {
        return;
      }
      var waits := patience;
      while waits > 0 && Blocked(calls, call)
        invariant Valid() && listener == old(listener)
        invariant old(posted) <= posted && old(log) <= log && old(rows) <= rows
        invariant call in calls && calls[call] == Call(p, stage)
      {
        Interleave(Some(call));
        waits := waits - 1;
      }
      if Blocked(calls, call) {
        return;
      }
      var answer := FlushNewRequest(call, stage.row);
      if answer.Done? {
        return Some(answer.response);
      }
      Interleave(Some(call));
      if lifetime == 2 {
        return;
      }
      Commit(call, answer.row);
      return Some(Accepted(false, false));
    }

    /** The handler up to its insert. */
    method LookUpCommand(call: nat) returns (stage: Stage)
      requires Valid() && call in calls && calls[call].stage.Entered?
      modifies this
      ensures Valid() && (stage.Done? || stage.Inserting?) && log == old(log) + [LookedUp(call)]
      ensures listener == old(listener) && posted == old(posted) && rows == old(rows)
      ensures calls == old(calls)[call := Call(old(calls)[call].payload, stage)]
    {
      ghost var before := Value();
      var p := calls[call].payload;
      var existing := FindExisting(p.updateId);
      if p.text == "" || |p.text| > MAX_TEXT {
        stage := Done(Refused(422));
      } else if !c.enabled {
        stage := Done(Refused(409));
      } else if existing.Some? {
        stage := Done(DuplicateResponse(existing.value, p));
      } else if p.chatId != c.chatId || p.userId != c.userId {
        stage := Done(Refused(403));
      } else if !SummaryCommand(p.text) {
        stage := Done(Refused(422));
      } else {
        var video := c.parse(p.text);
        stage := Inserting(
          Row(0, p.updateId, p.chatId, p.userId, p.messageId, SubmittedUrl(p.text), video, video.None?));
      }
      assert stage == LookUp(c, rows, p);
      hide Reached, LookUp;
      calls := calls[call := Call(p, stage)];
      Record(LookedUp(call), before);
    }

    /** `_flush_new_request`: the row is inserted under the next id, or another
        row for the update is already there. */
    method FlushNewRequest(call: nat, row: Row) returns (stage: Stage)
      requires Valid() && call in calls && calls[call].stage == Inserting(row)
      requires !Blocked(calls, call)
      modifies this
      ensures Valid() && log == old(log) + [Flushed(call)]
      ensures listener == old(listener) && posted == old(posted) && rows == old(rows)
      ensures if HasRow(rows, row.updateId) then stage.Done? && stage.response.Accepted? && stage.response.duplicate
        else stage == Uncommitted(row.(id := old(nextId)))
      ensures calls == old(calls)[call := Call(old(calls)[call].payload, stage)]
    {
      ghost var before := Value();
      var p := calls[call].payload;
      var existing := FindExisting(row.updateId);
      if existing.Some? {
        stage := Done(DuplicateResponse(existing.value, p));
      } else {
        stage := Uncommitted(row.(id := nextId));
      }
      assert stage == Flush(rows, nextId, row, p);
      hide Reached, Flush;
      nextId := nextId + 1;
      calls := calls[call := Call(p, stage)];
      Record(Flushed(call), before);
    }

    /** The commit makes the row visible. */
    method Commit(call: nat, row: Row)
      requires Valid() && call in calls && calls[call].stage == Uncommitted(row)
      modifies this
      ensures Valid() && log == old(log) + [Committed(call)]
      ensures listener == old(listener) && posted == old(posted) && rows == old(rows) + [row]
      ensures calls == old(calls)[call := Call(old(calls)[call].payload, Done(Accepted(false, false)))]
    {
      hide Reached;
      ghost var before := Value();
      rows := rows + [row];
      calls := calls[call := Call(calls[call].payload, Done(Accepted(false, false)))];
      Record(Committed(call), before);
    }
  }

  // -------------------------------------------------------- the listener

  const BACKOFF_SECONDS := [1.0, 2.0, 5.0, 10.0, 30.0]

  function BackoffDelay(index: nat, retryAfter: Option<real>): (delay: real)
    ensures 1.0 <= delay <= 30.0
  {
    var base := BACKOFF_SECONDS[Min(index, |BACKOFF_SECONDS| - 1)];
    match retryAfter
    case None => base
    case Some(seconds) => if seconds <= base then base else if seconds <= 30.0 then seconds else 30.0
  }

  /** How a round of the intake loop went: the poll failed, nothing was delivered,
      nothing of the batch was handled, the offset moved, or the listener stopped. */
  datatype Round = PollFailed(retryAfter: Option<real>) | Empty | Stuck | Moved | Fatal

  /** Failed polls in a row up to now. */
  function Failures(rounds: seq<Round>): nat {
    if rounds == [] || !rounds[|rounds| - 1].PollFailed? then 0 else Failures(rounds[..|rounds| - 1]) + 1
  }

  /** Batches got stuck since the offset moved last. */
  function Stalls(rounds: seq<Round>): nat {
    if rounds == [] || rounds[|rounds| - 1].Moved? then 0
    else Stalls(rounds[..|rounds| - 1]) + (if rounds[|rounds| - 1].Stuck? then 1 else 0)
  }

  /** The pause after so many earlier ones in a row. */
  function Pause(earlier: nat): real {
    if earlier == 0 then 1.0 else if earlier == 1 then 2.0 else if earlier == 2 then 5.0
    else if earlier == 3 then 10.0 else 30.0
  }

  /** Telegram may ask for a longer pause, up to the longest. */
  function AskedPause(pause: real, retryAfter: Option<real>): real {
    if retryAfter.None? || retryAfter.value <= pause then pause
    else if retryAfter.value <= 30.0 then retryAfter.value else 30.0
  }

  /** What the rounds took in sleep, all together. */
  function Slept(rounds: seq<Round>): real {
    if rounds == [] then 0.0
    else
      var before, last := rounds[..|rounds| - 1], rounds[|rounds| - 1];
      Slept(before) +
      match last
      case PollFailed(retryAfter) => AskedPause(Pause(Failures(before)), retryAfter)
      case Stuck => Pause(Stalls(before))
      case _ => 0.0
  }

  lemma BackoffIsPause(index: nat, retryAfter: Option<real>)
    ensures BackoffDelay(index, retryAfter) == AskedPause(Pause(index), retryAfter)
    ensures Pause(Min(index, 4)) == Pause(index)
  {
  }

  lemma OneMoreRound(rounds: seq<Round>, round: Round)
    ensures Failures(rounds + [round]) == if round.PollFailed? then Failures(rounds) + 1 else 0
    ensures Stalls(rounds + [round])
      == if round.Moved? then 0 else Stalls(rounds) + (if round.Stuck? then 1 else 0)
    ensures Slept(rounds + [round]) == Slept(rounds) +
      match round
      case PollFailed(retryAfter) => AskedPause(Pause(Failures(rounds)), retryAfter)
      case Stuck => Pause(Stalls(rounds))
      case _ => 0.0
  {
    assert (rounds + [round])[..|rounds|] == rounds;
  }

  /** The batch is still where it was found. */
  ghost predicate Remains(posted: seq<Update>, first: nat, last: nat, batch: seq<Update>) {
    first <= last <= |posted| && posted[first..last] == batch
  }

  lemma RemainsLength(posted: seq<Update>, first: nat, last: nat, batch: seq<Update>)
    requires Remains(posted, first, last, batch)
    ensures last - first == |batch|
  {
  }

  lemma BatchInOrder(c: Config, log: seq<Event>, w: World, updates: seq<Update>, first: nat, last: nat)
    requires Reached(c, log, w) && first <= last <= |w.posted|
    requires multiset(updates) == multiset(w.posted[first..last])
    ensures Remains(w.posted, first, last, SortById(updates))
  {
    OrderedSlice(c, log, w, first, last);
    hide Reached;
    SortRestoresOrder(updates, w.posted[first..last]);
  }

  lemma OrderedSlice(c: Config, log: seq<Event>, w: World, first: nat, last: nat)
    requires Reached(c, log, w) && first <= last <= |w.posted|
    ensures Ordered(w.posted[first..last])
  {
    ReachedInv(c, log, w);
    hide RowsInv, Covered, ListenerInv, CallInv, Reached;
  }

  lemma RemainsAt(posted: seq<Update>, first: nat, last: nat, batch: seq<Update>, k: nat)
    requires Remains(posted, first, last, batch) && k < |batch|
    ensures first + k < last <= |posted| && last - first == |batch| && posted[first + k] == batch[k]
  {
    assert posted[first..last][k] == posted[first + k];
  }

  lemma RemainsLater(posted: seq<Update>, later: seq<Update>, first: nat, last: nat, batch: seq<Update>)
    requires Remains(posted, first, last, batch) && posted <= later
    ensures Remains(later, first, last, batch)
  {
  }

  class TelegramCommandListener {
    const intake: Intake
    var stopped: bool
    var idle: real

    constructor (i: Intake)
      ensures intake == i && !stopped && idle == 0.0
    {
      intake := i;
      stopped := false;
      idle := 0.0;
    }

    /** `_sleep_or_stop`; `idle` adds up the seconds slept. */
    method SleepOrStop(seconds: real)
      modifies this`idle
      ensures idle == old(idle) + (if seconds > 0.0 && !stopped then seconds else 0.0)
    {
      if seconds <= 0.0 || stopped {
        return;
      }
      idle := idle + seconds;
    }

    /** `handle_update`: true only when the update needs nothing or its row is in
        the table or commands are disabled; false only when the endpoint died, its
        answer was lost, it waits for another insert, or the text is too long. */
    method HandleUpdate(
      update: Update, lost: bool, lifetime: nat, patience: nat,
      ghost next: Option<int>, ghost first: nat, ghost last: nat
    ) returns (handled: bool)
      requires intake.Valid() && !stopped && intake.listener == Handling(next, first, last)
      requires first < last <= |intake.posted| && intake.posted[first] == update && !Below(update.id, next)
      modifies this, intake
      ensures intake.Valid() && old(intake.posted) <= intake.posted && old(intake.log) <= intake.log
      ensures old(intake.rows) <= intake.rows && idle == old(idle)
      ensures handled ==> !stopped && intake.listener == Handling(Some(update.id + 1), first + 1, last)
      ensures handled && IsCommand(intake.c, update) && intake.c.enabled ==> HasRow(intake.rows, update.id)
      ensures !handled && !stopped ==> intake.listener == Polling(next)
      ensures !IsCommand(intake.c, update) ==> handled
      ensures stopped ==> IsCommand(intake.c, update) && |CommandPayload(intake.c, update).value.text| > MAX_TEXT
      ensures !handled && !stopped && !lost && lifetime > 2 ==>
        exists call :: call in intake.calls && Blocked(intake.calls, call)
    {
      hide Reached, CommandPayload, ConfiguredToken, HasRow;
      var payload := CommandPayload(intake.c, update);
      ghost var before := intake.Value();
      if payload.None? || Words(payload.value.text) == [] || !ConfiguredToken(intake.c, Words(payload.value.text)[0]) {
        intake.Record(Passed, before);
        return true;
      }
      assert IsCommand(intake.c, update);
      hide IsCommand;
      var call := intake.SubmitCommand(payload.value);
      var response := intake.AcceptTelegramCommand(call, lifetime, patience);
      if lost || response.None? {
        intake.Record(AnswerLost, intake.Value());
        return false;
      }
      EndpointAnswers(intake.c, intake.log, intake.Value(), call);
      intake.TakeAnswer(call, response.value);
      handled := LetsPass(response.value);
      if handled {
        OffsetCovers(intake.c, intake.log, intake.Value(), first);
      } else if !Retryable(response.value) {
        stopped := true;
      }
    }

    /** One round of the batch loop: an update below the running offset is
        skipped, any other is handled. */
    method PassOrHandle(update: Update, next: Option<int>, ghost first: nat, ghost last: nat)
      returns (passed: bool, moved: Option<int>)
      requires intake.Valid() && !stopped && intake.listener == Handling(next, first, last)
      requires first < last <= |intake.posted| && intake.posted[first] == update
      modifies this, intake
      ensures intake.Valid() && old(intake.posted) <= intake.posted && old(intake.log) <= intake.log
      ensures old(intake.rows) <= intake.rows && idle == old(idle)
      ensures passed ==>
        && !stopped
        && intake.listener == Handling(moved, first + 1, last)
        && Below(update.id, moved)
        && Later(next, moved) == moved
        && (IsCommand(intake.c, update) && intake.c.enabled ==> HasRow(intake.rows, update.id))
      ensures !passed ==>
        && moved == next
        && !Below(update.id, next)
        && (!stopped ==> intake.listener == Polling(next))
    {
      hide Reached, IsCommand, HasRow, Enabled, Apply;
      moved := next;
      if Below(update.id, next) {
        OffsetCovers(intake.c, intake.log, intake.Value(), first);
        intake.PassOver();
        passed := true;
      } else {
        var lost: bool, lifetime: nat, patience: nat := *, *, *;
        passed := HandleUpdate(update, lost, lifetime, patience, next, first, last);
        if passed {
          moved := Some(update.id + 1);
        }
      }
    }

    /** `process_update_batch`: the updates in id order, up to the first one that
        is not handled; the offset returned is past exactly those. */
    method ProcessUpdateBatch(updates: seq<Update>, offset: Option<int>, ghost first: nat, ghost last: nat)
      returns (next: Option<int>, ghost handledUpdates: nat)
      requires intake.Valid() && !stopped && intake.listener == Handling(offset, first, last)
      requires first < last <= |intake.posted| && multiset(updates) == multiset(intake.posted[first..last])
      modifies this, intake
      ensures intake.Valid() && old(intake.log) <= intake.log && idle == old(idle)
      ensures !stopped ==> intake.listener == Polling(next)
      ensures PassedExactly(SortById(updates), handledUpdates, next)
      ensures handledUpdates <= |SortById(updates)|
      ensures AllIn(intake.c, intake.rows, SortById(updates)[..handledUpdates])
    {
      next := offset;
      BatchInOrder(intake.c, intake.log, intake.Value(), updates, first, last);
      var sorted := SortById(updates);
      BatchAscends(intake.c, intake.log, intake.Value(), first, last, sorted);
      handledUpdates := 0;
      hide Reached, SortById, Remains, Enabled, Apply, IsCommand, HasRow, AllIn, Ordered, PassedSoFar, PassedExactly;
      NothingPassed(intake.c, intake.rows, sorted, next);
      for k := 0 to |sorted|
        invariant intake.Valid() && !stopped && old(intake.log) <= intake.log && idle == old(idle)
        invariant Remains(intake.posted, first, last, sorted)
        invariant intake.listener == Handling(next, first + k, last)
        invariant handledUpdates == k && PassedSoFar(sorted, k, next)
        invariant AllIn(intake.c, intake.rows, sorted[..k])
      {
        RemainsAt(intake.posted, first, last, sorted, k);
        ghost var rows, posted := intake.rows, intake.posted;
        var passed, moved := PassOrHandle(sorted[k], next, first + k, last);
        if !passed {
          StopsBefore(sorted, k, next);
          AllStay(intake.c, rows, intake.rows, sorted[..k]);
          return;
        }
        OnePassed(sorted, k, next, moved);
        next := moved;
        RemainsLater(posted, intake.posted, first, last, sorted);
        OneMoreIn(intake.c, rows, intake.rows, sorted, k);
        handledUpdates := k + 1;
      }
      AllPassed(sorted, next);
      RemainsLength(intake.posted, first, last, sorted);
      intake.EndBatch();
    }

    /** `_intake_loop` from a fresh start, for any number of rounds: the offset it
        polls with next is covered, and it sleeps exactly the pauses that follow
        from how its rounds went. */
    method IntakeLoop(rounds: nat) returns (offset: Option<int>, ghost history: seq<Round>)
      requires intake.Valid() && !stopped
      modifies this, intake
      ensures intake.Valid()
      ensures !stopped ==> intake.listener == Polling(offset) && Covered(intake.c, intake.Value(), offset)
      ensures |history| <= rounds && (!stopped ==> |history| == rounds)
      ensures idle == old(idle) + Slept(history)
    {
      hide Reached, Covered, BackoffDelay, Pause, AskedPause, Failures, Stalls, Slept;
      intake.Record(Restarted, intake.Value());
      offset, history := None, [];
      var pollingBackoff, handlingBackoff := 0, 0;
      var n := rounds;
      NoRounds();
      while n > 0 && !stopped
        invariant intake.Valid() && (!stopped ==> intake.listener == Polling(offset))
        invariant !stopped ==>
          pollingBackoff == Min(Failures(history), 4) && handlingBackoff == Min(Stalls(history), 4)
        invariant |history| == rounds - n
        invariant idle == old(idle) + Slept(history)
        decreases n
      {
        n := n - 1;
        intake.Interleave(None);
        var updates, first, last := intake.GetUpdates(offset);
        ghost var round := Empty;
        if updates.None? {
          var fatal: bool, retryAfter: Option<real> := *, *;
          if fatal {
            stopped := true;
            OneMoreRound(history, Fatal);
            history := history + [Fatal];
            break;
          }
          round := PollFailed(retryAfter);
          BackoffIsPause(pollingBackoff, retryAfter);
          BackoffIsPause(Failures(history), retryAfter);
          SleepOrStop(BackoffDelay(pollingBackoff, retryAfter));
          pollingBackoff := Min(pollingBackoff + 1, |BACKOFF_SECONDS| - 1);
        } else {
          pollingBackoff := 0;
          if updates.value != [] {
            ghost var passed: nat;
            var newOffset: Option<int>;
            newOffset, passed := ProcessUpdateBatch(updates.value, offset, first, last);
            if newOffset == offset {
              round := if stopped then Fatal else Stuck;
              BackoffIsPause(handlingBackoff, None);
              BackoffIsPause(Stalls(history), None);
              PauseUnasked(Stalls(history));
              SleepOrStop(BackoffDelay(handlingBackoff, None));
              handlingBackoff := Min(handlingBackoff + 1, |BACKOFF_SECONDS| - 1);
            } else {
              offset := newOffset;
              handlingBackoff := 0;
              round := Moved;
            }
          }
        }
        OneMoreRound(history, round);
        history := history + [round];
      }
      if !stopped {
        PollingOffsetCovered(intake.c, intake.log, intake.Value());
      }
    }
  }

  lemma NoRounds()
    ensures Failures([]) == 0 && Stalls([]) == 0 && Slept([]) == 0.0
  {
  }

  lemma PauseUnasked(earlier: nat)
    ensures AskedPause(Pause(earlier), None) == Pause(earlier)
  {
  }

  lemma PollingOffsetCovered(c: Config, log: seq<Event>, w: World)
    requires Reached(c, log, w) && w.listener.Polling?
    ensures Covered(c, w, w.listener.offset)
  {
    ReachedInv(c, log, w);
    hide Reached, RowsInv, CallInv, OrderInv, Covered;
  }

  /** The first `n` updates are below the offset and the others are not. */
  predicate PassedExactly(sorted: seq<Update>, n: nat, next: Option<int>) {
    n <= |sorted| && forall j :: 0 <= j < |sorted| ==> (j < n <==> Below(sorted[j].id, next))
  }

  predicate PassedSoFar(sorted: seq<Update>, n: nat, next: Option<int>) {
    n <= |sorted| && forall j :: 0 <= j < n ==> Below(sorted[j].id, next)
  }

  /** Each of them needs nothing or has its row. */
  ghost predicate AllIn(c: Config, rows: seq<Row>, updates: seq<Update>) {
    forall u <- updates :: IsCommand(c, u) && c.enabled ==> HasRow(rows, u.id)
  }

  lemma NothingPassed(c: Config, rows: seq<Row>, sorted: seq<Update>, next: Option<int>)
    ensures PassedSoFar(sorted, 0, next) && AllIn(c, rows, sorted[..0])
  {
  }

  lemma OnePassed(sorted: seq<Update>, k: nat, next: Option<int>, moved: Option<int>)
    requires PassedSoFar(sorted, k, next) && k < |sorted| && Below(sorted[k].id, moved) && Later(next, moved) == moved
    ensures PassedSoFar(sorted, k + 1, moved)
  {
  }

  lemma AllPassed(sorted: seq<Update>, next: Option<int>)
    requires PassedSoFar(sorted, |sorted|, next)
    ensures PassedExactly(sorted, |sorted|, next)
  {
  }

  lemma StopsBefore(sorted: seq<Update>, n: nat, next: Option<int>)
    requires PassedSoFar(sorted, n, next) && n < |sorted| && !Below(sorted[n].id, next) && Ordered(sorted)
    ensures PassedExactly(sorted, n, next)
  {
  }

  lemma RowsKept(rows: seq<Row>, later: seq<Row>, id: int)
    requires HasRow(rows, id) && rows <= later
    ensures HasRow(later, id)
  {
    var k :| 0 <= k < |rows| && rows[k].updateId == id;
    assert later[k] == rows[k];
  }

  lemma AllStay(c: Config, rows: seq<Row>, later: seq<Row>, updates: seq<Update>)
    requires AllIn(c, rows, updates) && rows <= later
    ensures AllIn(c, later, updates)
  {
    hide IsCommand, HasRow;
    forall u <- updates | IsCommand(c, u) && c.enabled
      ensures HasRow(later, u.id)
    {
      RowsKept(rows, later, u.id);
    }
  }

  lemma OneMoreIn(c: Config, rows: seq<Row>, later: seq<Row>, sorted: seq<Update>, k: nat)
    requires k < |sorted| && AllIn(c, rows, sorted[..k]) && rows <= later
    requires IsCommand(c, sorted[k]) && c.enabled ==> HasRow(later, sorted[k].id)
    ensures AllIn(c, later, sorted[..k + 1])
  {
    AllStay(c, rows, later, sorted[..k]);
    hide IsCommand, HasRow;
    assert sorted[..k + 1] == sorted[..k] + [sorted[k]];
  }

  lemma BatchAscends(c: Config, log: seq<Event>, w: World, first: nat, last: nat, batch: seq<Update>)
    requires Reached(c, log, w) && Remains(w.posted, first, last, batch)
    ensures Ordered(batch)
  {
    OrderedSlice(c, log, w, first, last);
  }

  lemma OffsetCovers(c: Config, log: seq<Event>, w: World, i: nat)
    requires Reached(c, log, w) && i < |w.posted|
    requires w.listener.Handling? && w.listener.next.Some? && w.posted[i].id < w.listener.next.value
    ensures IsCommand(c, w.posted[i]) && c.enabled ==> HasRow(w.rows, w.posted[i].id)
  {
    OffsetNeverPassesUnhandled(c, log, w, i);
  }

  lemma WithoutListener(c: Config, w: World, e: Event, mine: Option<nat>)
    requires Elsewhere(e, mine) && Enabled(c, w.(listener := Stopped), e)
    ensures Enabled(c, w, e)
    ensures Apply(c, w.(listener := Stopped), e) == Apply(c, w, e).(listener := Stopped)
  {
    hide LookUp, Flush, Blocked, IsCommand, CommandPayload;
  }

  lemma {:induction false} FirstRow(rows: seq<Row>, k: nat)
    requires k < |rows| && forall j :: 0 <= j < k ==> rows[j].updateId != rows[k].updateId
    ensures HasRow(rows, rows[k].updateId) && RowFor(rows, rows[k].updateId) == rows[k]
  {
    if k > 0 {
      FirstRow(rows[1..], k - 1);
    }
  }
}
