/** The main results about every run of the command intake. */
module CommandIntakeTheorems {
  import opened Prelude
  import opened CommandIntake

  // ------------------------------------------------------------- invariant

  ghost predicate Ordered(posted: seq<Update>) {
    forall i, j :: 0 <= i < j < |posted| ==> posted[i].id < posted[j].id
  }

  /** Nothing to do, or already in the table. */
  ghost predicate Handled(c: Config, w: World, u: Update) {
    IsCommand(c, u) && c.enabled ==> HasRow(w.rows, u.id)
  }

  /** No unhandled update is below the bound. */
  ghost predicate Covered(c: Config, w: World, bound: Option<int>) {
    bound.Some? ==>
      && w.posted != []
      && bound.value <= w.posted[|w.posted| - 1].id + 1
      && forall i :: 0 <= i < |w.posted| && w.posted[i].id < bound.value ==> Handled(c, w, w.posted[i])
  }

  ghost predicate CommandAt(c: Config, posted: seq<Update>, j: int, p: Payload) {
    0 <= j < |posted| && IsCommand(c, posted[j]) && CommandPayload(c, posted[j]) == Some(p)
  }

  /** The payload is that of an authorised command. */
  ghost predicate Genuine(c: Config, posted: seq<Update>, p: Payload) {
    exists j :: CommandAt(c, posted, j, p)
  }

  /** The row is what an authorised command makes. */
  ghost predicate RowInv(c: Config, posted: seq<Update>, row: Row) {
    exists p :: Genuine(c, posted, p) && row == RowOf(c, p).(id := row.id)
  }

  ghost predicate RowsInv(c: Config, w: World) {
    && (forall i :: 0 <= i < |w.rows| ==> RowInv(c, w.posted, w.rows[i]))
    && (forall i, j :: 0 <= i < j < |w.rows| ==> w.rows[i].updateId != w.rows[j].updateId)
    && (!c.enabled ==> w.rows == [])
  }

  ghost predicate CallInv(c: Config, w: World, call: Call) {
    && Genuine(c, w.posted, call.payload)
    && match call.stage
       case Entered => true
       case Inserting(row) => c.enabled && row == RowOf(c, call.payload)
       case Uncommitted(row) => c.enabled && row == RowOf(c, call.payload).(id := row.id)
       case Done(Accepted(_, conflict)) => c.enabled && !conflict && HasRow(w.rows, call.payload.updateId)
       case Done(Refused(s)) => (s == 409 && !c.enabled) || (s == 422 && |call.payload.text| > MAX_TEXT)
  }

  ghost predicate Upto(c: Config, w: World, first: nat, last: nat) {
    first <= last <= |w.posted| && forall i :: 0 <= i < first ==> Handled(c, w, w.posted[i])
  }

  ghost predicate ListenerInv(c: Config, w: World) {
    match w.listener
    case Polling(offset) => Covered(c, w, offset)
    case Handling(next, first, last) => Covered(c, w, next) && Upto(c, w, first, last)
    case Waiting(next, first, last, call) =>
      && Covered(c, w, next)
      && Upto(c, w, first, last)
      && first < last
      && (call in w.calls ==> CommandPayload(c, w.posted[first]) == Some(w.calls[call].payload))
    case Stopped => true
  }

  ghost predicate Inv(c: Config, w: World) {
    && Ordered(w.posted)
    && RowsInv(c, w)
    && Covered(c, w, w.confirmed)
    && ListenerInv(c, w)
    && (forall k <- w.calls :: CallInv(c, w, w.calls[k]))
  }

  /** Every command below the id has its row. */
  ghost predicate Preceded(c: Config, w: World, updateId: int) {
    forall i :: 0 <= i < |w.posted| && w.posted[i].id < updateId ==> Handled(c, w, w.posted[i])
  }

  /** Rows in the order in which they became visible. */
  ghost predicate Ascending(rows: seq<Row>) {
    forall i, j :: 0 <= i < j < |rows| ==> rows[i].id < rows[j].id && rows[i].updateId < rows[j].updateId
  }

  ghost predicate UncommittedInv(w: World, call: Call) {
    call.stage.Uncommitted? ==>
      && call.stage.row.id < w.nextId
      && !HasRow(w.rows, call.payload.updateId)
      && forall i :: 0 <= i < |w.rows| ==> w.rows[i].id < call.stage.row.id
  }

  /** A request or row for an update comes after the rows of all earlier commands,
      so at most one insert is uncommitted, and it is the next row. */
  ghost predicate OrderInv(c: Config, w: World) {
    && (forall k <- w.calls :: Preceded(c, w, w.calls[k].payload.updateId))
    && (forall i :: 0 <= i < |w.rows| ==> Preceded(c, w, w.rows[i].updateId))
    && Ascending(w.rows)
    && (forall i :: 0 <= i < |w.rows| ==> w.rows[i].id < w.nextId)
    && (forall k <- w.calls :: UncommittedInv(w, w.calls[k]))
    && (forall j, k ::
          && j in w.calls && w.calls[j].stage.Uncommitted?
          && k in w.calls && w.calls[k].stage.Uncommitted? ==>
          j == k)
  }

  // ----------------------------------------------------------- the endpoint

  lemma PayloadId(c: Config, u: Update)
    requires CommandPayload(c, u).Some?
    ensures CommandPayload(c, u).value.updateId == u.id
  {
  }

  lemma CommandIsSummary(c: Config, posted: seq<Update>, p: Payload)
    requires Genuine(c, posted, p)
    ensures p.chatId == c.chatId && p.userId == c.userId && p.text != "" && SummaryCommand(p.text)
  {
    var j :| CommandAt(c, posted, j, p);
    assert Mentioned(SUMMARY_COMMAND).0 == SUMMARY_COMMAND by {
      NoMention(SUMMARY_COMMAND);
    }
  }

  lemma {:induction false} NoMention(s: string)
    requires '@' !in s
    ensures Mentioned(s) == (s, None)
  {
    if s != "" {
      NoMention(s[1..]);
      assert s[0] in s && s == [s[0]] + s[1..];
    }
  }

  /** Two genuine payloads with one update id are the same. */
  lemma SameUpdate(c: Config, posted: seq<Update>, p: Payload, q: Payload)
    requires Ordered(posted) && Genuine(c, posted, p) && Genuine(c, posted, q) && p.updateId == q.updateId
    ensures p == q
  {
    var i :| CommandAt(c, posted, i, p);
    var j :| CommandAt(c, posted, j, q);
    PayloadId(c, posted[i]);
    PayloadId(c, posted[j]);
    hide IsCommand, CommandPayload;
    assert i == j;
  }

  /** A redelivered command meets its own row: never a conflict. */
  lemma DuplicateMatches(c: Config, w: World, p: Payload)
    requires Ordered(w.posted) && RowsInv(c, w) && Genuine(c, w.posted, p) && HasRow(w.rows, p.updateId)
    ensures DuplicateResponse(RowFor(w.rows, p.updateId), p) == Accepted(true, false)
  {
    var row := RowFor(w.rows, p.updateId);
    var q :| Genuine(c, w.posted, q) && row == RowOf(c, q).(id := row.id);
    SameUpdate(c, w.posted, p, q);
    CommandIsSummary(c, w.posted, p);
    hide Genuine, SummaryCommand, SubmittedUrl;
  }

  lemma InvParts(c: Config, w: World)
    requires Inv(c, w)
    ensures RowsInv(c, w) && Ordered(w.posted)
  {
  }

  lemma LookUpInv(c: Config, w: World, call: Call)
    requires Inv(c, w) && Genuine(c, w.posted, call.payload)
    ensures CallInv(c, w, Call(call.payload, LookUp(c, w.rows, call.payload)))
  {
    hide Inv, RowsInv, Genuine, SummaryCommand, DuplicateResponse, RowFor, HasRow;
    InvParts(c, w);
    CommandIsSummary(c, w.posted, call.payload);
    if HasRow(w.rows, call.payload.updateId) {
      DuplicateMatches(c, w, call.payload);
    }
    hide RowOf, Ordered;
  }

  // -------------------------------------------------------- growing the table

  lemma AppendedHasRow(rows: seq<Row>, row: Row, id: int)
    ensures HasRow(rows + [row], id) <==> HasRow(rows, id) || row.updateId == id
  {
    var all := rows + [row];
    if HasRow(rows, id) {
      var i :| 0 <= i < |rows| && rows[i].updateId == id;
      assert all[i].updateId == id;
    }
    if row.updateId == id {
      assert all[|rows|].updateId == id;
    }
    if HasRow(all, id) {
      var i :| 0 <= i < |all| && all[i].updateId == id;
      assert i < |rows| ==> rows[i].updateId == id;
    }
  }

  ghost predicate MoreRows(w: World, after: World) {
    forall id :: HasRow(w.rows, id) ==> HasRow(after.rows, id)
  }

  lemma CoveredStays(c: Config, w: World, after: World, bound: Option<int>)
    requires Covered(c, w, bound) && MoreRows(w, after) && after.posted == w.posted
    ensures Covered(c, after, bound)
  {
    hide HasRow, IsCommand;
    if bound.Some? {
      forall i | 0 <= i < |w.posted| && w.posted[i].id < bound.value
        ensures Handled(c, after, w.posted[i])
      {
        assert Handled(c, w, w.posted[i]);
      }
    }
  }

  lemma UptoStays(c: Config, w: World, after: World, first: nat, last: nat)
    requires Upto(c, w, first, last) && MoreRows(w, after) && after.posted == w.posted
    ensures Upto(c, after, first, last)
  {
    hide HasRow, IsCommand;
    forall i | 0 <= i < first
      ensures Handled(c, after, w.posted[i])
    {
      assert Handled(c, w, w.posted[i]);
    }
  }

  lemma ListenerStays(c: Config, w: World, after: World)
    requires ListenerInv(c, w) && MoreRows(w, after) && after.posted == w.posted && after.listener == w.listener
    requires forall k <- after.calls :: k in w.calls && after.calls[k].payload == w.calls[k].payload
    ensures ListenerInv(c, after)
  {
    match w.listener {
      case Polling(offset) => CoveredStays(c, w, after, offset);
      case Handling(next, first, last) =>
        CoveredStays(c, w, after, next);
        UptoStays(c, w, after, first, last);
      case Waiting(next, first, last, call) =>
        CoveredStays(c, w, after, next);
        UptoStays(c, w, after, first, last);
      case Stopped =>
    }
    hide Covered, Upto, CommandPayload;
  }

  lemma CallStays(c: Config, w: World, after: World, call: Call)
    requires CallInv(c, w, call) && MoreRows(w, after) && after.posted == w.posted
    ensures CallInv(c, after, call)
  {
    hide HasRow, Genuine, RowOf;
  }

  /** A step of one request. */
  lemma CallStepKeepsInv(c: Config, w: World, rows: seq<Row>, call: nat, stepped: Call)
    requires Inv(c, w) && call in w.calls && stepped.payload == w.calls[call].payload
    requires MoreRows(w, w.(rows := rows)) && RowsInv(c, w.(rows := rows))
    requires CallInv(c, w.(rows := rows), stepped)
    ensures Inv(c, w.(rows := rows, calls := w.calls[call := stepped]))
  {
    var after := w.(rows := rows, calls := w.calls[call := stepped]);
    hide RowInv, HasRow, Genuine;
    CoveredStays(c, w, after, w.confirmed);
    ListenerStays(c, w, after);
    hide Covered, ListenerInv;
    forall k <- after.calls
      ensures CallInv(c, after, after.calls[k])
    {
      if k != call {
        CallStays(c, w, after, w.calls[k]);
      } else {
        CallStays(c, w.(rows := rows), after, stepped);
      }
    }
    hide CallInv, MoreRows;
  }

  lemma FlushInv(c: Config, w: World, call: Call)
    requires Inv(c, w) && CallInv(c, w, call) && call.stage.Inserting?
    ensures CallInv(c, w, Call(call.payload, Flush(w.rows, w.nextId, call.stage.row, call.payload)))
  {
    if HasRow(w.rows, call.payload.updateId) {
      DuplicateMatches(c, w, call.payload);
    }
    hide Genuine, SummaryCommand, DuplicateResponse, RowFor, Covered, ListenerInv, RowsInv;
  }

  lemma NextIdDoesNotMatter(c: Config, w: World, nextId: nat)
    requires Inv(c, w)
    ensures Inv(c, w.(nextId := nextId))
  {
    var after := w.(nextId := nextId);
    hide HasRow, RowInv, IsCommand;
    CoveredStays(c, w, after, w.confirmed);
    ListenerStays(c, w, after);
    hide Covered, ListenerInv;
    forall k <- after.calls
      ensures CallInv(c, after, after.calls[k])
    {
      CallStays(c, w, after, w.calls[k]);
    }
    hide CallInv;
  }

  lemma FlushView(c: Config, w: World, call: nat)
    requires Enabled(c, w, Flushed(call))
    ensures call in w.calls && w.calls[call].stage.Inserting? && !Blocked(w.calls, call)
    ensures Apply(c, w, Flushed(call)) == w.(
      calls := w.calls[call := Call(w.calls[call].payload,
        Flush(w.rows, w.nextId, w.calls[call].stage.row, w.calls[call].payload))],
      nextId := w.nextId + 1)
  {
    hide Flush, Blocked;
  }

  lemma CommitView(c: Config, w: World, call: nat)
    requires Enabled(c, w, Committed(call))
    ensures call in w.calls && w.calls[call].stage.Uncommitted?
    ensures Apply(c, w, Committed(call)) == w.(
      rows := w.rows + [w.calls[call].stage.row],
      calls := w.calls[call := Call(w.calls[call].payload, Done(Accepted(false, false)))])
  {
  }

  lemma KnownCall(c: Config, w: World, call: nat)
    requires Inv(c, w) && call in w.calls
    ensures CallInv(c, w, w.calls[call])
  {
    hide CallInv, Covered, ListenerInv, RowsInv, Ordered;
  }

  lemma FlushKeepsInv(c: Config, w: World, call: nat)
    requires Inv(c, w) && Enabled(c, w, Flushed(call))
    ensures Inv(c, Apply(c, w, Flushed(call)))
  {
    hide Inv, CallInv, Flush, HasRow, Blocked, Enabled, Apply, RowsInv;
    FlushView(c, w, call);
    InvParts(c, w);
    var p := w.calls[call].payload;
    KnownCall(c, w, call);
    FlushInv(c, w, w.calls[call]);
    assert w.(rows := w.rows) == w;
    CallStepKeepsInv(c, w, w.rows, call, Call(p, Flush(w.rows, w.nextId, w.calls[call].stage.row, p)));
    NextIdDoesNotMatter(
      c, w.(calls := w.calls[call := Call(p, Flush(w.rows, w.nextId, w.calls[call].stage.row, p))]), w.nextId + 1);
  }

  /** Appending the row of a command that has none. */
  lemma AppendedRow(c: Config, w: World, row: Row, p: Payload)
    requires RowsInv(c, w) && c.enabled && Genuine(c, w.posted, p) && row == RowOf(c, p).(id := row.id)
    requires !HasRow(w.rows, p.updateId)
    ensures MoreRows(w, w.(rows := w.rows + [row])) && HasRow(w.rows + [row], p.updateId)
    ensures RowsInv(c, w.(rows := w.rows + [row]))
  {
    forall id
      ensures HasRow(w.rows + [row], id) <==> HasRow(w.rows, id) || row.updateId == id
    {
      AppendedHasRow(w.rows, row, id);
    }
    var rows := w.rows + [row];
    assert RowInv(c, w.posted, row);
    forall i, j | 0 <= i < j < |rows|
      ensures rows[i].updateId != rows[j].updateId
    {
      assert i < |w.rows|;
      assert rows[i] == w.rows[i];
    }
    forall i | 0 <= i < |rows|
      ensures RowInv(c, w.posted, rows[i])
    {
      if i < |w.rows| {
        assert rows[i] == w.rows[i];
      }
    }
    hide Genuine, RowInv;
  }

  /** What is known of an uncommitted insert. */
  lemma UncommittedFacts(c: Config, w: World, call: nat)
    requires Inv(c, w) && OrderInv(c, w) && call in w.calls && w.calls[call].stage.Uncommitted?
    ensures var p, row := w.calls[call].payload, w.calls[call].stage.row;
      && c.enabled
      && Genuine(c, w.posted, p)
      && row == RowOf(c, p).(id := row.id)
      && row.updateId == p.updateId
      && !HasRow(w.rows, p.updateId)
      && row.id < w.nextId
      && (forall i :: 0 <= i < |w.rows| ==> w.rows[i].id < row.id)
      && Preceded(c, w, p.updateId)
  {
    assert CallInv(c, w, w.calls[call]) && UncommittedInv(w, w.calls[call]);
    hide Genuine, HasRow, Preceded, Ascending, RowsInv, Covered, ListenerInv, Ordered;
  }

  lemma CommitKeepsInv(c: Config, w: World, call: nat)
    requires Inv(c, w) && OrderInv(c, w) && Enabled(c, w, Committed(call))
    ensures Inv(c, Apply(c, w, Committed(call)))
  {
    hide OrderInv, RowsInv, HasRow, Genuine, Covered, ListenerInv, Enabled, Apply;
    CommitView(c, w, call);
    InvParts(c, w);
    hide Inv;
    var p, row := w.calls[call].payload, w.calls[call].stage.row;
    UncommittedFacts(c, w, call);
    AppendedRow(c, w, row, p);
    hide RowOf, MoreRows, Preceded;
    CallStepKeepsInv(c, w, w.rows + [row], call, Call(p, Done(Accepted(false, false))));
  }

  // ------------------------------------------------------------- every step

  lemma PostingCovered(c: Config, w: World, u: Update, bound: Option<int>)
    requires Covered(c, w, bound) && Ordered(w.posted)
    requires forall i :: 0 <= i < |w.posted| ==> w.posted[i].id < u.id
    ensures Covered(c, w.(posted := w.posted + [u]), bound)
  {
    hide IsCommand, HasRow;
    var after := w.(posted := w.posted + [u]);
    if bound.Some? {
      assert w.posted[|w.posted| - 1].id < u.id;
      forall i | 0 <= i < |after.posted| && after.posted[i].id < bound.value
        ensures Handled(c, after, after.posted[i])
      {
        assert i < |w.posted|;
        assert Handled(c, w, w.posted[i]);
      }
    }
  }

  lemma PostingGenuine(c: Config, posted: seq<Update>, u: Update, p: Payload)
    requires Genuine(c, posted, p)
    ensures Genuine(c, posted + [u], p)
  {
    var j :| CommandAt(c, posted, j, p);
    hide IsCommand, CommandPayload;
    assert CommandAt(c, posted + [u], j, p);
  }

  lemma PostingUpto(c: Config, w: World, u: Update, first: nat, last: nat)
    requires Upto(c, w, first, last)
    ensures Upto(c, w.(posted := w.posted + [u]), first, last)
  {
    hide IsCommand, HasRow;
    var after := w.(posted := w.posted + [u]);
    forall i | 0 <= i < first
      ensures Handled(c, after, after.posted[i])
    {
      assert Handled(c, w, w.posted[i]);
    }
  }

  lemma PostingListener(c: Config, w: World, u: Update)
    requires Ordered(w.posted) && ListenerInv(c, w)
    requires forall i :: 0 <= i < |w.posted| ==> w.posted[i].id < u.id
    ensures ListenerInv(c, w.(posted := w.posted + [u]))
  {
    match w.listener {
      case Polling(offset) => PostingCovered(c, w, u, offset);
      case Handling(next, first, last) =>
        PostingCovered(c, w, u, next);
        PostingUpto(c, w, u, first, last);
      case Waiting(next, first, last, call) =>
        PostingCovered(c, w, u, next);
        PostingUpto(c, w, u, first, last);
      case Stopped =>
    }
    hide Covered, Upto, IsCommand, CommandPayload;
  }

  lemma PostingRow(c: Config, posted: seq<Update>, u: Update, row: Row)
    requires RowInv(c, posted, row)
    ensures RowInv(c, posted + [u], row)
  {
    var p :| Genuine(c, posted, p) && row == RowOf(c, p).(id := row.id);
    PostingGenuine(c, posted, u, p);
  }

  lemma PostingKeepsInv(c: Config, w: World, u: Update)
    requires Inv(c, w) && Enabled(c, w, Posted(u))
    ensures Inv(c, Apply(c, w, Posted(u)))
  {
    var after := Apply(c, w, Posted(u));
    hide Covered, ListenerInv, Genuine, RowInv, HasRow, RowOf;
    PostingCovered(c, w, u, w.confirmed);
    PostingListener(c, w, u);
    forall k <- after.calls
      ensures CallInv(c, after, after.calls[k])
    {
      assert CallInv(c, w, w.calls[k]);
      PostingGenuine(c, w.posted, u, w.calls[k].payload);
    }
    forall i | 0 <= i < |after.rows|
      ensures RowInv(c, after.posted, after.rows[i])
    {
      PostingRow(c, w.posted, u, w.rows[i]);
    }
  }

  /** A poll confirms only what is covered, and its answer goes on from there. */
  lemma PollingKeepsInv(c: Config, w: World, e: Event)
    requires Inv(c, w) && Enabled(c, w, e) && (e.Polled? || e.PollLost?)
    ensures Inv(c, Apply(c, w, e))
  {
    var confirmed := Confirm(w, w.listener.offset);
    assert Covered(c, w, confirmed);
    var after := Apply(c, w, e);
    if e.Polled? {
      forall i | 0 <= i < e.first
        ensures Handled(c, w, w.posted[i])
      {
        assert Below(w.posted[i].id, confirmed);
      }
      assert Upto(c, w, e.first, e.last);
    }
    hide HasRow, IsCommand, RowInv;
    OnlyListener(c, w, after);
  }

  /** A step that changes no update, row or call. */
  lemma OnlyListener(c: Config, w: World, after: World)
    requires Inv(c, w)
    requires after.posted == w.posted && after.rows == w.rows
    requires forall k <- after.calls :: k in w.calls && after.calls[k] == w.calls[k]
    requires Covered(c, w, after.confirmed) && ListenerInv(c, w.(listener := after.listener, calls := after.calls))
    ensures Inv(c, after)
  {
    var middle := w.(listener := after.listener, calls := after.calls);
    assert MoreRows(middle, after);
    CoveredStays(c, w, after, after.confirmed);
    ListenerStays(c, middle, after);
    hide Covered, ListenerInv, HasRow, RowInv;
    forall k <- after.calls
      ensures CallInv(c, after, after.calls[k])
    {
      CallStays(c, w, after, w.calls[k]);
    }
  }

  /** The running offset moves past a handled update. */
  lemma MovingOn(c: Config, w: World, next: Option<int>, first: nat, last: nat)
    requires Ordered(w.posted) && Covered(c, w, next) && Upto(c, w, first, last) && first < last
    requires Handled(c, w, w.posted[first])
    ensures ListenerInv(c, w.(listener := MoveOn(w, next, first, last)))
  {
    hide HasRow, IsCommand;
    var moved := if Below(w.posted[first].id, next) then next else Some(w.posted[first].id + 1);
    assert Covered(c, w, moved) by {
      forall i | 0 <= i < |w.posted| && Below(w.posted[i].id, moved)
        ensures Handled(c, w, w.posted[i])
      {
        assert Below(w.posted[i].id, next) || i <= first;
      }
      assert w.posted[first].id <= w.posted[|w.posted| - 1].id;
    }
    var after := w.(listener := MoveOn(w, next, first, last));
    CoveredStays(c, w, after, moved);
    assert Upto(c, w, first + 1, last);
    UptoStays(c, w, after, first + 1, last);
  }

  lemma PassingKeepsInv(c: Config, w: World)
    requires Inv(c, w) && Enabled(c, w, Passed)
    ensures Inv(c, Apply(c, w, Passed))
  {
    var l := w.listener;
    assert Handled(c, w, w.posted[l.first]);
    MovingOn(c, w, l.next, l.first, l.last);
    hide HasRow, IsCommand, RowInv, Handled, MoveOn, Covered;
    OnlyListener(c, w, Apply(c, w, Passed));
  }

  lemma SubmittingKeepsInv(c: Config, w: World, call: nat)
    requires Inv(c, w) && Enabled(c, w, Submitted(call))
    ensures Inv(c, Apply(c, w, Submitted(call)))
  {
    var after := Apply(c, w, Submitted(call));
    var l := w.listener;
    var p := CommandPayload(c, w.posted[l.first]).value;
    assert CommandAt(c, w.posted, l.first, p);
    hide HasRow, IsCommand, CommandPayload;
    CoveredStays(c, w, after, w.confirmed);
    CoveredStays(c, w, after, l.next);
    UptoStays(c, w, after, l.first, l.last);
    forall k <- after.calls
      ensures CallInv(c, after, after.calls[k])
    {
      if k != call {
        CallStays(c, w, after, w.calls[k]);
      }
    }
  }

  lemma LookingUpKeepsInv(c: Config, w: World, call: nat)
    requires Inv(c, w) && Enabled(c, w, LookedUp(call))
    ensures Inv(c, Apply(c, w, LookedUp(call)))
  {
    var p := w.calls[call].payload;
    assert CallInv(c, w, w.calls[call]);
    LookUpInv(c, w, w.calls[call]);
    hide Inv, CallInv, LookUp, HasRow;
    assert w.(rows := w.rows) == w;
    CallStepKeepsInv(c, w, w.rows, call, Call(p, LookUp(c, w.rows, p)));
  }

  /** What the listener concludes from an answer is true of the table. */
  lemma AnswerIsTrue(c: Config, w: World)
    requires Inv(c, w) && Enabled(c, w, Answered)
    ensures LetsPass(w.calls[w.listener.call].stage.response) ==>
      Handled(c, w, w.posted[w.listener.first]) && w.listener.first < w.listener.last
  {
    var l := w.listener;
    assert CallInv(c, w, w.calls[l.call]);
    PayloadId(c, w.posted[l.first]);
    hide Genuine, IsCommand, RowInv, Covered;
  }

  lemma AnsweringKeepsInv(c: Config, w: World)
    requires Inv(c, w) && Enabled(c, w, Answered)
    ensures Inv(c, Apply(c, w, Answered))
  {
    var l := w.listener;
    var response := w.calls[l.call].stage.response;
    AnswerIsTrue(c, w);
    var after := Apply(c, w, Answered);
    var middle := w.(listener := after.listener, calls := after.calls);
    hide HasRow, IsCommand, CommandPayload, RowInv;
    if LetsPass(response) {
      MovingOn(c, w, l.next, l.first, l.last);
      hide Handled, Covered, Upto;
      ListenerStays(c, w.(listener := MoveOn(w, l.next, l.first, l.last)), middle);
    } else {
      CoveredStays(c, w, middle, l.next);
    }
    hide Handled, Covered, MoveOn, LetsPass, Retryable;
    OnlyListener(c, w, after);
  }

  lemma PollsOn(c: Config, w: World, offset: Option<int>)
    requires Inv(c, w) && Covered(c, w, offset)
    ensures Inv(c, w.(listener := Polling(offset)))
  {
    hide Inv, Covered;
    InvListener(c, w);
    var after := w.(listener := Polling(offset));
    CoveredStays(c, w, after, offset);
    OnlyListener(c, w, after);
  }

  lemma CallEnds(c: Config, w: World, call: nat)
    requires Inv(c, w)
    ensures Inv(c, w.(calls := w.calls - {call}))
  {
    hide Inv, Covered, HasRow, CommandPayload, Upto;
    InvListener(c, w);
    var after := w.(calls := w.calls - {call});
    ListenerStays(c, w, after);
    OnlyListener(c, w, after);
  }

  lemma NextIsCovered(c: Config, w: World)
    requires Inv(c, w) && (w.listener.Handling? || w.listener.Waiting?)
    ensures Covered(c, w, w.listener.next)
  {
    hide Covered, RowsInv, CallInv, Upto;
  }

  /** The listener starts over or goes on polling; requests end unanswered. */
  lemma LosingKeepsInv(c: Config, w: World, e: Event)
    requires Inv(c, w) && Enabled(c, w, e) && (e.AnswerLost? || e.BatchDone? || e.Restarted? || e.CallDied?)
    ensures Inv(c, Apply(c, w, e))
  {
    hide Inv, Covered;
    if e.CallDied? {
      CallEnds(c, w, e.call);
    } else if e.Restarted? {
      InvListener(c, w);
      PollsOn(c, w, None);
    } else {
      NextIsCovered(c, w);
      PollsOn(c, w, w.listener.next);
    }
  }

  lemma InvListener(c: Config, w: World)
    requires Inv(c, w)
    ensures ListenerInv(c, w) && Covered(c, w, w.confirmed) && Covered(c, w, None)
  {
    hide RowsInv, CallInv;
  }

  // -------------------------------------------------------- order of commits

  lemma PrecededStays(c: Config, w: World, after: World, updateId: int)
    requires Preceded(c, w, updateId) && MoreRows(w, after) && after.posted == w.posted
    ensures Preceded(c, after, updateId)
  {
    hide HasRow, IsCommand;
    forall i | 0 <= i < |w.posted| && w.posted[i].id < updateId
      ensures Handled(c, after, after.posted[i])
    {
      assert Handled(c, w, w.posted[i]);
    }
  }

  lemma PrecededAfterPosting(c: Config, w: World, u: Update, p: Payload)
    requires Preceded(c, w, p.updateId) && Genuine(c, w.posted, p)
    requires forall i :: 0 <= i < |w.posted| ==> w.posted[i].id < u.id
    ensures Preceded(c, w.(posted := w.posted + [u]), p.updateId)
  {
    var j :| CommandAt(c, w.posted, j, p);
    PayloadId(c, w.posted[j]);
    hide HasRow, IsCommand, CommandPayload;
    var after := w.(posted := w.posted + [u]);
    forall i | 0 <= i < |after.posted| && after.posted[i].id < p.updateId
      ensures Handled(c, after, after.posted[i])
    {
      assert i < |w.posted|;
      assert Handled(c, w, w.posted[i]);
    }
  }

  /** Whatever comes after a command comes after its row. */
  lemma PrecededHasRow(c: Config, w: World, p: Payload, later: int)
    requires Genuine(c, w.posted, p) && Preceded(c, w, later) && p.updateId < later && c.enabled
    ensures HasRow(w.rows, p.updateId)
  {
    var j :| CommandAt(c, w.posted, j, p);
    PayloadId(c, w.posted[j]);
    assert Handled(c, w, w.posted[j]);
  }

  lemma RowGenuine(c: Config, posted: seq<Update>, row: Row) returns (p: Payload)
    requires RowInv(c, posted, row)
    ensures Genuine(c, posted, p) && p.updateId == row.updateId
  {
    p :| Genuine(c, posted, p) && row == RowOf(c, p).(id := row.id);
  }

  /** A step that adds no update, row or uncommitted insert. */
  lemma OrderStays(c: Config, w: World, after: World)
    requires OrderInv(c, w) && after.posted == w.posted && after.rows == w.rows && after.nextId >= w.nextId
    requires forall k <- after.calls ::
      && k in w.calls
      && after.calls[k].payload == w.calls[k].payload
      && (after.calls[k].stage.Uncommitted? ==> after.calls[k] == w.calls[k])
    ensures OrderInv(c, after)
  {
    hide HasRow, IsCommand, Ascending;
    forall k <- after.calls
      ensures Preceded(c, after, after.calls[k].payload.updateId) && UncommittedInv(after, after.calls[k])
    {
      assert UncommittedInv(w, w.calls[k]);
      PrecededStays(c, w, after, w.calls[k].payload.updateId);
    }
    forall i | 0 <= i < |after.rows|
      ensures Preceded(c, after, after.rows[i].updateId)
    {
      PrecededStays(c, w, after, w.rows[i].updateId);
    }
  }

  lemma PostingKeepsOrder(c: Config, w: World, u: Update)
    requires Inv(c, w) && OrderInv(c, w) && Enabled(c, w, Posted(u))
    ensures OrderInv(c, Apply(c, w, Posted(u)))
  {
    hide HasRow, IsCommand, Ascending, Covered, ListenerInv, Genuine;
    var after := Apply(c, w, Posted(u));
    forall k <- after.calls
      ensures Preceded(c, after, after.calls[k].payload.updateId) && UncommittedInv(after, after.calls[k])
    {
      assert CallInv(c, w, w.calls[k]) && UncommittedInv(w, w.calls[k]);
      PrecededAfterPosting(c, w, u, w.calls[k].payload);
    }
    forall i | 0 <= i < |after.rows|
      ensures Preceded(c, after, after.rows[i].updateId)
    {
      var p := RowGenuine(c, w.posted, w.rows[i]);
      PrecededAfterPosting(c, w, u, p);
    }
  }

  lemma SubmittingKeepsOrder(c: Config, w: World, call: nat)
    requires Inv(c, w) && OrderInv(c, w) && Enabled(c, w, Submitted(call))
    ensures OrderInv(c, Apply(c, w, Submitted(call)))
  {
    var after := Apply(c, w, Submitted(call));
    var first := w.listener.first;
    PayloadId(c, w.posted[first]);
    assert Preceded(c, w, w.posted[first].id) by {
      forall i | 0 <= i < |w.posted| && w.posted[i].id < w.posted[first].id
        ensures Handled(c, w, w.posted[i])
      {
        assert i < first;
      }
    }
    PrecededStays(c, w, after, w.posted[first].id);
    hide Inv, HasRow, IsCommand, CommandPayload, Preceded, Ascending;
    SubmittedOrder(c, w, after, call);
  }

  lemma SubmittedOrder(c: Config, w: World, after: World, call: nat)
    requires OrderInv(c, w) && after == w.(listener := after.listener, calls := after.calls)
    requires call in after.calls && after.calls == w.calls[call := after.calls[call]]
    requires after.calls[call].stage.Entered? && Preceded(c, after, after.calls[call].payload.updateId)
    ensures OrderInv(c, after)
  {
    hide HasRow, IsCommand, Ascending;
    forall k <- after.calls
      ensures Preceded(c, after, after.calls[k].payload.updateId) && UncommittedInv(after, after.calls[k])
    {
      if k != call {
        assert UncommittedInv(w, w.calls[k]);
        PrecededStays(c, w, after, w.calls[k].payload.updateId);
      }
    }
    forall i | 0 <= i < |after.rows|
      ensures Preceded(c, after, after.rows[i].updateId)
    {
      PrecededStays(c, w, after, w.rows[i].updateId);
    }
  }

  /** No other insert is uncommitted when one is flushed: an earlier command has
      its row by then, a later one would not have been submitted. */
  lemma OnlyFlush(c: Config, w: World, call: nat, other: nat)
    requires Inv(c, w) && OrderInv(c, w)
    requires call in w.calls && other in w.calls && other != call && !Blocked(w.calls, call)
    requires w.calls[call].stage.Inserting? && !HasRow(w.rows, w.calls[call].payload.updateId)
    ensures !w.calls[other].stage.Uncommitted?
  {
    if w.calls[other].stage.Uncommitted? {
      assert CallInv(c, w, w.calls[call]) && CallInv(c, w, w.calls[other]) && UncommittedInv(w, w.calls[other]);
      var p, q := w.calls[call].payload, w.calls[other].payload;
      hide Inv, HasRow, Genuine, Preceded, IsCommand;
      if p.updateId < q.updateId {
        PrecededHasRow(c, w, p, q.updateId);
      } else if q.updateId < p.updateId {
        PrecededHasRow(c, w, q, p.updateId);
      }
      assert false;
    }
  }

  lemma FlushingKeepsOrder(c: Config, w: World, call: nat)
    requires Inv(c, w) && OrderInv(c, w) && Enabled(c, w, Flushed(call))
    ensures OrderInv(c, Apply(c, w, Flushed(call)))
  {
    hide Inv, OrderInv, HasRow, DuplicateResponse, Enabled, Apply, Blocked;
    FlushView(c, w, call);
    var after := Apply(c, w, Flushed(call));
    var p, row := w.calls[call].payload, w.calls[call].stage.row;
    KnownCall(c, w, call);
    assert row.updateId == p.updateId;
    hide RowOf, CallInv;
    if HasRow(w.rows, p.updateId) {
      OrderStays(c, w, after);
    } else {
      forall other | other in w.calls && other != call
        ensures !w.calls[other].stage.Uncommitted?
      {
        OnlyFlush(c, w, call, other);
      }
      FlushedOrder(c, w, after, call, row.(id := w.nextId));
    }
  }

  /** The only uncommitted insert takes the next id. */
  lemma FlushedOrder(c: Config, w: World, after: World, call: nat, row: Row)
    requires OrderInv(c, w) && call in w.calls && !HasRow(w.rows, w.calls[call].payload.updateId)
    requires forall other :: other in w.calls && other != call ==> !w.calls[other].stage.Uncommitted?
    requires row.id == w.nextId
    requires after == w.(calls := w.calls[call := Call(w.calls[call].payload, Uncommitted(row))],
                         nextId := w.nextId + 1)
    ensures OrderInv(c, after)
  {
    hide Ascending, IsCommand, HasRow;
    forall k <- after.calls
      ensures Preceded(c, after, after.calls[k].payload.updateId)
    {
      PrecededStays(c, w, after, w.calls[k].payload.updateId);
    }
    forall i | 0 <= i < |after.rows|
      ensures Preceded(c, after, after.rows[i].updateId)
    {
      PrecededStays(c, w, after, w.rows[i].updateId);
    }
    hide Preceded;
  }

  lemma RowPreceded(c: Config, w: World, i: nat)
    requires OrderInv(c, w) && i < |w.rows|
    ensures Preceded(c, w, w.rows[i].updateId)
  {
    hide Preceded, Ascending, UncommittedInv;
  }

  /** The row that is committed is the next one, by update and by id. */
  lemma CommitIsNext(c: Config, w: World, call: nat)
    requires Inv(c, w) && OrderInv(c, w) && Enabled(c, w, Committed(call))
    ensures var row := w.calls[call].stage.row;
      forall i :: 0 <= i < |w.rows| ==> w.rows[i].id < row.id && w.rows[i].updateId < row.updateId
  {
    hide Inv, OrderInv, Genuine, Preceded, RowOf;
    var p := w.calls[call].payload;
    UncommittedFacts(c, w, call);
    forall i | 0 <= i < |w.rows|
      ensures w.rows[i].updateId < p.updateId
    {
      RowPreceded(c, w, i);
      if w.rows[i].updateId > p.updateId {
        PrecededHasRow(c, w, p, w.rows[i].updateId);
        assert false;
      }
    }
  }

  lemma CommittingKeepsOrder(c: Config, w: World, call: nat)
    requires Inv(c, w) && OrderInv(c, w) && Enabled(c, w, Committed(call))
    ensures OrderInv(c, Apply(c, w, Committed(call)))
  {
    var after := Apply(c, w, Committed(call));
    var row, p := w.calls[call].stage.row, w.calls[call].payload;
    CommitIsNext(c, w, call);
    assert RowsInv(c, w);
    hide Inv, OrderInv, RowsInv, HasRow, Genuine, Preceded;
    UncommittedFacts(c, w, call);
    AppendedRow(c, w, row, p);
    hide RowOf;
    assert MoreRows(w, after);
    hide MoreRows;
    CommittedOrder(c, w, after, call, row);
  }

  lemma CommittedOrder(c: Config, w: World, after: World, call: nat, row: Row)
    requires OrderInv(c, w) && call in w.calls && w.calls[call].stage.Uncommitted?
    requires row.id < w.nextId && row.updateId == w.calls[call].payload.updateId
    requires forall i :: 0 <= i < |w.rows| ==> w.rows[i].id < row.id && w.rows[i].updateId < row.updateId
    requires MoreRows(w, after)
    requires after == w.(rows := w.rows + [row],
                         calls := w.calls[call := Call(w.calls[call].payload, Done(Accepted(false, false)))])
    ensures OrderInv(c, after)
  {
    hide HasRow, IsCommand, MoreRows;
    forall k <- after.calls
      ensures Preceded(c, after, after.calls[k].payload.updateId)
    {
      PrecededStays(c, w, after, w.calls[k].payload.updateId);
    }
    PrecededStays(c, w, after, row.updateId);
    forall i | 0 <= i < |after.rows|
      ensures Preceded(c, after, after.rows[i].updateId)
    {
      if i < |w.rows| {
        PrecededStays(c, w, after, w.rows[i].updateId);
      }
    }
    hide Preceded;
  }

  lemma StepKeepsOrder(c: Config, w: World, e: Event)
    requires Inv(c, w) && OrderInv(c, w) && Enabled(c, w, e)
    ensures OrderInv(c, Apply(c, w, e))
  {
    match e {
      case Posted(u) => PostingKeepsOrder(c, w, u);
      case Submitted(call) => SubmittingKeepsOrder(c, w, call);
      case Flushed(call) => FlushingKeepsOrder(c, w, call);
      case Committed(call) => CommittingKeepsOrder(c, w, call);
      case _ =>
        hide Inv, OrderInv, IsCommand, CommandPayload, HasRow, Delivers;
        OrderStays(c, w, Apply(c, w, e));
    }
  }

  lemma StepKeepsInv(c: Config, w: World, e: Event)
    requires Inv(c, w) && OrderInv(c, w) && Enabled(c, w, e)
    ensures Inv(c, Apply(c, w, e)) && OrderInv(c, Apply(c, w, e))
  {
    hide Inv, OrderInv, Enabled, Apply;
    StepKeepsOrder(c, w, e);
    match e {
      case Posted(u) => PostingKeepsInv(c, w, u);
      case Polled(_, _) => PollingKeepsInv(c, w, e);
      case PollLost(_) => PollingKeepsInv(c, w, e);
      case Passed => PassingKeepsInv(c, w);
      case Submitted(call) => SubmittingKeepsInv(c, w, call);
      case LookedUp(call) => LookingUpKeepsInv(c, w, call);
      case Flushed(call) => FlushKeepsInv(c, w, call);
      case Committed(call) => CommitKeepsInv(c, w, call);
      case Answered => AnsweringKeepsInv(c, w);
      case _ => LosingKeepsInv(c, w, e);
    }
  }

  lemma {:induction false} RunKeepsInv(c: Config, w: World, log: seq<Event>)
    requires Inv(c, w) && OrderInv(c, w) && Legal(c, w, log)
    ensures Inv(c, After(c, w, log)) && OrderInv(c, After(c, w, log))
    decreases |log|
  {
    hide Inv, OrderInv, Enabled, Apply;
    if log != [] {
      RunKeepsInv(c, w, log[..|log| - 1]);
      StepKeepsInv(c, After(c, w, log[..|log| - 1]), log[|log| - 1]);
    }
  }

  lemma ReachedInv(c: Config, log: seq<Event>, w: World)
    requires Reached(c, log, w)
    ensures Inv(c, w) && OrderInv(c, w)
  {
    RunKeepsInv(c, EmptyWorld(), log);
  }

  // ---------------------------------------------------------- main results

  /** The offset that the listener would poll with next. */
  function RunningOffset(l: Listener): Option<int> {
    match l
    case Polling(offset) => offset
    case Handling(next, _, _) => next
    case Waiting(next, _, _, _) => next
    case Stopped => None
  }

  lemma UniqueRow(c: Config, w: World, u: Update) returns (k: nat)
    requires Inv(c, w) && Handled(c, w, u) && IsCommand(c, u) && c.enabled
    ensures k < |w.rows| && w.rows[k].updateId == u.id
    ensures forall j :: 0 <= j < |w.rows| && w.rows[j].updateId == u.id ==> j == k
  {
    hide IsCommand, Covered, ListenerInv, RowInv;
    k :| 0 <= k < |w.rows| && w.rows[k].updateId == u.id;
  }

  /** Exactly-once intake: whatever replies were lost and however often the
      listener forgot its offset, while commands are enabled an authorised
      command that is confirmed to Telegram has exactly one row. */
  lemma ConfirmedHasExactlyOneRow(c: Config, log: seq<Event>, w: World, i: nat) returns (k: nat)
    requires Reached(c, log, w) && c.enabled && i < |w.posted| && IsCommand(c, w.posted[i])
    requires Below(w.posted[i].id, w.confirmed)
    ensures k < |w.rows| && w.rows[k].updateId == w.posted[i].id
    ensures forall j :: 0 <= j < |w.rows| && w.rows[j].updateId == w.posted[i].id ==> j == k
  {
    ReachedInv(c, log, w);
    k := UniqueRow(c, w, w.posted[i]);
  }

  /** The running offset never passes an unhandled update. */
  lemma OffsetNeverPassesUnhandled(c: Config, log: seq<Event>, w: World, i: nat)
    requires Reached(c, log, w) && i < |w.posted| && Below(w.posted[i].id, RunningOffset(w.listener))
    ensures IsCommand(c, w.posted[i]) && c.enabled ==> HasRow(w.rows, w.posted[i].id)
  {
    ReachedInv(c, log, w);
    hide IsCommand, HasRow, RowsInv, Upto;
    assert Covered(c, w, RunningOffset(w.listener));
  }

  /** Nothing is lost: a command without a row is still ahead of every poll. */
  lemma MissingCommandIsRedelivered(c: Config, log: seq<Event>, w: World, i: nat, first: nat, last: nat)
    requires Reached(c, log, w) && c.enabled && i < |w.posted| && IsCommand(c, w.posted[i])
    requires !HasRow(w.rows, w.posted[i].id) && Enabled(c, w, Polled(first, last))
    ensures first <= i
  {
    ReachedInv(c, log, w);
    hide IsCommand, HasRow, RowsInv, RowInv;
    assert Covered(c, w, Confirm(w, w.listener.offset));
  }

  lemma PayloadText(c: Config, u: Update)
    requires CommandPayload(c, u).Some?
    ensures u.message.Some? && u.message.value.text.Some?
    ensures var p := CommandPayload(c, u).value;
      && p.chatId == c.chatId
      && p.userId == c.userId
      && Some(p.messageId) == u.message.value.messageId
      && p.text == u.message.value.text.value
  {
  }

  /** Every row was made from exactly one authorised command, no update has two,
      and with commands disabled there are none. */
  lemma RowsAreCommands(c: Config, log: seq<Event>, w: World, k: nat) returns (j: nat)
    requires Reached(c, log, w) && k < |w.rows|
    ensures c.enabled && j < |w.posted| && IsCommand(c, w.posted[j])
    ensures w.rows[k] == RowOf(c, CommandPayload(c, w.posted[j]).value).(id := w.rows[k].id)
    ensures w.rows[k].updateId == w.posted[j].id
    ensures w.posted[j].message.Some? && w.posted[j].message.value.text.Some?
    ensures w.rows[k].chatId == c.chatId && w.rows[k].userId == c.userId
    ensures Some(w.rows[k].messageId) == w.posted[j].message.value.messageId
    ensures w.rows[k].videoId == c.parse(w.posted[j].message.value.text.value)
    ensures w.rows[k].rejected <==> c.parse(w.posted[j].message.value.text.value).None?
    ensures forall m :: 0 <= m < |w.rows| && m != k ==> w.rows[m].updateId != w.rows[k].updateId
  {
    ReachedInv(c, log, w);
    assert RowInv(c, w.posted, w.rows[k]);
    var p :| Genuine(c, w.posted, p) && w.rows[k] == RowOf(c, p).(id := w.rows[k].id);
    j :| CommandAt(c, w.posted, j, p);
    PayloadId(c, w.posted[j]);
    PayloadText(c, w.posted[j]);
    hide IsCommand, CommandPayload, Covered, ListenerInv;
  }

  /** Requests become visible in the order of their ids, and that is the order of
      their updates, even when requests overlap, wait for each other and die. */
  lemma RowsBecomeVisibleInOrder(c: Config, log: seq<Event>, w: World, i: nat, j: nat)
    requires Reached(c, log, w) && i < j < |w.rows|
    ensures w.rows[i].id < w.rows[j].id && w.rows[i].updateId < w.rows[j].updateId
  {
    ReachedInv(c, log, w);
    hide Inv, Preceded, UncommittedInv;
  }

  /** So every commit shows the queue an id above all that it has seen. */
  lemma CommitShowsNewId(c: Config, log: seq<Event>, w: World, call: nat)
    requires Reached(c, log, w) && Enabled(c, w, Committed(call))
    ensures Apply(c, w, Committed(call)).rows == w.rows + [w.calls[call].stage.row]
    ensures forall i :: 0 <= i < |w.rows| ==> w.rows[i].id < w.calls[call].stage.row.id
  {
    ReachedInv(c, log, w);
    CommitIsNext(c, w, call);
    hide Inv, OrderInv;
  }

  /** Rows are permanent. */
  lemma RowsStay(c: Config, w: World, e: Event)
    requires Enabled(c, w, e)
    ensures w.rows <= Apply(c, w, e).rows
  {
    hide LookUp, IsCommand, CommandPayload, HasRow;
  }

  /** The endpoint's answers to the listener: accepted without conflict, disabled,
      or a text beyond the endpoint's limit. */
  lemma EndpointAnswers(c: Config, log: seq<Event>, w: World, k: nat)
    requires Reached(c, log, w) && k in w.calls && w.calls[k].stage.Done?
    ensures match w.calls[k].stage.response
      case Accepted(_, conflict) => c.enabled && !conflict && HasRow(w.rows, w.calls[k].payload.updateId)
      case Refused(s) => (s == 409 && !c.enabled) || (s == 422 && |w.calls[k].payload.text| > MAX_TEXT)
  {
    ReachedInv(c, log, w);
    assert CallInv(c, w, w.calls[k]);
  }
}
