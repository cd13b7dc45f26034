/**
 Intake of Telegram commands: an at-least-once long poll
 (app/services/telegram_command_listener.py) that feeds an idempotent endpoint
 (app/api/routes/telegram_commands.py), as a machine over the Telegram server,
 the listener, the requests in flight and the table.

 Replies may be lost, requests may die or outlive the listener, and a restarted
 listener has forgotten its offset.
 */
module CommandIntake {
  import opened Prelude
  import opened SummaryOutput

  // ------------------------------------------------------- what is a command

  datatype Message = Message(
    chatType: string,
    chatId: int,
    senderId: int,
    senderChat: bool,
    forwarded: bool,
    text: Option<string>,
    messageId: Option<int>)

  /** `message` is absent when it, its chat or its sender has another shape. */
  datatype Update = Update(id: int, message: Option<Message>)

  /** Fixed per run.  `parse` is the command parser: the video id, or nothing for
      an unusable URL. */
  datatype Config = Config(
    enabled: bool,
    chatId: int,
    userId: int,
    botUsername: string,
    parse: string -> Option<string>)

  datatype Payload = Payload(updateId: int, chatId: int, userId: int, messageId: int, text: string)

  function Word(s: string): (word: string)
    ensures |word| <= |s|
  {
    if s == "" || IsSpace(s[0]) then "" else [s[0]] + Word(s[1..])
  }

  /** Python's `text.split()`. */
  function Words(s: string): seq<string>
    decreases |s|
  {
    if s == "" then []
    else if IsSpace(s[0]) then Words(s[1..])
    else [Word(s)] + Words(s[|Word(s)|..])
  }

  function LowerChar(c: char): char {
    if 'A' <= c <= 'Z' then (c as int + 32) as char else c
  }

  function Lower(s: string): (lower: string)
    ensures |lower| == |s|
  {
    seq(|s|, i requires 0 <= i < |s| => LowerChar(s[i]))
  }

  /** The part before the first `@`, and what follows it. */
  function Mentioned(token: string): (string, Option<string>) {
    if token == "" then ("", None)
    else if token[0] == '@' then ("", Some(token[1..]))
    else
      var rest := Mentioned(token[1..]);
      ([token[0]] + rest.0, rest.1)
  }

  const SUMMARY_COMMAND := "/summary"

  /** `_is_configured_summary_token` of the listener */
  predicate ConfiguredToken(c: Config, token: string) {
    || token == SUMMARY_COMMAND
    || (&& Mentioned(token).0 == SUMMARY_COMMAND
        && Mentioned(token).1.Some?
        && Lower(Mentioned(token).1.value) == c.botUsername)
  }

  /** `_is_summary_command` of the endpoint */
  predicate SummaryCommand(text: string) {
    Words(text) != [] && Mentioned(Words(text)[0]).0 == SUMMARY_COMMAND
  }

  /** `_command_payload` */
  function CommandPayload(c: Config, u: Update): Option<Payload> {
    match u.message
    case None => None
    case Some(m) =>
      if m.chatType != "private" || m.chatId != c.chatId || m.senderId != c.userId then None
      else if m.senderChat || m.forwarded then None
      else if m.text.None? || Words(m.text.value) == [] || m.messageId.None? then None
      else if !StartsWith(LStrip(m.text.value), "/") then None
      else Some(Payload(u.id, m.chatId, m.senderId, m.messageId.value, m.text.value))
  }

  /** An authorised /summary update. */
  predicate IsCommand(c: Config, u: Update) {
    && CommandPayload(c, u).Some?
    && Words(CommandPayload(c, u).value.text) != []
    && ConfiguredToken(c, Words(CommandPayload(c, u).value.text)[0])
  }

  // ------------------------------------------------------------ the endpoint

  /** `id` is the primary key; a row that is not yet inserted has 0. */
  datatype Row = Row(
    id: nat,
    updateId: int,
    chatId: int,
    userId: int,
    messageId: int,
    url: Option<string>,
    videoId: Option<string>,
    rejected: bool)

  datatype Response = Accepted(duplicate: bool, conflict: bool) | Refused(httpStatus: int)

  const MAX_TEXT := 4096

  function SubmittedUrl(text: string): Option<string> {
    var words := Words(text);
    if |words| >= 2 then Some(words[1][..Min(|words[1]|, MAX_TEXT)]) else None
  }

  function RowOf(c: Config, p: Payload): Row {
    var video := c.parse(p.text);
    Row(0, p.updateId, p.chatId, p.userId, p.messageId, SubmittedUrl(p.text), video, video.None?)
  }

  predicate HasRow(rows: seq<Row>, updateId: int) {
    exists i :: 0 <= i < |rows| && rows[i].updateId == updateId
  }

  function RowFor(rows: seq<Row>, updateId: int): (row: Row)
    requires HasRow(rows, updateId)
    ensures row in rows && row.updateId == updateId
  {
    if rows[0].updateId == updateId then rows[0] else RowFor(rows[1..], updateId)
  }

  /** `_duplicate_response` */
  function DuplicateResponse(existing: Row, p: Payload): Response {
    var same := existing.chatId == p.chatId && existing.userId == p.userId && existing.messageId == p.messageId
      && SummaryCommand(p.text) && existing.url == SubmittedUrl(p.text);
    Accepted(true, !same)
  }

  /** Looking up, about to insert, inserted but not committed, answered. */
  datatype Stage = Entered | Inserting(row: Row) | Uncommitted(row: Row) | Done(response: Response)

  /** `accept_telegram_command` up to its insert. */
  function LookUp(c: Config, rows: seq<Row>, p: Payload): Stage {
    if p.text == "" || |p.text| > MAX_TEXT then Done(Refused(422))
    else if !c.enabled then Done(Refused(409))
    else if HasRow(rows, p.updateId) then Done(DuplicateResponse(RowFor(rows, p.updateId), p))
    else if p.chatId != c.chatId || p.userId != c.userId then Done(Refused(403))
    else if !SummaryCommand(p.text) then Done(Refused(422))
    else Inserting(RowOf(c, p))
  }

  /** `_flush_new_request`: the unique constraint turns a second insert into a
      duplicate response; otherwise the row takes the next id. */
  function Flush(rows: seq<Row>, nextId: nat, row: Row, p: Payload): Stage {
    if HasRow(rows, row.updateId) then Done(DuplicateResponse(RowFor(rows, row.updateId), p))
    else Uncommitted(row.(id := nextId))
  }

  // ------------------------------------------------------------- the machine

  datatype Call = Call(payload: Payload, stage: Stage)

  /** `first..last` are the positions of the updates of the batch that are still
      to be handled. */
  datatype Listener =
    | Polling(offset: Option<int>)
    | Handling(next: Option<int>, first: nat, last: nat)
    | Waiting(next: Option<int>, first: nat, last: nat, call: nat)
    | Stopped

  /** All updates ever sent to the bot, in order; those below `confirmed` are
      never delivered again.  Ids are handed out by a sequence, also to rows
      that are rolled back. */
  datatype World = World(
    posted: seq<Update>,
    confirmed: Option<int>,
    listener: Listener,
    calls: map<nat, Call>,
    rows: seq<Row>,
    nextId: nat)

  datatype Event =
    | Posted(update: Update)
    | Polled(first: nat, last: nat)
    | PollLost(received: bool)
    | Passed
    | Submitted(call: nat)
    | LookedUp(call: nat)
    | Flushed(call: nat)
    | Committed(call: nat)
    | Answered
    | AnswerLost
    | CallDied(call: nat)
    | BatchDone
    | Restarted

  function EmptyWorld(): World {
    World([], None, Polling(None), map[], [], 1)
  }

  predicate Below(id: int, bound: Option<int>) {
    bound.Some? && id < bound.value
  }

  function Later(a: Option<int>, b: Option<int>): Option<int> {
    if a.None? then b else if b.None? then a else Some(Max(a.value, b.value))
  }

  /** The server confirms everything below the offset of a poll. */
  function Confirm(w: World, offset: Option<int>): Option<int> {
    Later(w.confirmed, offset)
  }

  const POLL_LIMIT := 100

  /** A poll is answered with the oldest unconfirmed updates. */
  predicate Delivers(w: World, offset: Option<int>, first: nat, last: nat) {
    && first <= last <= |w.posted|
    && last - first <= POLL_LIMIT
    && (forall i :: 0 <= i < first ==> Below(w.posted[i].id, Confirm(w, offset)))
    && (forall i :: first <= i < |w.posted| ==> !Below(w.posted[i].id, Confirm(w, offset)))
  }

  /** Updates below the running offset and everything but a command are passed
      over without a request. */
  predicate PassesOver(c: Config, next: Option<int>, u: Update) {
    Below(u.id, next) || !IsCommand(c, u)
  }

  /** A response that lets the offset pass. */
  predicate LetsPass(r: Response) {
    r.Accepted? || r == Refused(409)
  }

  predicate Retryable(r: Response) {
    r.Refused? && r.httpStatus >= 500
  }

  /** Another transaction has inserted the same update id and not ended: an insert
      waits for it. */
  predicate Blocked(calls: map<nat, Call>, call: nat)
    requires call in calls
  {
    exists k <- calls ::
      k != call && calls[k].stage.Uncommitted? && calls[k].payload.updateId == calls[call].payload.updateId
  }

  predicate Enabled(c: Config, w: World, e: Event) {
    match e
    case Posted(u) => forall i :: 0 <= i < |w.posted| ==> w.posted[i].id < u.id
    case Polled(first, last) => w.listener.Polling? && Delivers(w, w.listener.offset, first, last)
    case PollLost(_) => w.listener.Polling?
    case Passed =>
      && w.listener.Handling?
      && w.listener.first < w.listener.last <= |w.posted|
      && PassesOver(c, w.listener.next, w.posted[w.listener.first])
    case Submitted(call) =>
      && w.listener.Handling?
      && w.listener.first < w.listener.last <= |w.posted|
      && !PassesOver(c, w.listener.next, w.posted[w.listener.first])
      && call !in w.calls
    case LookedUp(call) => call in w.calls && w.calls[call].stage.Entered?
    case Flushed(call) => call in w.calls && w.calls[call].stage.Inserting? && !Blocked(w.calls, call)
    case Committed(call) => call in w.calls && w.calls[call].stage.Uncommitted?
    case Answered =>
      && w.listener.Waiting?
      && w.listener.call in w.calls
      && w.calls[w.listener.call].stage.Done?
      && w.listener.first < |w.posted|
    case AnswerLost => w.listener.Waiting?
    case CallDied(call) => call in w.calls
    case BatchDone => w.listener.Handling? && w.listener.first == w.listener.last
    case Restarted => true
  }

  /** A handled update moves the running offset past it. */
  function MoveOn(w: World, next: Option<int>, first: nat, last: nat): Listener
    requires first < |w.posted|
  {
    Handling(if Below(w.posted[first].id, next) then next else Some(w.posted[first].id + 1), first + 1, last)
  }

  function Apply(c: Config, w: World, e: Event): World
    requires Enabled(c, w, e)
  {
    match e
    case Posted(u) => w.(posted := w.posted + [u])
    case Polled(first, last) =>
      w.(confirmed := Confirm(w, w.listener.offset),
         listener := if first == last then w.listener else Handling(w.listener.offset, first, last))
    case PollLost(received) => if received then w.(confirmed := Confirm(w, w.listener.offset)) else w
    case Passed => w.(listener := MoveOn(w, w.listener.next, w.listener.first, w.listener.last))
    case Submitted(call) =>
      w.(listener := Waiting(w.listener.next, w.listener.first, w.listener.last, call),
         calls := w.calls[call := Call(CommandPayload(c, w.posted[w.listener.first]).value, Entered)])
    case LookedUp(call) =>
      var p := w.calls[call].payload;
      w.(calls := w.calls[call := Call(p, LookUp(c, w.rows, p))])
    case Flushed(call) =>
      var p := w.calls[call].payload;
      w.(calls := w.calls[call := Call(p, Flush(w.rows, w.nextId, w.calls[call].stage.row, p))], nextId := w.nextId + 1)
    case Committed(call) =>
      w.(rows := w.rows + [w.calls[call].stage.row],
         calls := w.calls[call := Call(w.calls[call].payload, Done(Accepted(false, false)))])
    case Answered =>
      var l := w.listener;
      var response := w.calls[l.call].stage.response;
      w.(calls := w.calls - {l.call},
         listener :=
           if LetsPass(response) then MoveOn(w, l.next, l.first, l.last)
           else if Retryable(response) then Polling(l.next)
           else Stopped)
    case AnswerLost => w.(listener := Polling(w.listener.next))
    case CallDied(call) => w.(calls := w.calls - {call})
    case BatchDone => w.(listener := Polling(w.listener.next))
    case Restarted => w.(listener := Polling(None))
  }

  // ------------------------------------------------------------------ runs

  predicate Legal(c: Config, w: World, log: seq<Event>)
    decreases |log|, 0
  {
    if log == [] then true
    else Legal(c, w, log[..|log| - 1]) && Enabled(c, After(c, w, log[..|log| - 1]), log[|log| - 1])
  }

  function After(c: Config, w: World, log: seq<Event>): World
    requires Legal(c, w, log)
    decreases |log|, 1
  {
    if log == [] then w else Apply(c, After(c, w, log[..|log| - 1]), log[|log| - 1])
  }

  lemma ExtendRun(c: Config, w: World, log: seq<Event>, e: Event)
    requires Legal(c, w, log) && Enabled(c, After(c, w, log), e)
    ensures Legal(c, w, log + [e]) && After(c, w, log + [e]) == Apply(c, After(c, w, log), e)
  {
    assert (log + [e])[..|log|] == log;
  }

  ghost predicate Reached(c: Config, log: seq<Event>, w: World) {
    Legal(c, EmptyWorld(), log) && w == After(c, EmptyWorld(), log)
  }
}
