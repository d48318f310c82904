/** The stored messages of a chat session: how a message becomes a row and a row becomes a
    message again. */
module ChatRows {
  import opened JsonText
  import opened Wrappers
  import opened Agent

  /** The identity of a row: one somebody chose, or one the store generated. */
  datatype RowId = Given(id: string) | Generated(n: nat)

  /** What a row keeps of a message. */
  datatype Body = Body(
    role: MessageRole,
    content: string,
    toolCalls: Option<seq<ToolCall>>,
    toolCallId: Option<string>,
    name: Option<string>,
    userId: Option<string>)

  /** The columns beside it annotate a row whose content is the raw text of a user. */
  datatype Row = Row(id: RowId, body: Body, time: Option<string>, source: Option<string>)

  function BodyOf(m: Message): Body {
    Body(m.role, m.content, m.toolCalls, m.toolCallId, m.name, if m.role.UserRole? then m.userId else None)
  }

  // ---- Writing one message ----

  predicate HasRow(rows: seq<Row>, id: RowId) {
    exists i :: 0 <= i < |rows| && rows[i].id == id
  }

  function Without(rows: seq<Row>, id: RowId): seq<Row> {
    if rows == [] then []
    else
      var last := rows[|rows| - 1];
      Without(rows[..|rows| - 1], id) + if last.id == id then [] else [last]
  }

  /** The identity a message is stored under. Without one of its own, a message of a leased run is
      named after the run and its place, any other gets a generated identity. */
  function IdOf(m: Message, run: Option<string>, index: nat, serial: nat): RowId {
    if m.messageId.Some? then Given(m.messageId.value)
    else if run.Some? then Given(run.value + ":message:" + Decimal(index))
    else Generated(serial)
  }

  predicate ShouldPersist(m: Message, callerPersistedId: Option<string>) {
    callerPersistedId.Some? ==> !(m.role.UserRole? && m.messageId == callerPersistedId)
  }

  predicate IsPlaceholder(m: Message, preinsertedId: Option<string>) {
    m.role.AssistantRole? && preinsertedId.Some? && m.messageId == preinsertedId
  }

  /** One message written, or left alone, or failed; `run` names the leased run that writes, if
      one does. A waiting row is filled in and comes to the end of the conversation, at once or,
      for a leased run, with the record that ends the run. Filling in a row that is not there is
      an error for a leased run and a silent success otherwise. Inserting under an identity that
      is taken fails, and a leased run writes no user's message. */
  function PersistOne(rows: seq<Row>, m: Message, callerPersistedId: Option<string>, preinsertedId: Option<string>,
                      run: Option<string>, index: nat, serial: nat, ok: bool): Result<seq<Row>, ()>
  {
    var id := IdOf(m, run, index, serial);
    if m.role.SystemRole? || !ShouldPersist(m, callerPersistedId) then Success(rows)
    else if !ok || (run.Some? && m.role.UserRole?) then Failure(())
    else if IsPlaceholder(m, preinsertedId) then
      if HasRow(rows, id) then Success(Without(rows, id) + [Row(id, BodyOf(m), None, None)])
      else if run.Some? then Failure(())
      else Success(rows)
    else if HasRow(rows, id) then Failure(())
    else Success(rows + [Row(id, BodyOf(m), None, None)])
  }

  /** What becomes of one message. */
  lemma PersistOneMeans(rows: seq<Row>, m: Message, callerId: Option<string>, preId: Option<string>, run: Option<string>, index: nat,
                        serial: nat, ok: bool)
    ensures var r := PersistOne(rows, m, callerId, preId, run, index, serial, ok);
      var id := match m.messageId
                case Some(id) => Given(id)
                case None => match run case Some(name) => Given(name + ":message:" + Decimal(index)) case None => Generated(serial);
      var row := Row(id, Body(m.role, m.content, m.toolCalls, m.toolCallId, m.name, if m.role == UserRole then m.userId else None), None, None);
      var unwritten := m.role == SystemRole || (m.role == UserRole && callerId.Some? && m.messageId == callerId);
      var waiting := m.role == AssistantRole && preId.Some? && m.messageId == preId;
      var refused := !ok || (run.Some? && m.role == UserRole);
      && (unwritten ==> r == Success(rows))
      && (!unwritten && refused ==> r == Failure(()))
      && (!unwritten && !refused && waiting ==>
            r == if HasRow(rows, id) then Success(Without(rows, id) + [row]) else if run.Some? then Failure(()) else Success(rows))
      && (!unwritten && !refused && !waiting ==> r == if HasRow(rows, id) then Failure(()) else Success(rows + [row]))
  {
    hide HasRow, Without;
  }

  // ---- Reading back ----

  predicate IsWhitespace(c: char) {
    var n := c as int;
    (0x09 <= n <= 0x0D) || n in {0x20, 0x85, 0xA0, 0x1680, 0x2028, 0x2029, 0x202F, 0x205F, 0x3000} || (0x2000 <= n <= 0x200A)
  }

  /** The characters with the property White_Space of Unicode, one by one: the controls from tab to
      carriage return, the space, the next line, the no-break space, the Ogham space, the typographic
      spaces, the separators of lines and paragraphs, the narrow no-break space, the mathematical
      space and the ideographic space. */
  lemma WhitespaceIs(c: char)
    ensures IsWhitespace(c) <==>
      c in {'\U{0009}', '\U{000A}', '\U{000B}', '\U{000C}', '\U{000D}', ' ', '\U{0085}', '\U{00A0}', '\U{1680}',
            '\U{2000}', '\U{2001}', '\U{2002}', '\U{2003}', '\U{2004}', '\U{2005}', '\U{2006}', '\U{2007}', '\U{2008}',
            '\U{2009}', '\U{200A}', '\U{2028}', '\U{2029}', '\U{202F}', '\U{205F}', '\U{3000}'}
  {
  }

  predicate IsBlank(s: string) {
    forall i :: 0 <= i < |s| ==> IsWhitespace(s[i])
  }

  /** What is left of a string without the white space around it. */
  function TrimStart(s: string): string {
    if s != [] && IsWhitespace(s[0]) then TrimStart(s[1..]) else s
  }

  function TrimEnd(s: string): string {
    if s != [] && IsWhitespace(s[|s| - 1]) then TrimEnd(s[..|s| - 1]) else s
  }

  /** A string is blank exactly when trimming leaves nothing of it. */
  lemma {:induction false} BlankTrimsToNothing(s: string)
    ensures IsBlank(s) <==> TrimEnd(TrimStart(s)) == ""
  {
    if s != [] && IsWhitespace(s[0]) {
      BlankTrimsToNothing(s[1..]);
      assert s == [s[0]] + s[1..];
    } else if s != [] {
      KeepsFirst(s);
    }
  }

  lemma {:induction false} KeepsFirst(s: string)
    requires s != [] && !IsWhitespace(s[0])
    ensures TrimEnd(s) != ""
  {
    if |s| > 1 && IsWhitespace(s[|s| - 1]) {
      KeepsFirst(s[..|s| - 1]);
    }
  }

  /** An empty assistant row without tool calls counts as a placeholder and is not read. */
  predicate IsRead(r: Row) {
    !(r.body.role.AssistantRole? && IsBlank(r.body.content) && r.body.toolCalls.None?)
  }

  function ReadRow(r: Row): Message {
    var b := r.body;
    match b.role
    case UserRole => UserMessage(MetadataPrefix(r.time, r.source) + b.content, b.userId)
    case AssistantRole =>
      if b.toolCalls.Some? && b.toolCalls.value != [] then ToolCallsMessage(b.content, b.toolCalls.value)
      else AssistantMessage(b.content)
    case ToolRole =>
      ToolResultMessage(if b.toolCallId.Some? then b.toolCallId.value else "", if b.name.Some? then b.name.value else "", b.content)
    case SystemRole => SystemMessage(b.content)
  }

  /** The history of a session: its rows in order, but for one the caller already holds. */
  function Reload(rows: seq<Row>, callerPersistedId: Option<string>): seq<Message> {
    if rows == [] then []
    else
      var last := rows[|rows| - 1];
      Reload(rows[..|rows| - 1], callerPersistedId)
      + if !IsRead(last) || (callerPersistedId.Some? && last.id == Given(callerPersistedId.value)) then [] else [ReadRow(last)]
  }

  // ---- Round trip ----

  /** A message as the model sees it: no message identity, and an empty list of tool calls is none. */
  function Seen(m: Message): Message {
    m.(messageId := None, toolCalls := if m.toolCalls == Some([]) then None else m.toolCalls)
  }

  function SeenAll(messages: seq<Message>): seq<Message> {
    seq(|messages|, i requires 0 <= i < |messages| => Seen(messages[i]))
  }

  /** Messages as the agent makes them. */
  predicate WellFormed(m: Message) {
    match m.role
    case UserRole => m.toolCalls.None? && m.toolCallId.None? && m.name.None?
    case AssistantRole => m.toolCallId.None? && m.name.None? && m.userId.None?
    case ToolRole => m.toolCalls.None? && m.toolCallId.Some? && m.name.Some? && m.userId.None?
    case SystemRole => m.toolCalls.None? && m.toolCallId.None? && m.name.None? && m.userId.None?
  }

  /** A row written for a message reads back as what the model saw, no annotation lost or doubled:
      neither for a message stored with its annotation in the text and empty columns, nor for a
      user's raw text with the annotation in the columns. */
  lemma RowRoundTrip(m: Message, id: RowId, raw: string, time: Option<string>, source: Option<string>)
    requires WellFormed(m)
    ensures ReadRow(Row(id, BodyOf(m), None, None)) == Seen(m)
    ensures m.role.UserRole? && m.content == MetadataPrefix(time, source) + raw ==>
      ReadRow(Row(id, BodyOf(m).(content := raw), time, source)) == Seen(m)
  {
    assert MetadataPrefix(None, None) + m.content == m.content;
  }

  /** A row that holds a message: all of it in the content, or a user's raw text in the content
      and the annotation in the columns. */
  predicate HoldsMessage(row: Row, m: Message) {
    || row == Row(row.id, BodyOf(m), None, None)
    || (&& m.role.UserRole?
        && row.body == BodyOf(m).(content := row.body.content)
        && m.content == MetadataPrefix(row.time, row.source) + row.body.content)
  }

  /** The rows that hold these messages, in order, under whatever identities. */
  predicate Holds(rows: seq<Row>, messages: seq<Message>) {
    |rows| == |messages| && forall i :: 0 <= i < |rows| ==> HoldsMessage(rows[i], messages[i])
  }

  predicate IsBlankAnswer(m: Message) {
    m.role.AssistantRole? && IsBlank(m.content) && m.toolCalls.None?
  }

  /** The messages that are read back. */
  function Kept(messages: seq<Message>): seq<Message> {
    if messages == [] then []
    else
      var last := messages[|messages| - 1];
      Kept(messages[..|messages| - 1]) + if IsBlankAnswer(last) then [] else [last]
  }

  lemma {:induction false} ReloadIsKept(rows: seq<Row>, messages: seq<Message>)
    requires Holds(rows, messages) && forall m :: m in messages ==> WellFormed(m)
    ensures Reload(rows, None) == SeenAll(Kept(messages))
  {
    if rows != [] {
      var n := |rows| - 1;
      var row, message := rows[n], messages[n];
      ReloadIsKept(rows[..n], messages[..n]);
      assert message in messages;
      RowRoundTrip(message, row.id, row.body.content, row.time, row.source);
      assert IsRead(row) <==> !IsBlankAnswer(message);
      var kept := Kept(messages[..n]);
      assert SeenAll(kept + [message]) == SeenAll(kept) + [Seen(message)];
      assert SeenAll(kept + []) == SeenAll(kept) by {
        assert kept + [] == kept;
      }
    }
  }

  lemma {:induction false} KeptLength(messages: seq<Message>)
    ensures |Kept(messages)| <= |messages|
    ensures |Kept(messages)| == |messages| <==> forall m :: m in messages ==> !IsBlankAnswer(m)
    ensures (forall m :: m in messages ==> !IsBlankAnswer(m)) ==> Kept(messages) == messages
  {
    if messages != [] {
      var n := |messages| - 1;
      KeptLength(messages[..n]);
      assert messages == messages[..n] + [messages[n]];
      assert forall m :: m in messages <==> m in messages[..n] || m == messages[n];
    }
  }

  /** Stored messages are read back exactly as the model saw them if and only if none of them is a
      blank answer, an assistant message of white space without tool calls, which is dropped. */
  lemma ReloadRoundTrip(rows: seq<Row>, messages: seq<Message>)
    requires Holds(rows, messages) && forall m :: m in messages ==> WellFormed(m)
    ensures Reload(rows, None) == SeenAll(messages) <==> forall m :: m in messages ==> !IsBlankAnswer(m)
  {
    ReloadIsKept(rows, messages);
    KeptLength(messages);
  }

  // ---- Tables ----

  predicate DistinctIds(rows: seq<Row>) {
    forall i, j :: 0 <= i < j < |rows| ==> rows[i].id != rows[j].id
  }

  lemma {:induction false} WithoutAbsent(rows: seq<Row>, id: RowId)
    requires !HasRow(rows, id)
    ensures Without(rows, id) == rows
  {
    if rows != [] {
      assert !HasRow(rows[..|rows| - 1], id);
      WithoutAbsent(rows[..|rows| - 1], id);
    }
  }

  lemma {:induction false} WithoutConcat(a: seq<Row>, b: seq<Row>, id: RowId)
    ensures Without(a + b, id) == Without(a, id) + Without(b, id)
  {
    if b == [] {
      assert a + b == a;
    } else {
      WithoutConcat(a, b[..|b| - 1], id);
      assert (a + b)[..|a + b| - 1] == a + b[..|b| - 1];
    }
  }

  /** What is left are the other rows, in their order. */
  lemma {:induction false} WithoutKeepsOthers(rows: seq<Row>, id: RowId)
    requires DistinctIds(rows)
    ensures DistinctIds(Without(rows, id)) && !HasRow(Without(rows, id), id)
    ensures forall r :: r in Without(rows, id) <==> r in rows && r.id != id
  {
    if rows != [] {
      var n := |rows| - 1;
      WithoutKeepsOthers(rows[..n], id);
      var before := Without(rows[..n], id);
      assert rows == rows[..n] + [rows[n]];
      if rows[n].id != id {
        assert forall r :: r in before ==> r.id != rows[n].id;
        assert Without(rows, id) == before + [rows[n]];
      }
    }
  }
}
