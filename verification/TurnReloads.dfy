/** What a stored turn is when it is read back on a later one. */
module TurnReloads {
  import opened Wrappers
  import opened Agent
  import opened ChatRows
  import opened Adapter

  // ---- The rows of a turn ----

  lemma {:induction false} GroupsAreWellFormed(groups: seq<Group>)
    ensures forall m :: m in Flatten(groups) ==> ChatRows.WellFormed(m) && !IsBlankAnswer(m)
  {
    if groups != [] {
      var g := groups[|groups| - 1];
      GroupsAreWellFormed(groups[..|groups| - 1]);
      ResultsAreOfTools(g, if |g.results| <= |g.calls| then |g.results| else |g.calls|);
    }
  }

  /** The rows of a completely stored turn are read back exactly as the model saw their messages,
      unless its answer is nothing but white space: then, and only then, the answer is missing. */
  lemma AddedRowsReload(a: Account, rows: seq<Row>, serial: nat, turn: seq<Message>, messages: seq<Message>, from: nat,
                          user: UserPersistence, assistant: AssistantPersistence, b: nat,
                          message: Message, groups: seq<Group>, result: Result<string, ChatError>)
    requires TurnStored(a, rows, serial, turn, messages, from, user, assistant, b, |turn|)
    requires TurnShape(turn[from..], message, groups, result) && ChatRows.WellFormed(message) && message.role.UserRole?
    ensures var stored := if user.CallerPersisted? then turn[from + 1..] else turn[from..];
      Reload(a.added, None) == SeenAll(stored) <==> !(result.Success? && IsBlank(result.value))
  {
    var stored := if user.CallerPersisted? then turn[from + 1..] else turn[from..];
    AllAreHeld(a, rows, serial, turn, messages, from, user, assistant, b);
    hide TurnStored, Reload, SeenAll, TurnShape, IsBlank, Holds, ChatRows.WellFormed;
    assert turn[from..][1..] == turn[from + 1..] by {
      StoredMessages(turn[from..], message, groups, result);
    }
    HeldTurnReloads(a.added, turn[from..], stored, message, groups, result);
  }

  lemma AllAreHeld(a: Account, rows: seq<Row>, serial: nat, turn: seq<Message>, messages: seq<Message>, from: nat,
                   user: UserPersistence, assistant: AssistantPersistence, b: nat)
    requires TurnStored(a, rows, serial, turn, messages, from, user, assistant, b, |turn|)
    ensures from < |turn| && Holds(a.added, if user.CallerPersisted? then turn[from + 1..] else turn[from..])
  {
    hide Accounts, Tagged, IsTurn, Persistables, Holds;
    StoredIsPrefix(a, rows, serial, turn, messages, from, user, assistant, b, |turn|);
    FromWithin(turn, from);
    PersistablesOfTurn(turn, from, |turn|, Skip(user, from));
    assert turn[from..|turn|] == turn[from..] && turn[from + 1..|turn|] == turn[from + 1..];
    HeldInText(a.added, Persistables(turn, from, |turn|, Skip(user, from)));
  }

  lemma HeldInText(rows: seq<Row>, messages: seq<Message>)
    requires |rows| == |messages| && forall i :: 0 <= i < |rows| ==> rows[i] == Row(rows[i].id, BodyOf(messages[i]), None, None)
    ensures Holds(rows, messages)
  {
  }

  lemma HeldTurnReloads(added: seq<Row>, pushed: seq<Message>, stored: seq<Message>,
                        message: Message, groups: seq<Group>, result: Result<string, ChatError>)
    requires TurnShape(pushed, message, groups, result) && ChatRows.WellFormed(message) && message.role.UserRole?
    requires pushed != [] && (stored == pushed || stored == pushed[1..]) && Holds(added, stored)
    ensures Reload(added, None) == SeenAll(stored) <==> !(result.Success? && IsBlank(result.value))
  {
    StoredMessages(pushed, message, groups, result);
    hide TurnShape, IsBlank, IsBlankAnswer, Holds, ChatRows.WellFormed, Reload, SeenAll;
    assert forall m :: m in pushed[1..] ==> m in pushed;
    ReloadRoundTrip(added, stored);
  }

  /** Of the messages of a turn only a blank final answer is not read back. */
  lemma StoredMessages(pushed: seq<Message>, message: Message, groups: seq<Group>, result: Result<string, ChatError>)
    requires TurnShape(pushed, message, groups, result) && ChatRows.WellFormed(message) && message.role.UserRole?
    ensures forall m :: m in pushed ==> ChatRows.WellFormed(m)
    ensures pushed != []
    ensures (forall m :: m in pushed ==> !IsBlankAnswer(m)) <==> !(result.Success? && IsBlank(result.value))
    ensures (forall m :: m in pushed[1..] ==> !IsBlankAnswer(m)) <==> !(result.Success? && IsBlank(result.value))
  {
    GroupsAreWellFormed(groups);
    var answer := if result.Success? then [AssistantMessage(result.value)] else [];
    assert pushed[1..] == Flatten(groups) + answer;
    assert pushed == [message] + pushed[1..];
    assert forall m :: m in pushed <==> m == message || m in pushed[1..];
    assert forall m :: m in pushed[1..] <==> m in Flatten(groups) || m in answer;
    assert result.Success? ==> AssistantMessage(result.value) in pushed[1..];
  }

  // ---- The whole table ----

  lemma {:induction false} ReloadConcat(a: seq<Row>, b: seq<Row>, callerId: Option<string>)
    ensures Reload(a + b, callerId) == Reload(a, callerId) + Reload(b, callerId)
  {
    if b == [] {
      assert a + b == a;
    } else {
      ReloadConcat(a, b[..|b| - 1], callerId);
      assert (a + b)[..|a + b| - 1] == a + b[..|b| - 1];
    }
  }

  lemma {:induction false} UnreadRows(rows: seq<Row>, callerId: Option<string>)
    requires forall r :: r in rows ==> !IsRead(r)
    ensures Reload(rows, callerId) == []
  {
    if rows != [] {
      UnreadRows(rows[..|rows| - 1], callerId);
    }
  }

  /** A row that is not read is not missed. */
  lemma {:induction false} ReloadWithout(rows: seq<Row>, id: RowId)
    requires forall r :: r in rows && r.id == id ==> !IsRead(r)
    ensures Reload(Without(rows, id), None) == Reload(rows, None)
  {
    if rows != [] {
      var n := |rows| - 1;
      ReloadWithout(rows[..n], id);
      ReloadConcat(Without(rows[..n], id), if rows[n].id == id then [] else [rows[n]], None);
      ReloadOne(rows[n]);
      assert Reload(rows[..n], None) + [] == Reload(rows[..n], None);
    }
  }

  lemma ReloadOne(row: Row)
    ensures Reload([row], None) == if IsRead(row) then [ReadRow(row)] else []
  {
    assert [row][..0] == [];
  }

  lemma {:induction false} ReloadOfOthers(rows: seq<Row>, callerId: string)
    requires forall r :: r in rows ==> r.id != Given(callerId)
    ensures Reload(rows, Some(callerId)) == Reload(rows, None)
  {
    if rows != [] {
      ReloadOfOthers(rows[..|rows| - 1], callerId);
    }
  }

  /** The table a turn starts from: a history, the row of the user's message if its caller wrote
      one, and rows that are not read, such as the one that waits for the answer. */
  predicate StartsTurn(before: seq<Row>, history: seq<Row>, own: seq<Row>, waiting: seq<Row>, user: UserPersistence, message: Message) {
    && before == history + own + waiting
    && (forall r :: r in waiting ==> !IsRead(r))
    && (user.AdapterPersists? ==> own == [])
    && (user.CallerPersisted? ==> |own| == 1 && own[0].id == Given(user.callerId) && HoldsMessage(own[0], message))
  }

  /** The row of the user's message, annotated in its columns, reads as the message; without it the
      rows a turn starts from read as its history. */
  lemma StartReloads(before: seq<Row>, history: seq<Row>, own: seq<Row>, waiting: seq<Row>, user: UserPersistence, message: Message)
    requires StartsTurn(before, history, own, waiting, user, message) && DistinctIds(before)
    requires ChatRows.WellFormed(message) && message.role.UserRole?
    ensures Reload(before, None)
      == Reload(before, user.CallerPersistedId()) + if user.CallerPersisted? then [Seen(message)] else []
  {
    hide ReadRow, Seen;
    ReloadConcat(history + own, waiting, None);
    ReloadConcat(history, own, None);
    UnreadRows(waiting, None);
    if user.CallerPersisted? {
      var row := own[0];
      ReloadConcat(history + own, waiting, Some(user.callerId));
      ReloadConcat(history, own, Some(user.callerId));
      UnreadRows(waiting, Some(user.callerId));
      OwnRowReads(row, message);
      OnlyOwn(history, own, waiting, user.callerId);
      ReloadOfOthers(history, user.callerId);
      assert own[..0] == [] && own == [row];
    }
  }

  lemma OwnRowReads(row: Row, message: Message)
    requires HoldsMessage(row, message) && ChatRows.WellFormed(message) && message.role.UserRole?
    ensures IsRead(row) && ReadRow(row) == Seen(message)
  {
    RowRoundTrip(message, row.id, row.body.content, row.time, row.source);
  }

  lemma OnlyOwn(history: seq<Row>, own: seq<Row>, waiting: seq<Row>, callerId: string)
    requires DistinctIds(history + own + waiting) && |own| == 1 && own[0].id == Given(callerId)
    ensures forall r :: r in history ==> r.id != Given(callerId)
  {
    var before := history + own + waiting;
    forall i | 0 <= i < |history| ensures history[i].id != Given(callerId) {
      assert before[i] == history[i] && before[|history|] == own[0];
    }
  }

  /** After a completely stored turn the whole table reads as the history and then the turn exactly
      as the model saw them, whoever wrote the row of the user's message and whether the answer
      filled a waiting row, unless the answer is nothing but white space: then, and only then, it
      is missing. */
  lemma StoredTurnReloads(a: Account, rows: seq<Row>, serial: nat, turn: seq<Message>, messages: seq<Message>, from: nat,
                          user: UserPersistence, assistant: AssistantPersistence, b: nat,
                          message: Message, groups: seq<Group>, result: Result<string, ChatError>,
                          history: seq<Row>, own: seq<Row>, waiting: seq<Row>)
    requires TurnStored(a, rows, serial, turn, messages, from, user, assistant, b, |turn|)
    requires TurnShape(turn[from..], message, groups, result) && ChatRows.WellFormed(message) && message.role.UserRole?
    requires StartsTurn(a.before, history, own, waiting, user, message) && DistinctIds(a.before)
    requires assistant.PreinsertedId().Some? ==>
      forall r :: r in a.before && r.id == Given(assistant.PreinsertedId().value) ==> !IsRead(r)
    ensures Reload(rows, None) == Reload(a.before, user.CallerPersistedId()) + SeenAll(turn[from..])
      <==> !(result.Success? && IsBlank(result.value))
  {
    hide Accounts, IsTurn, Tagged, Persistables, StartsTurn, TurnShape, Reload, SeenAll, Seen, IsBlank, IsRead, DistinctIds,
      ChatRows.WellFormed;
    FromWithin(turn, from);
    AddedRowsReload(a, rows, serial, turn, messages, from, user, assistant, b, message, groups, result);
    TableReloads(a, rows, assistant.PreinsertedId(), serial);
    StartReloads(a.before, history, own, waiting, user, message);
    SeenFirst(turn, from, message, groups, result);
    var shown := if user.CallerPersisted? then [Seen(message)] else [];
    var stored := SeenAll(if user.CallerPersisted? then turn[from + 1..] else turn[from..]);
    assert SeenAll(turn[from..]) == shown + stored;
    SameTail(Reload(a.before, user.CallerPersistedId()), shown, Reload(a.added, None), stored);
  }

  lemma SameTail(start: seq<Message>, mid: seq<Message>, x: seq<Message>, y: seq<Message>)
    ensures start + mid + x == start + (mid + y) <==> x == y
  {
    assert start + (mid + y) == start + mid + y;
    assert x == (start + mid + x)[|start + mid|..] && y == (start + mid + y)[|start + mid|..];
  }

  lemma TableReloads(a: Account, rows: seq<Row>, preId: Option<string>, serial: nat)
    requires Accounts(a, rows, preId, serial)
    requires preId.Some? ==> forall r :: r in a.before && r.id == Given(preId.value) ==> !IsRead(r)
    ensures Reload(rows, None) == Reload(a.before, None) + Reload(a.added, None)
  {
    hide Added, TableOk, HasRow, Reload, Without, IsRead;
    if a.filled && preId.Some? {
      ReloadWithout(a.before, Given(preId.value));
      ReloadConcat(Without(a.before, Given(preId.value)), a.added, None);
    } else {
      ReloadConcat(a.before, a.added, None);
    }
  }

  lemma SeenFirst(turn: seq<Message>, from: nat, message: Message, groups: seq<Group>, result: Result<string, ChatError>)
    requires from < |turn| && TurnShape(turn[from..], message, groups, result)
    ensures SeenAll(turn[from..]) == [Seen(message)] + SeenAll(turn[from + 1..])
  {
    hide Flatten, Seen;
    assert turn[from..][0] == message;
    assert turn[from..][1..] == turn[from + 1..];
  }
}
