/** The adapter between the agent loop and the stored messages: history is loaded once, new
    messages are written while the loop runs, and a last pass writes what is left. */
module Adapter {
  import opened Wrappers
  import opened Agent
  import opened ChatRows
  import opened Writing

  /** How a user's message reaches the store. `CallerPersisted`: its row was there first. */
  datatype UserPersistence = AdapterPersists(id: Option<string>) | CallerPersisted(callerId: string) {
    function TagId(): Option<string> {
      match this
      case AdapterPersists(id) => id
      case CallerPersisted(id) => Some(id)
    }

    function CallerPersistedId(): Option<string> {
      if CallerPersisted? then Some(callerId) else None
    }
  }

  /** How the answer reaches the store. `CallerPreInserted`: an empty row waits for it. `Durable`:
      the same, and every write of the turn is made under the lease of a run that was claimed
      together with its history. */
  datatype AssistantPersistence =
    | AdapterInserts(id: Option<string>)
    | CallerPreInserted(preId: string)
    | Durable(answerId: string, runId: string, history: seq<Row>)
  {
    function TagId(): Option<string> {
      match this
      case AdapterInserts(id) => id
      case CallerPreInserted(id) => Some(id)
      case Durable(id, _, _) => Some(id)
    }

    function PreinsertedId(): Option<string> {
      match this
      case AdapterInserts(_) => None
      case CallerPreInserted(id) => Some(id)
      case Durable(id, _, _) => Some(id)
    }

    function Run(): Option<string> {
      if Durable? then Some(runId) else None
    }
  }

  // ---- Tags ----

  function FirstUser(messages: seq<Message>, from: nat): Option<nat>
    decreases |messages| - from
  {
    if from >= |messages| then None
    else if messages[from].role.UserRole? then Some(from)
    else FirstUser(messages, from + 1)
  }

  function LastAssistant(messages: seq<Message>): Option<nat> {
    if messages == [] then None
    else if messages[|messages| - 1].role.AssistantRole? then Some(|messages| - 1)
    else LastAssistant(messages[..|messages| - 1])
  }

  lemma {:induction false} LastAssistantIsLast(messages: seq<Message>)
    ensures var at := LastAssistant(messages);
      && (at.None? <==> forall i :: 0 <= i < |messages| ==> !messages[i].role.AssistantRole?)
      && (at.Some? ==>
            && at.value < |messages| && messages[at.value].role.AssistantRole?
            && forall i :: at.value < i < |messages| ==> !messages[i].role.AssistantRole?)
      && (|messages| > 0 && messages[|messages| - 1].role.AssistantRole? ==> at == Some(|messages| - 1))
  {
    if messages != [] && !messages[|messages| - 1].role.AssistantRole? {
      LastAssistantIsLast(messages[..|messages| - 1]);
    }
  }

  // ---- What is to be stored ----

  /** The messages from one index to another that the adapter has to store, in order: all but
      system messages and the one whose row was there first. */
  function Persistables(messages: seq<Message>, from: nat, until: nat, skip: Option<nat>): seq<Message>
    requires until <= |messages|
    decreases until
  {
    if until <= from then []
    else
      var m := messages[until - 1];
      Persistables(messages, from, until - 1, skip) + if m.role.SystemRole? || skip == Some(until - 1) then [] else [m]
  }

  lemma PersistablesNext(messages: seq<Message>, from: nat, i: nat, skip: Option<nat>)
    requires from <= i < |messages|
    ensures Persistables(messages, from, from, skip) == []
    ensures Persistables(messages, from, i + 1, skip)
      == Persistables(messages, from, i, skip) + if messages[i].role.SystemRole? || skip == Some(i) then [] else [messages[i]]
  {
  }

  lemma {:induction false} PersistablesStable(a: seq<Message>, b: seq<Message>, from: nat, until: nat, skip: Option<nat>)
    requires until <= |a| && until <= |b|
    requires forall i :: from <= i < until ==> a[i] == b[i]
    ensures Persistables(a, from, until, skip) == Persistables(b, from, until, skip)
    decreases until
  {
    if from < until {
      PersistablesStable(a, b, from, until - 1, skip);
    }
  }

  lemma {:induction false} PersistablesGrow(messages: seq<Message>, from: nat, mid: nat, until: nat, skip: Option<nat>)
    requires from <= mid <= until <= |messages|
    ensures Persistables(messages, from, mid, skip) <= Persistables(messages, from, until, skip)
    decreases until
  {
    if mid < until {
      PersistablesGrow(messages, from, mid, until - 1, skip);
    }
  }

  lemma {:induction false} PersistablesConcat(messages: seq<Message>, from: nat, mid: nat, until: nat, skip: Option<nat>)
    requires from <= mid <= until <= |messages|
    ensures Persistables(messages, from, until, skip)
      == Persistables(messages, from, mid, skip) + Persistables(messages, mid, until, skip)
    decreases until
  {
    if mid < until {
      PersistablesConcat(messages, from, mid, until - 1, skip);
    }
  }

  function Bodies(messages: seq<Message>): seq<Body> {
    seq(|messages|, i requires 0 <= i < |messages| => BodyOf(messages[i]))
  }

  // ---- The account of a table ----

  /** The rows of a turn's start, the rows it added, and what those rows store; `filled` once the
      waiting row was filled in. `run` is the leased run that writes, if one does. */
  datatype Account = Account(before: seq<Row>, added: seq<Row>, stored: seq<Message>, filled: bool, run: Option<string>)

  /** A row holds the message as it was when it was written, under its identity if it had one. */
  predicate Stores(row: Row, m: Message, run: Option<string>) {
    && row == Row(row.id, BodyOf(m), None, None)
    && (if m.messageId.Some? then row.id == Given(m.messageId.value) else run.None? ==> row.id.Generated?)
  }

  /** Identities are unique, and generated ones are not generated again. */
  predicate TableOk(rows: seq<Row>, serial: nat) {
    DistinctIds(rows) && forall r :: r in rows && r.id.Generated? ==> r.id.n < serial
  }

  ghost predicate Added(a: Account) {
    |a.added| == |a.stored| && forall i :: 0 <= i < |a.added| ==> Stores(a.added[i], a.stored[i], a.run)
  }

  /** The table is the account. */
  ghost predicate Accounts(a: Account, rows: seq<Row>, preId: Option<string>, serial: nat) {
    && rows == (if a.filled && preId.Some? then Without(a.before, Given(preId.value)) else a.before) + a.added
    && Added(a)
    && TableOk(rows, serial)
    && (preId.Some? && !a.filled ==> HasRow(a.before, Given(preId.value)))
  }

  /** Inserting a row. */
  lemma InsertAccounts(a: Account, rows: seq<Row>, preId: Option<string>, serial: nat, row: Row, m: Message)
    requires Accounts(a, rows, preId, serial) && !HasRow(rows, row.id) && Stores(row, m, a.run)
    requires row.id.Generated? ==> row.id.n == serial
    ensures Accounts(a.(added := a.added + [row], stored := a.stored + [m]), rows + [row], preId, serial + 1)
  {
    assert forall i :: 0 <= i < |rows| ==> rows[i].id != row.id;
  }

  lemma FilledTableOk(rows: seq<Row>, serial: nat, row: Row)
    requires TableOk(rows, serial) && row.id.Given?
    ensures TableOk(Without(rows, row.id) + [row], serial + 1)
  {
    WithoutKeepsOthers(rows, row.id);
    var rest := Without(rows, row.id);
    assert forall i :: 0 <= i < |rest| ==> rest[i] in rest && rest[i].id != row.id;
  }

  lemma WaitingRowIsBefore(before: seq<Row>, added: seq<Row>, id: RowId)
    requires DistinctIds(before + added) && HasRow(before, id)
    ensures HasRow(before + added, id)
    ensures Without(before + added, id) == Without(before, id) + added
  {
    var rows := before + added;
    var k :| 0 <= k < |before| && before[k].id == id;
    assert rows[k] == before[k];
    forall i | 0 <= i < |added| ensures added[i].id != id {
      assert added[i] == rows[|before| + i];
    }
    WithoutConcat(before, added, id);
    WithoutAbsent(added, id);
  }

  /** Filling in the waiting row. */
  lemma FillAccounts(a: Account, rows: seq<Row>, preId: string, serial: nat, row: Row, m: Message)
    requires Accounts(a, rows, Some(preId), serial) && !a.filled && row.id == Given(preId) && Stores(row, m, a.run)
    ensures HasRow(rows, row.id)
    ensures Accounts(a.(added := a.added + [row], stored := a.stored + [m], filled := true),
                     Without(rows, row.id) + [row], Some(preId), serial + 1)
  {
    WaitingRowIsBefore(a.before, a.added, row.id);
    FilledTableOk(rows, serial, row);
    hide TableOk, HasRow, Without, Stores;
  }

  /** Writing one message: a failure changes nothing, a success stores the message or had nothing
      to store. */
  lemma PersistAccounts(a: Account, rows: seq<Row>, preId: Option<string>, serial: nat, m: Message, callerId: Option<string>,
                        index: nat, ok: bool)
    returns (a': Account)
    requires Accounts(a, rows, preId, serial)
    requires IsPlaceholder(m, preId) ==> !a.filled
    ensures var r := PersistOne(rows, m, callerId, preId, a.run, index, serial, ok);
      var skipped := m.role.SystemRole? || !ShouldPersist(m, callerId);
      && (r.Success? ==>
            && Accounts(a', r.value, preId, serial + 1)
            && a'.before == a.before && a'.run == a.run
            && a'.stored == (if skipped then a.stored else a.stored + [m])
            && a'.filled == (a.filled || (!skipped && IsPlaceholder(m, preId)))
            && (skipped ==> r.value == rows && a' == a))
      && (r.Failure? ==> a' == a && Accounts(a, rows, preId, serial + 1))
  {
    a' := a;
    var r := PersistOne(rows, m, callerId, preId, a.run, index, serial, ok);
    var row := Row(IdOf(m, a.run, index, serial), BodyOf(m), None, None);
    if r.Success? && !m.role.SystemRole? && ShouldPersist(m, callerId) {
      if IsPlaceholder(m, preId) {
        FillAccounts(a, rows, preId.value, serial, row, m);
        a' := a.(added := a.added + [row], stored := a.stored + [m], filled := true);
      } else {
        InsertAccounts(a, rows, preId, serial, row, m);
        a' := a.(added := a.added + [row], stored := a.stored + [m]);
      }
    }
  }

  function TagAt(messages: seq<Message>, at: Option<nat>, id: string): seq<Message> {
    if at.Some? && at.value < |messages| then messages[at.value := messages[at.value].(messageId := Some(id))] else messages
  }

  /** What a turn leaves: the table is the account, and it stores the new messages there are to
      store up to k, those up to b as they were in the turn, and the others with the identities
      they have in the end. */
  ghost predicate TurnStored(a: Account, rows: seq<Row>, serial: nat, turn: seq<Message>, messages: seq<Message>, from: nat,
                             user: UserPersistence, assistant: AssistantPersistence, b: nat, k: nat)
  {
    && Accounts(a, rows, assistant.PreinsertedId(), serial) && a.run == assistant.Run()
    && IsTurn(turn, from)
    && Tagged(messages, from, turn, user.TagId(), assistant.TagId())
    && from <= b <= k <= |turn| == |messages|
    && a.stored == Persistables(turn, from, b, Skip(user, from)) + Persistables(messages, b, k, Skip(user, from))
  }

  function ModeOf(user: UserPersistence, assistant: AssistantPersistence): Mode {
    Mode(user.CallerPersistedId(), assistant.PreinsertedId(), assistant.Run())
  }

  /** The place of the message whose row was there first. */
  function Skip(user: UserPersistence, from: nat): Option<nat> {
    if user.CallerPersisted? then Some(from) else None
  }

  class ChatAgentAdapter {
    const agent: CustomAgent
    var rows: seq<Row>
    var serial: nat
    var contextLoaded: bool
    var messagesLoadedCount: nat
    var persistedUpTo: nat
    var persistenceError: bool
    var userPersistence: UserPersistence
    var assistantPersistence: AssistantPersistence

    constructor (agent: CustomAgent, rows: seq<Row>, serial: nat)
      ensures this.agent == agent && this.rows == rows && this.serial == serial && !contextLoaded && !persistenceError
    {
      this.agent := agent;
      this.rows := rows;
      this.serial := serial;
      contextLoaded := false;
      messagesLoadedCount := 0;
      persistedUpTo := 0;
      persistenceError := false;
      userPersistence := AdapterPersists(None);
      assistantPersistence := AdapterInserts(None);
    }

    /** Where the row that was there first stands among the messages. */
    function SkipIndex(): Option<nat>
      reads this`userPersistence, this`messagesLoadedCount
    {
      Skip(userPersistence, messagesLoadedCount)
    }

    /** The history of the session: what was claimed with a leased run, otherwise the table. */
    function History(): seq<Row>
      reads this`rows, this`assistantPersistence
    {
      if assistantPersistence.Durable? then assistantPersistence.history else rows
    }

    method LoadContext()
      modifies this`contextLoaded, this`messagesLoadedCount, agent`messages
      ensures agent.messages == old(agent.messages) + Reload(History(), userPersistence.CallerPersistedId())
      ensures messagesLoadedCount == |agent.messages| && contextLoaded
    {
      var history := History();
      for i := 0 to |history|
        invariant agent.messages == old(agent.messages) + Reload(history[..i], userPersistence.CallerPersistedId())
      {
        assert history[..i + 1][..i] == history[..i];
        if IsRead(history[i])
          && !(userPersistence.CallerPersisted? && history[i].id == Given(userPersistence.callerId))
        {
          agent.messages := agent.messages + [ReadRow(history[i])];
        }
      }
      assert history[..|history|] == history;
      messagesLoadedCount := |agent.messages|;
      contextLoaded := true;
    }

    ghost predicate Books(a: Account)
      reads this
    {
      Accounts(a, rows, assistantPersistence.PreinsertedId(), serial) && a.run == assistantPersistence.Run()
    }

    function Stored(): Table
      reads this`rows, this`serial
    {
      Table(rows, serial)
    }

    function WriteMode(): Mode
      reads this`userPersistence, this`assistantPersistence
    {
      ModeOf(userPersistence, assistantPersistence)
    }

    method PersistMessage(m: Message, index: nat, writeOk: nat -> bool, ghost a: Account) returns (ok: bool, ghost a': Account)
      requires Books(a) && (IsPlaceholder(m, assistantPersistence.PreinsertedId()) ==> !a.filled)
      modifies this`rows, this`serial
      ensures (Stored(), ok) == Write(old(Stored()), m, index, WriteMode(), writeOk)
      ensures Books(a') && a'.before == a.before
      ensures !ok ==> FailedAt(Stored(), m, index, WriteMode(), writeOk) && a' == a && rows == old(rows)
      ensures ok ==>
        && a'.stored == (if Skipped(m, WriteMode()) then a.stored else a.stored + [m])
        && a'.filled == (a.filled || (!Skipped(m, WriteMode()) && IsPlaceholder(m, assistantPersistence.PreinsertedId())))
    {
      hide Accounts, PersistOne, IsPlaceholder, ShouldPersist;
      a' := a;
      if Skipped(m, WriteMode()) {
        return true, a';
      }
      var written := PersistOne(rows, m, userPersistence.CallerPersistedId(), assistantPersistence.PreinsertedId(),
                                assistantPersistence.Run(), index, serial, writeOk(serial));
      a' := PersistAccounts(a, rows, assistantPersistence.PreinsertedId(), serial, m, userPersistence.CallerPersistedId(),
                            index, writeOk(serial));
      serial := serial + 1;
      ok := written.Success?;
      if ok {
        rows := written.value;
      }
    }

    /** Runs at an iteration boundary. The message whose row was there first is known by its place:
        it has no identity yet. Everything new is stored, up to a write that fails; that is left
        for later, and remembered when a leased run writes. */
    method PersistBoundary(messages: seq<Message>, writeOk: nat -> bool, ghost a: Account) returns (ghost a': Account)
      requires Books(a) && !a.filled && persistedUpTo <= |messages|
      requires forall i :: persistedUpTo <= i < |messages| ==> messages[i].messageId.None?
      modifies this`rows, this`serial, this`persistedUpTo, this`persistenceError
      ensures Progress(Stored(), persistedUpTo, persistenceError)
        == AtBoundary(Progress(old(Stored()), old(persistedUpTo), old(persistenceError)), messages, SkipIndex(), WriteMode(), writeOk)
      ensures Books(a') && !a'.filled && a'.before == a.before
      ensures old(persistedUpTo) <= persistedUpTo <= |messages|
      ensures a'.stored == a.stored + Persistables(messages, old(persistedUpTo), persistedUpTo, SkipIndex())
      ensures persistedUpTo < |messages| ==> FailedAt(Stored(), messages[persistedUpTo], persistedUpTo, WriteMode(), writeOk)
      ensures persistenceError == (old(persistenceError) || (assistantPersistence.Durable? && persistedUpTo < |messages|))
    {
      hide Accounts, Write, FailedAt, Persistables, IsPlaceholder;
      a' := a;
      NothingToStore(messages, persistedUpTo, SkipIndex());
      var i := persistedUpTo;
      while i < |messages|
        invariant persistedUpTo == old(persistedUpTo) <= i <= |messages| && persistenceError == old(persistenceError)
        invariant Pass(old(Stored()), messages, persistedUpTo, SkipIndex(), WriteMode(), writeOk)
          == Pass(Stored(), messages, i, SkipIndex(), WriteMode(), writeOk)
        invariant Books(a') && !a'.filled && a'.before == a.before
        invariant a'.stored == a.stored + Persistables(messages, persistedUpTo, i, SkipIndex())
      {
        PersistablesNext(messages, persistedUpTo, i, SkipIndex());
        if userPersistence.CallerPersisted? && i == messagesLoadedCount {
          i := i + 1;
          continue;
        }
        Unannounced(messages[i], WriteMode());
        var ok;
        ok, a' := PersistMessage(messages[i], i, writeOk, a');
        if !ok {
          persistenceError := persistenceError || assistantPersistence.Durable?;
          break;
        }
        i := i + 1;
      }
      persistedUpTo := i;
    }

    /** The last pass, over what no boundary stored. Here the message whose row was there first is
        known by its identity. It ends with a write that fails, or with everything stored. */
    method PersistAfterChat(writeOk: nat -> bool, ghost a: Account) returns (ok: bool, ghost a': Account, ghost k: nat)
      requires Books(a) && !a.filled && persistedUpTo <= |agent.messages|
      requires IdentifiedByPlace(agent.messages, persistedUpTo, userPersistence.CallerPersistedId(), SkipIndex())
      requires OnePlaceholder(agent.messages, persistedUpTo, assistantPersistence.PreinsertedId())
      modifies this`rows, this`serial, this`persistedUpTo
      ensures (Stored(), k) == Pass(old(Stored()), agent.messages, old(persistedUpTo), None, WriteMode(), writeOk)
      ensures Books(a') && a'.before == a.before
      ensures old(persistedUpTo) <= k <= |agent.messages|
      ensures if ok then k == persistedUpTo == |agent.messages|
              else persistedUpTo == old(persistedUpTo) && k < |agent.messages|
                   && FailedAt(Stored(), agent.messages[k], k, WriteMode(), writeOk)
      ensures a'.stored == a.stored + Persistables(agent.messages, old(persistedUpTo), k, SkipIndex())
    {
      hide Accounts, Write, FailedAt, IsPlaceholder, IdentifiedByPlace, OnePlaceholder, PlaceholderBefore, ShouldPersist;
      a' := a;
      k := persistedUpTo;
      assert agent.messages == old(agent.messages);
      var i := persistedUpTo;
      while i < |agent.messages|
        invariant persistedUpTo == old(persistedUpTo) <= i <= |agent.messages| && k == i
        invariant Pass(old(Stored()), agent.messages, persistedUpTo, None, WriteMode(), writeOk)
          == Pass(Stored(), agent.messages, i, None, WriteMode(), writeOk)
        invariant Books(a') && a'.before == a.before
        invariant a'.stored == a.stored + Persistables(agent.messages, persistedUpTo, i, SkipIndex())
        invariant a'.filled ==> PlaceholderBefore(agent.messages, persistedUpTo, i, assistantPersistence.PreinsertedId())
      {
        NextInPass(agent.messages, persistedUpTo, i, userPersistence.CallerPersistedId(), SkipIndex(),
                   assistantPersistence.PreinsertedId());
        ok, a' := PersistMessage(agent.messages[i], i, writeOk, a');
        if !ok {
          return;
        }
        i := i + 1;
        k := i;
      }
      persistedUpTo := |agent.messages|;
      ok := true;
    }

    method TagFirstNewUserMessage(id: string)
      requires messagesLoadedCount <= |agent.messages|
      modifies agent`messages
      ensures agent.messages == TagAt(old(agent.messages), FirstUser(old(agent.messages), messagesLoadedCount), id)
    {
      var i := messagesLoadedCount;
      while i < |agent.messages|
        invariant messagesLoadedCount <= i <= |agent.messages|
        invariant FirstUser(agent.messages, messagesLoadedCount) == FirstUser(agent.messages, i)
        invariant agent.messages == old(agent.messages)
      {
        if agent.messages[i].role.UserRole? {
          agent.messages := agent.messages[i := agent.messages[i].(messageId := Some(id))];
          return;
        }
        i := i + 1;
      }
    }

    method TagLastAssistantMessage(id: string)
      modifies agent`messages
      ensures agent.messages == TagAt(old(agent.messages), LastAssistant(old(agent.messages)), id)
    {
      var i := |agent.messages|;
      assert agent.messages[..i] == agent.messages;
      while i > 0
        invariant i <= |agent.messages| && agent.messages == old(agent.messages)
        invariant LastAssistant(agent.messages) == LastAssistant(agent.messages[..i])
      {
        assert agent.messages[..i][..i - 1] == agent.messages[..i - 1];
        if agent.messages[i - 1].role.AssistantRole? {
          agent.messages := agent.messages[i - 1 := agent.messages[i - 1].(messageId := Some(id))];
          return;
        }
        i := i - 1;
      }
    }

    /** Gives the messages of a turn the identities they were announced under. */
    method Tag(ghost turn: seq<Message>)
      requires agent.messages == turn && IsTurn(turn, messagesLoadedCount)
      modifies agent`messages
      ensures Tagged(agent.messages, messagesLoadedCount, turn, userPersistence.TagId(), assistantPersistence.TagId())
    {
      hide FirstUser, LastAssistant, Tagged, IsTurn, TagAt;
      FromWithin(turn, messagesLoadedCount);
      if userPersistence.TagId().Some? {
        TagFirstNewUserMessage(userPersistence.TagId().value);
      }
      if assistantPersistence.TagId().Some? {
        TagLastAssistantMessage(assistantPersistence.TagId().value);
      }
      TagsOfTurn(turn, messagesLoadedCount, userPersistence.TagId(), assistantPersistence.TagId(), agent.messages);
    }

    /** The boundaries of a turn, in order, each with the transcript as it was then. */
    method PersistDuring(base: seq<Message>, steps: seq<AgentStep>, writeOk: nat -> bool) returns (ghost a: Account)
      requires |base| == messagesLoadedCount == persistedUpTo
      requires TableOk(rows, serial)
      requires assistantPersistence.PreinsertedId().Some? ==> HasRow(rows, Given(assistantPersistence.PreinsertedId().value))
      requires forall m :: m in Pushed(steps) ==> m.messageId.None?
      modifies this`rows, this`serial, this`persistedUpTo, this`persistenceError
      ensures Progress(Stored(), persistedUpTo, persistenceError)
        == During(Progress(old(Stored()), |base|, old(persistenceError)), base, steps, SkipIndex(), WriteMode(), writeOk)
      ensures Books(a) && !a.filled && a.before == old(rows)
      ensures messagesLoadedCount <= persistedUpTo <= |base + Pushed(steps)|
      ensures steps != [] && steps[|steps| - 1].Push? ==> persistedUpTo < |base + Pushed(steps)|
      ensures a.stored == Persistables(base + Pushed(steps), messagesLoadedCount, persistedUpTo, SkipIndex())
    {
      hide Accounts, TableOk, AtBoundary, During, Pushed, Persistables, FailedAt, HasRow;
      a := Account(rows, [], [], false, assistantPersistence.Run());
      StartOfAccount(rows, assistantPersistence.PreinsertedId(), serial, assistantPersistence.Run());
      ghost var start := Progress(Stored(), |base|, persistenceError);
      DuringNothing(start, base, SkipIndex(), WriteMode(), writeOk);
      NothingToStore(base, |base|, SkipIndex());
      var seen := base;
      var j := 0;
      while j < |steps|
        invariant j <= |steps| && seen == base + Pushed(steps[..j])
        invariant Progress(Stored(), persistedUpTo, persistenceError)
          == During(start, base, steps[..j], SkipIndex(), WriteMode(), writeOk)
        invariant Books(a) && !a.filled && a.before == old(rows)
        invariant messagesLoadedCount <= persistedUpTo <= |seen|
        invariant j > 0 && steps[j - 1].Push? ==> persistedUpTo < |seen|
        invariant a.stored == Persistables(seen, messagesLoadedCount, persistedUpTo, SkipIndex())
      {
        assert steps[..j + 1] == steps[..j] + [steps[j]];
        PushedStep(steps[..j], steps[j]);
        DuringStep(start, base, steps[..j], steps[j], SkipIndex(), WriteMode(), writeOk);
        match steps[j] {
        case Push(message) =>
          PersistablesStable(seen, seen + [message], messagesLoadedCount, persistedUpTo, SkipIndex());
          seen := seen + [message];
        case Boundary =>
          ghost var from := persistedUpTo;
          assert forall i :: |base| <= i < |seen| ==> seen[i].messageId.None? by {
            UntaggedSoFar(base, steps, j);
          }
          a := PersistBoundary(seen, writeOk, a);
          PersistablesConcat(seen, messagesLoadedCount, from, persistedUpTo, SkipIndex());
        }
        j := j + 1;
      }
      assert steps[..|steps|] == steps;
    }

    /** The loop, with the writer at its boundaries, and the identities given after it. */
    method RunLoop(world: World, message: Message, writeOk: nat -> bool)
      returns (answer: Result<string, ChatError>, ghost turn: seq<Message>, ghost steps: seq<AgentStep>, ghost groups: seq<Group>,
               ghost calls: seq<ModelCall>, ghost account: Account)
      requires |agent.messages| == messagesLoadedCount == persistedUpTo && !persistenceError
      requires message.role.UserRole? && message.messageId.None? && TableOk(rows, serial)
      requires assistantPersistence.PreinsertedId().Some? ==> HasRow(rows, Given(assistantPersistence.PreinsertedId().value))
      modifies this`rows, this`serial, this`persistedUpTo, this`persistenceError, agent
      ensures IsTurn(turn, messagesLoadedCount) && turn == old(agent.messages) + turn[messagesLoadedCount..]
      ensures Tagged(agent.messages, messagesLoadedCount, turn, userPersistence.TagId(), assistantPersistence.TagId())
      ensures TurnShape(turn[messagesLoadedCount..], message, groups, answer)
      ensures Played(turn, messagesLoadedCount, steps, agent.config.durable, groups, answer)
      ensures Grounded(world, agent.config, calls, groups, answer)
      ensures Undisturbed(world) ==> answer.Success?
      ensures Progress(Stored(), persistedUpTo, persistenceError)
        == During(Progress(old(Stored()), messagesLoadedCount, false), old(agent.messages), steps, SkipIndex(), WriteMode(), writeOk)
      ensures Books(account) && !account.filled && account.before == old(rows)
      ensures messagesLoadedCount <= persistedUpTo <= |turn|
      ensures answer.Success? ==> persistedUpTo < |turn|
      ensures account.stored == Persistables(turn, messagesLoadedCount, persistedUpTo, SkipIndex())
    {
      hide Accounts, TableOk, TurnShape, CustomAgent.Ended, WithinBudget, Boundaries, BoundariesOf, Pushed, FirstUser, LastAssistant,
        Persistables, Tagged, IsTurn, HasRow, During, Undisturbed, Flatten, Grounded;
      var base := agent.messages;
      var taken, asked;
      answer, taken, asked, groups := agent.Chat(world, message);
      steps, calls, turn := taken, asked, agent.messages;
      agent.TranscriptOf(Turn(base, message, taken, groups, calls), world, answer);
      assert turn[..|base|] == base && turn[|base|..] == Pushed(steps);
      TurnOf(base, Pushed(steps), message, groups, answer);
      account := PersistDuring(base, taken, writeOk);
      Tag(turn);
    }

    /** One turn of a new adapter, under any pattern of failing writes. It returns the answer, and
        whether everything was written; a leased run that could not write everything has no answer.

        `answer` is what the loop returned, `turn` the transcript in the end, without the identities
        given after the loop, `steps`, `groups` and `calls` how the loop made it, `account` that of the
        table, `b` how far the boundaries came and `k` how far the last pass. */
    method Chat(world: World, content: string, time: Option<string>, source: Option<string>, userId: Option<string>,
                user: UserPersistence, assistant: AssistantPersistence, writeOk: nat -> bool)
      returns (result: Result<string, ChatError>, persisted: bool, ghost answer: Result<string, ChatError>,
               ghost turn: seq<Message>, ghost steps: seq<AgentStep>, ghost groups: seq<Group>, ghost calls: seq<ModelCall>,
               ghost account: Account, ghost b: nat, ghost k: nat)
      requires !contextLoaded && !persistenceError && TableOk(rows, serial)
      requires assistant.PreinsertedId().Some? ==> HasRow(rows, Given(assistant.PreinsertedId().value))
      modifies this, agent
      ensures userPersistence == user && assistantPersistence == assistant
      ensures TurnStored(account, rows, serial, turn, agent.messages, messagesLoadedCount, user, assistant, b, k)
      ensures account.before == old(rows)
      ensures turn[..messagesLoadedCount]
        == old(agent.messages)
           + Reload(if assistant.Durable? then assistant.history else old(rows), user.CallerPersistedId())
      ensures TurnShape(turn[messagesLoadedCount..], UserMessage(MetadataPrefix(time, source) + content, userId), groups, answer)
      ensures Played(turn, messagesLoadedCount, steps, agent.config.durable, groups, answer)
      ensures Grounded(world, agent.config, calls, groups, answer)
      ensures Undisturbed(world) ==> answer.Success?
      ensures result == if assistant.Durable? && !persisted then Failure(StoreFailed) else answer
      ensures Written(Table(old(rows), old(serial)), Stored(), turn, agent.messages, messagesLoadedCount, steps, user, assistant,
                      writeOk, b, k, persisted)
      ensures answer.Success? ==> b < |turn|
      ensures persisted ==> k == |turn|
      ensures !persisted ==>
        || (k < |turn| && FailedAt(Stored(), agent.messages[k], k, ModeOf(user, assistant), writeOk))
        || (assistant.Durable?
            && FailedDuring(Progress(Table(old(rows), old(serial)), messagesLoadedCount, false), turn[..messagesLoadedCount], steps,
                            Skip(user, messagesLoadedCount), ModeOf(user, assistant), writeOk))
    {
      hide Accounts, TableOk, TurnShape, Pushed, Persistables, Reload, Tagged, IdentifiedByPlace, OnePlaceholder, IsTurn, HasRow,
        During, Pass, FailedAt, FailedDuring, Undisturbed, Played, Grounded;
      userPersistence, assistantPersistence := user, assistant;
      LoadContext();
      persistedUpTo := messagesLoadedCount;
      ghost var start := Progress(Stored(), messagesLoadedCount, false);
      ghost var base := agent.messages;
      result, turn, steps, groups, calls, account := RunLoop(world, UserMessage(MetadataPrefix(time, source) + content, userId), writeOk);
      answer := result;
      b := persistedUpTo;
      SkipsAgree(agent.messages, |base|, turn, user, assistant, b);
      SameLength(agent.messages, |base|, turn, user.TagId(), assistant.TagId());
      ErrorHasCause(start, base, steps, SkipIndex(), WriteMode(), writeOk);
      if assistant.Durable? && persistenceError {
        k := b;
        NothingToStore(agent.messages, b, SkipIndex());
        persisted, result := false, Failure(StoreFailed);
        return;
      }
      persisted, account, k := PersistAfterChat(writeOk, account);
      if assistant.Durable? && !persisted {
        result := Failure(StoreFailed);
      }
    }
  }

  /** The steps of the loop made the turn: the user's message came first, and an answer last, after
      the boundaries of its groups. */
  predicate Played(turn: seq<Message>, from: nat, steps: seq<AgentStep>, durable: bool, groups: seq<Group>, answer: Result<string, ChatError>)
    requires from <= |turn|
  {
    && turn[from..] == Pushed(steps)
    && steps != [] && steps[0].Push?
    && (answer.Success? ==> Boundaries(steps) == BoundariesOf(durable, groups))
  }

  /** What the boundaries and the last pass wrote, and how far they came. A leased run whose
      boundaries could not write everything makes no last pass. */
  predicate Written(t: Table, t': Table, turn: seq<Message>, messages: seq<Message>, from: nat, steps: seq<AgentStep>,
                    user: UserPersistence, assistant: AssistantPersistence, writeOk: nat -> bool, b: nat, k: nat, persisted: bool)
    requires from <= |turn| && b <= |messages|
  {
    var mode := ModeOf(user, assistant);
    var p := During(Progress(t, from, false), turn[..from], steps, Skip(user, from), mode, writeOk);
    && b == p.upTo
    && (p.error ==> t' == p.table && k == b && !persisted)
    && (!p.error ==> (t', k) == Pass(p.table, messages, b, None, mode, writeOk) && (persisted <==> k == |messages|))
  }

  lemma DuringNothing(p: Progress, base: seq<Message>, skip: Option<nat>, mode: Mode, writeOk: nat -> bool)
    requires p.upTo <= |base|
    ensures During(p, base, [], skip, mode, writeOk) == p && Pushed([]) == []
  {
  }

  /** A message without an identity is only skipped as a system message, and fills no row. */
  lemma Unannounced(m: Message, mode: Mode)
    requires m.messageId.None?
    ensures Skipped(m, mode) <==> m.role.SystemRole?
    ensures !IsPlaceholder(m, mode.preId)
  {
  }

  lemma FromWithin(turn: seq<Message>, from: nat)
    requires IsTurn(turn, from)
    ensures from < |turn|
  {
  }

  lemma NothingToStore(messages: seq<Message>, at: nat, skip: Option<nat>)
    requires at <= |messages|
    ensures Persistables(messages, at, at, skip) == []
  {
  }

  lemma StartOfAccount(rows: seq<Row>, preId: Option<string>, serial: nat, run: Option<string>)
    requires TableOk(rows, serial) && (preId.Some? ==> HasRow(rows, Given(preId.value)))
    ensures Accounts(Account(rows, [], [], false, run), rows, preId, serial)
  {
    assert rows + [] == rows;
  }

  lemma UntaggedSoFar(base: seq<Message>, steps: seq<AgentStep>, j: nat)
    requires j <= |steps| && forall m :: m in Pushed(steps) ==> m.messageId.None?
    ensures forall i :: |base| <= i < |base + Pushed(steps[..j])| ==> (base + Pushed(steps[..j]))[i].messageId.None?
  {
    assert steps == steps[..j] + steps[j..];
    PushedConcat(steps[..j], steps[j..]);
    assert forall m :: m in Pushed(steps[..j]) ==> m in Pushed(steps);
  }

  lemma SameLength(messages: seq<Message>, from: nat, turn: seq<Message>, userTag: Option<string>, assistantTag: Option<string>)
    requires Tagged(messages, from, turn, userTag, assistantTag)
    ensures |messages| == |turn|
  {
  }

  /** After a turn the user's message, the first new one, has its identity, the last assistant
      message has its own, and no other new message has any; nothing else has changed. */
  predicate Tagged(messages: seq<Message>, from: nat, turn: seq<Message>, userTag: Option<string>, assistantTag: Option<string>) {
    && |messages| == |turn|
    && (forall i :: from <= i < |messages| ==> messages[i].(messageId := None) == turn[i])
    && (forall i :: from <= i < |messages| ==>
          messages[i].messageId ==
            if i == from then userTag
            else if LastAssistant(turn) == Some(i) then assistantTag
            else None)
  }

  /** From `from` on the messages are those of one turn: first the user's, then the agent's. */
  predicate IsTurn(turn: seq<Message>, from: nat) {
    && from < |turn| && turn[from].role.UserRole? && turn[from].messageId.None?
    && forall i :: from < i < |turn| ==> IsTranscriptOf(turn[i]) && turn[i].messageId.None?
  }

  lemma TurnOf(base: seq<Message>, pushed: seq<Message>, user: Message, groups: seq<Group>, result: Result<string, ChatError>)
    requires TurnShape(pushed, user, groups, result) && user.role.UserRole? && user.messageId.None?
    ensures IsTurn(base + pushed, |base|)
    ensures forall m :: m in pushed ==> m.messageId.None?
  {
    OnlyUserMessageIsFirst(pushed, user, groups, result);
  }

  lemma {:induction false} SameRolesSameLast(a: seq<Message>, b: seq<Message>)
    requires |a| == |b| && forall i :: 0 <= i < |a| ==> a[i].role == b[i].role
    ensures LastAssistant(a) == LastAssistant(b)
  {
    if a != [] && !a[|a| - 1].role.AssistantRole? {
      SameRolesSameLast(a[..|a| - 1], b[..|b| - 1]);
    }
  }

  lemma FirstUserOfTurn(turn: seq<Message>, from: nat)
    requires IsTurn(turn, from)
    ensures FirstUser(turn, from) == Some(from)
  {
  }

  /** The two tag functions give a turn its identities. */
  lemma TagsOfTurn(turn: seq<Message>, from: nat, userTag: Option<string>, assistantTag: Option<string>, tagged: seq<Message>)
    requires IsTurn(turn, from)
    requires var m := if userTag.Some? then TagAt(turn, FirstUser(turn, from), userTag.value) else turn;
      tagged == if assistantTag.Some? then TagAt(m, LastAssistant(m), assistantTag.value) else m
    ensures Tagged(tagged, from, turn, userTag, assistantTag)
  {
    hide LastAssistant, FirstUser, IsTranscriptOf;
    FirstUserOfTurn(turn, from);
    var m := if userTag.Some? then TagAt(turn, Some(from), userTag.value) else turn;
    SameRolesSameLast(turn, m);
    LastAssistantIsLast(turn);
  }

  /** Skipping the row that was there first by its place, as the boundaries do, and by its
      identity, as the last pass does, skips the same message. */
  lemma SkipsAgree(messages: seq<Message>, from: nat, turn: seq<Message>, user: UserPersistence, assistant: AssistantPersistence, b: nat)
    requires IsTurn(turn, from) && Tagged(messages, from, turn, user.TagId(), assistant.TagId()) && from <= b
    ensures IdentifiedByPlace(messages, b, user.CallerPersistedId(), Skip(user, from))
    ensures OnePlaceholder(messages, b, assistant.PreinsertedId())
  {
    hide LastAssistant;
    assert forall i :: from <= i < |messages| ==> messages[i].(messageId := None).role == turn[i].role;
  }

  lemma {:induction false} BodiesStable(a: seq<Message>, b: seq<Message>, from: nat, until: nat, skip: Option<nat>)
    requires until <= |a| && until <= |b|
    requires forall i :: from <= i < until ==> a[i] == b[i].(messageId := None)
    ensures Bodies(Persistables(a, from, until, skip)) == Bodies(Persistables(b, from, until, skip))
    decreases until
  {
    if from < until {
      BodiesStable(a, b, from, until - 1, skip);
      BodiesStep(a, from, until - 1, skip);
      BodiesStep(b, from, until - 1, skip);
    }
  }

  lemma BodiesStep(messages: seq<Message>, from: nat, i: nat, skip: Option<nat>)
    requires from <= i < |messages|
    ensures Bodies(Persistables(messages, from, i + 1, skip))
      == Bodies(Persistables(messages, from, i, skip))
         + if messages[i].role.SystemRole? || skip == Some(i) then [] else [BodyOf(messages[i])]
  {
    var before := Persistables(messages, from, i, skip);
    assert Bodies(before + [messages[i]]) == Bodies(before) + [BodyOf(messages[i])];
    assert before + [] == before;
  }

  /** Skipping by identity and skipping by place name the same message. */
  ghost predicate IdentifiedByPlace(messages: seq<Message>, from: nat, callerId: Option<string>, skip: Option<nat>) {
    forall i :: from <= i < |messages| && !messages[i].role.SystemRole? ==> (ShouldPersist(messages[i], callerId) <==> skip != Some(i))
  }

  ghost predicate PlaceholderBefore(messages: seq<Message>, from: nat, i: nat, preId: Option<string>)
    requires i <= |messages|
  {
    exists j :: from <= j < i && IsPlaceholder(messages[j], preId)
  }

  lemma NextInPass(messages: seq<Message>, from: nat, i: nat, callerId: Option<string>, skip: Option<nat>, preId: Option<string>)
    requires from <= i < |messages| && IdentifiedByPlace(messages, from, callerId, skip) && OnePlaceholder(messages, from, preId)
    ensures !messages[i].role.SystemRole? ==> (ShouldPersist(messages[i], callerId) <==> skip != Some(i))
    ensures PlaceholderBefore(messages, from, i, preId) ==> !IsPlaceholder(messages[i], preId)
    ensures PlaceholderBefore(messages, from, i, preId) || IsPlaceholder(messages[i], preId) ==>
      PlaceholderBefore(messages, from, i + 1, preId)
  {
  }

  ghost predicate OnePlaceholder(messages: seq<Message>, from: nat, preId: Option<string>) {
    forall i, j :: from <= i < |messages| && from <= j < |messages|
      && IsPlaceholder(messages[i], preId) && IsPlaceholder(messages[j], preId)
      ==> i == j
  }

  // ---- Main results ----

  lemma {:induction false} PersistablesAll(messages: seq<Message>, from: nat, k: nat, skip: Option<nat>)
    requires from <= k <= |messages| && forall i :: from <= i < k ==> !messages[i].role.SystemRole? && skip != Some(i)
    ensures Persistables(messages, from, k, skip) == messages[from..k]
    decreases k
  {
    if k > from {
      PersistablesAll(messages, from, k - 1, skip);
      assert messages[from..k] == messages[from..k - 1] + [messages[k - 1]];
    }
  }

  /** The messages of a turn that are to be stored are all its new ones, but for the user's when
      its row was there first. */
  lemma PersistablesOfTurn(turn: seq<Message>, from: nat, k: nat, skip: Option<nat>)
    requires IsTurn(turn, from) && from < k <= |turn| && (skip.Some? ==> skip.value == from)
    ensures Persistables(turn, from, k, skip) == if skip.Some? then turn[from + 1..k] else turn[from..k]
  {
    if skip.None? {
      PersistablesAll(turn, from, k, skip);
    } else {
      PersistablesConcat(turn, from, from + 1, k, skip);
      PersistablesAll(turn, from + 1, k, skip);
      assert Persistables(turn, from, from + 1, skip) == [];
    }
  }

  lemma StoredBodies(early: seq<Message>, late: seq<Message>, late': seq<Message>, i: nat)
    requires Bodies(late) == Bodies(late') && i < |early + late|
    ensures |late| == |late'| && BodyOf((early + late)[i]) == BodyOf((early + late')[i])
  {
    assert |late| == |Bodies(late)| == |Bodies(late')|;
    if i >= |early| {
      assert Bodies(late)[i - |early|] == Bodies(late')[i - |early|];
    }
  }

  /** For every schedule of boundaries and every pattern of failed writes: the rows added by a
      turn hold a prefix of its messages to store, each once and in order, after the rows that
      were there; once the last pass wrote everything, all of them. */
  lemma StoredIsPrefix(a: Account, rows: seq<Row>, serial: nat, turn: seq<Message>, messages: seq<Message>, from: nat,
                       user: UserPersistence, assistant: AssistantPersistence, b: nat, k: nat)
    requires TurnStored(a, rows, serial, turn, messages, from, user, assistant, b, k)
    ensures var all := Persistables(turn, from, |turn|, Skip(user, from));
      && |a.added| <= |all|
      && (forall i :: 0 <= i < |a.added| ==> a.added[i] == Row(a.added[i].id, BodyOf(all[i]), None, None))
      && (k == |turn| ==> |a.added| == |all|)
    ensures DistinctIds(rows)
  {
    var skip := Skip(user, from);
    var all := Persistables(turn, from, |turn|, skip);
    var early, late, late' := Persistables(turn, from, b, skip), Persistables(messages, b, k, skip), Persistables(turn, b, k, skip);
    BodiesStable(turn, messages, b, k, skip);
    PersistablesConcat(turn, from, b, k, skip);
    PersistablesGrow(turn, from, k, |turn|, skip);
    assert |late| == |Bodies(late)| == |Bodies(late')| == |late'|;
    hide Persistables, IsTurn, Tagged, TableOk, Without, HasRow, Bodies;
    forall i | 0 <= i < |a.added| ensures a.added[i] == Row(a.added[i].id, BodyOf(all[i]), None, None) {
      assert Stores(a.added[i], a.stored[i], a.run);
      StoredBodies(early, late, late', i);
    }
  }

  /** The row that was there first is still there, as it was, and is the only one of its identity. */
  lemma CallerRowStays(a: Account, rows: seq<Row>, serial: nat, turn: seq<Message>, messages: seq<Message>, from: nat,
                       user: UserPersistence, assistant: AssistantPersistence, b: nat, k: nat, row: Row)
    requires TurnStored(a, rows, serial, turn, messages, from, user, assistant, b, k)
    requires user.CallerPersisted? && row in a.before && row.id == Given(user.callerId)
    requires DistinctIds(a.before) && assistant.PreinsertedId() != Some(user.callerId)
    ensures row in rows && forall i, j :: 0 <= i < |rows| && 0 <= j < |rows| && rows[i].id == row.id && rows[j].id == row.id ==> i == j
  {
    hide IsTurn, Tagged, Persistables, Added;
    if a.filled && assistant.PreinsertedId().Some? {
      WithoutKeepsOthers(a.before, Given(assistant.PreinsertedId().value));
    }
  }

  /** An answer that was written ends up in the row that waited for it: that row is filled in, not
      joined by a second one, and comes last. */
  lemma AnswerFillsItsRow(a: Account, rows: seq<Row>, serial: nat, turn: seq<Message>, messages: seq<Message>, from: nat,
                          user: UserPersistence, assistant: AssistantPersistence, b: nat, k: nat, answer: string)
    requires TurnStored(a, rows, serial, turn, messages, from, user, assistant, b, k)
    requires assistant.PreinsertedId().Some? && b < k == |turn| && from + 1 < |turn|
    requires turn[|turn| - 1] == AssistantMessage(answer)
    ensures var id := Given(assistant.PreinsertedId().value);
      && rows != [] && rows[|rows| - 1] == Row(id, BodyOf(AssistantMessage(answer)), None, None)
      && forall i :: 0 <= i < |rows| - 1 ==> rows[i].id != id
  {
    LastAssistantIsLast(turn);
    var last := messages[|turn| - 1];
    assert last.messageId == assistant.PreinsertedId() && last.(messageId := None) == AssistantMessage(answer);
    assert a.stored[|a.stored| - 1] == last;
    assert Stores(a.added[|a.added| - 1], last, a.run);
  }
}
