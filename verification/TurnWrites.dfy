/** What the writes of a turn amount to: when the user's row has the identity it was announced
    under, and when a turn is stored completely. */
module TurnWrites {
  import opened JsonText
  import opened Wrappers
  import opened Agent
  import opened ChatRows
  import opened Writing
  import opened Adapter

  // ---- The user's row ----

  lemma NotGeneratedYet(rows: seq<Row>, serial: nat, n: nat)
    requires TableOk(rows, serial) && serial <= n
    ensures !HasRow(rows, Generated(n))
  {
    hide DistinctIds;
  }

  /** As long as no write of the user's message succeeds, a boundary tries that one write. */
  lemma FirstOfPass(t: Table, from: nat, seen: seq<Message>, mode: Mode, writeOk: nat -> bool)
    requires mode.callerId.None? && mode.run.None? && !HasRow(t.rows, Generated(t.serial))
    requires from < |seen| && seen[from].role.UserRole? && seen[from].messageId.None?
    ensures var (t', k) := Pass(t, seen, from, None, mode, writeOk);
      && (k == from <==> !writeOk(t.serial))
      && (k == from ==> t' == t.(serial := t.serial + 1))
  {
  }

  /** No boundary stores the user's message exactly when the write that each of them tries fails. */
  lemma {:induction false} UserWaits(t: Table, base: seq<Message>, steps: seq<AgentStep>, mode: Mode, writeOk: nat -> bool)
    requires mode.callerId.None? && mode.run.None? && TableOk(t.rows, t.serial)
    requires steps != [] && steps[0].Push? && steps[0].message.role.UserRole? && steps[0].message.messageId.None?
    ensures var p := During(Progress(t, |base|, false), base, steps, None, mode, writeOk);
      && (p.upTo == |base| <==> forall n :: t.serial <= n < t.serial + Boundaries(steps) ==> !writeOk(n))
      && (p.upTo == |base| ==> p.table == t.(serial := t.serial + Boundaries(steps)))
    decreases |steps|
  {
    hide Pass, TableOk, HasRow;
    var n := |steps| - 1;
    if n > 0 {
      UserWaits(t, base, steps[..n], mode, writeOk);
      if steps[n].Boundary? {
        var before := During(Progress(t, |base|, false), base, steps[..n], None, mode, writeOk);
        if before.upTo == |base| {
          FirstPushed(steps[..n]);
          NotGeneratedYet(t.rows, t.serial, before.table.serial);
          FirstOfPass(before.table, |base|, base + Pushed(steps[..n]), mode, writeOk);
        }
      }
    } else {
      OneStep(steps);
    }
  }

  lemma OneStep(steps: seq<AgentStep>)
    requires |steps| == 1 && steps[0].Push?
    ensures Boundaries(steps) == 0 && steps[..0] == [] && Pushed([]) == []
  {
  }

  lemma {:induction false} FirstPushed(steps: seq<AgentStep>)
    requires steps != [] && steps[0].Push?
    ensures Pushed(steps) != [] && Pushed(steps)[0] == steps[0].message
    decreases |steps|
  {
    if |steps| > 1 {
      FirstPushed(steps[..|steps| - 1]);
    } else {
      OneStep(steps);
    }
  }

  /** A row the adapter inserts for the user has the identity its caller chose, and already
      announced, exactly when every write that a boundary tried for it failed: a boundary knows no
      identities yet. */
  lemma UserRowHasChosenId(a: Account, t: Table, t': Table, turn: seq<Message>, messages: seq<Message>, from: nat,
                           steps: seq<AgentStep>, groups: seq<Group>, answer: Result<string, ChatError>,
                           user: UserPersistence, assistant: AssistantPersistence, writeOk: nat -> bool, b: nat, k: nat, persisted: bool)
    requires TableOk(t.rows, t.serial) && user.AdapterPersists? && user.id.Some? && !assistant.Durable?
    requires TurnStored(a, t'.rows, t'.serial, turn, messages, from, user, assistant, b, k) && from < k
    requires Played(turn, from, steps, false, groups, answer)
    requires Written(t, t', turn, messages, from, steps, user, assistant, writeOk, b, k, persisted)
    ensures a.added != [] && a.added[0].body == BodyOf(turn[from])
    ensures a.added[0].id == Given(user.id.value) <==>
      forall n :: t.serial <= n < t.serial + Boundaries(steps) ==> !writeOk(n)
    ensures answer.Success? && (forall n :: writeOk(n)) ==> (a.added[0].id == Given(user.id.value) <==> groups == [])
  {
    hide TurnStored, Written, IsTurn, TableOk, Boundaries, BoundariesOf, Pushed, During, Pass;
    FirstStep(turn, messages, from, steps, user, assistant, a, t', b, k);
    UserWaits(t, turn[..from], steps, ModeOf(user, assistant), writeOk);
    BoundariesReached(t, t', turn, messages, from, steps, user, assistant, writeOk, b, k, persisted);
    FirstRow(a, t'.rows, t'.serial, turn, messages, from, user, assistant, b, k);
    EveryGroupHasOne(groups);
    if answer.Success? && (forall n :: writeOk(n)) && groups != [] {
      assert writeOk(t.serial);
    }
  }

  lemma FirstStep(turn: seq<Message>, messages: seq<Message>, from: nat, steps: seq<AgentStep>,
                  user: UserPersistence, assistant: AssistantPersistence, a: Account, t': Table, b: nat, k: nat)
    requires TurnStored(a, t'.rows, t'.serial, turn, messages, from, user, assistant, b, k)
    requires turn[from..] == Pushed(steps) && steps != [] && steps[0].Push?
    ensures steps[0].message.role.UserRole? && steps[0].message.messageId.None?
    ensures from <= |turn| && b <= |messages|
  {
    hide Accounts, Tagged, Persistables, Pushed;
    FirstPushed(steps);
    assert turn[from..][0] == turn[from];
  }

  lemma BoundariesReached(t: Table, t': Table, turn: seq<Message>, messages: seq<Message>, from: nat, steps: seq<AgentStep>,
                          user: UserPersistence, assistant: AssistantPersistence, writeOk: nat -> bool, b: nat, k: nat, persisted: bool)
    requires from <= |turn| && b <= |messages|
    requires Written(t, t', turn, messages, from, steps, user, assistant, writeOk, b, k, persisted)
    ensures user.AdapterPersists? ==>
      b == During(Progress(t, |turn[..from]|, false), turn[..from], steps, None, ModeOf(user, assistant), writeOk).upTo
  {
    hide During, Pass;
  }

  lemma EveryGroupHasOne(groups: seq<Group>)
    ensures BoundariesOf(false, groups) == 0 <==> groups == []
  {
  }

  lemma FirstRow(a: Account, rows: seq<Row>, serial: nat, turn: seq<Message>, messages: seq<Message>, from: nat,
                 user: UserPersistence, assistant: AssistantPersistence, b: nat, k: nat)
    requires TurnStored(a, rows, serial, turn, messages, from, user, assistant, b, k)
    requires user.AdapterPersists? && user.id.Some? && from < k && !assistant.Durable?
    ensures a.added != [] && a.added[0].body == BodyOf(turn[from])
    ensures a.added[0].id == Given(user.id.value) <==> b == from
  {
    StoredIsPrefix(a, rows, serial, turn, messages, from, user, assistant, b, k);
    PersistablesOfTurn(turn, from, |turn|, None);
    FirstStored(turn, messages, from, b, k);
    hide Persistables, LastAssistant, TableOk, Without, HasRow, DistinctIds;
    assert Stores(a.added[0], a.stored[0], a.run);
  }

  /** The first message a turn stores is the user's, as it was in the turn if a boundary stored it
      and with its identity otherwise. */
  lemma FirstStored(turn: seq<Message>, messages: seq<Message>, from: nat, b: nat, k: nat)
    requires IsTurn(turn, from) && from <= b <= k <= |turn| == |messages| && from < k
    requires messages[from].role.UserRole?
    ensures var stored := Persistables(turn, from, b, None) + Persistables(messages, b, k, None);
      stored != [] && stored[0] == if b == from then messages[from] else turn[from]
  {
    if b > from {
      PersistablesOfTurn(turn, from, b, None);
    } else {
      FirstOfTail(messages, from, k);
      assert Persistables(turn, from, b, None) == [];
    }
  }

  lemma {:induction false} FirstOfTail(messages: seq<Message>, from: nat, k: nat)
    requires from < k <= |messages| && !messages[from].role.SystemRole?
    ensures var stored := Persistables(messages, from, k, None); stored != [] && stored[0] == messages[from]
    decreases k
  {
    if k > from + 1 {
      FirstOfTail(messages, from, k - 1);
    } else {
      assert Persistables(messages, from, from, None) == [];
    }
  }

  // ---- Writes that only the store can refuse ----

  function MessageName(run: string, i: nat): RowId {
    Given(run + ":message:" + Decimal(i))
  }

  /** The identity a message is written under, unless it is generated. */
  function NameOf(m: Message, mode: Mode, i: nat): Option<RowId> {
    if m.messageId.Some? then Some(Given(m.messageId.value))
    else if mode.run.Some? then Some(MessageName(mode.run.value, i))
    else None
  }

  predicate ToWrite(messages: seq<Message>, i: nat, skip: Option<nat>, mode: Mode)
    requires i < |messages|
  {
    skip != Some(i) && !Skipped(messages[i], mode)
  }

  /** A message that can be written: a waiting row is there to be filled, any other identity is
      free, and a leased run writes no user's message. */
  predicate Free(rows: seq<Row>, m: Message, mode: Mode, i: nat) {
    && (mode.run.Some? ==> !m.role.UserRole?)
    && (NameOf(m, mode, i).Some? ==> (IsPlaceholder(m, mode.preId) <==> HasRow(rows, NameOf(m, mode, i).value)))
  }

  predicate NothingGenerated(t: Table) {
    forall r :: r in t.rows && r.id.Generated? ==> r.id.n < t.serial
  }

  /** Every message from `at` on can be written, one after the other. */
  ghost predicate Clear(t: Table, messages: seq<Message>, at: nat, skip: Option<nat>, mode: Mode) {
    && NothingGenerated(t)
    && (forall i :: at <= i < |messages| && ToWrite(messages, i, skip, mode) ==> Free(t.rows, messages[i], mode, i))
    && (forall i, j :: at <= i < j < |messages| && ToWrite(messages, i, skip, mode) && ToWrite(messages, j, skip, mode) ==>
          NameOf(messages[i], mode, i).None? || NameOf(messages[i], mode, i) != NameOf(messages[j], mode, j))
  }

  lemma {:induction false} WithoutHas(rows: seq<Row>, id: RowId, x: RowId)
    ensures HasRow(Without(rows, id), x) <==> HasRow(rows, x) && x != id
  {
    if rows != [] {
      var n := |rows| - 1;
      WithoutHas(rows[..n], id, x);
      HasRowStep(rows[..n], rows[n], x);
      HasRowStep(Without(rows[..n], id), rows[n], x);
      assert rows[..n] + [rows[n]] == rows;
      assert Without(rows[..n], id) + [] == Without(rows[..n], id);
    }
  }

  lemma HasRowStep(rows: seq<Row>, row: Row, x: RowId)
    ensures HasRow(rows + [row], x) <==> HasRow(rows, x) || row.id == x
  {
    var rows' := rows + [row];
    if HasRow(rows, x) {
      var i :| 0 <= i < |rows| && rows[i].id == x;
      assert rows'[i].id == x;
    }
    assert rows'[|rows|] == row;
  }

  /** Writing a message that can be written succeeds exactly when the store lets it. */
  lemma WriteDecides(t: Table, m: Message, i: nat, mode: Mode, writeOk: nat -> bool)
    requires NothingGenerated(t) && Free(t.rows, m, mode, i) && !Skipped(m, mode)
    ensures var (t', ok) := Write(t, m, i, mode, writeOk);
      && t'.serial == t.serial + 1 && ok == writeOk(t.serial) && NothingGenerated(t')
      && (!ok ==> t'.rows == t.rows)
      && (ok ==> forall x :: HasRow(t'.rows, x) <==>
            HasRow(t.rows, x) || x == if NameOf(m, mode, i).Some? then NameOf(m, mode, i).value else Generated(t.serial))
  {
    var id := IdOf(m, mode.run, i, t.serial);
    var row := Row(id, BodyOf(m), None, None);
    assert id.Generated? ==> !HasRow(t.rows, id);
    forall x ensures HasRow(t.rows + [row], x) <==> HasRow(t.rows, x) || x == id {
      HasRowStep(t.rows, row, x);
    }
    forall x ensures HasRow(Without(t.rows, id) + [row], x) <==> HasRow(t.rows, x) || x == id {
      WithoutHas(t.rows, id, x);
      HasRowStep(Without(t.rows, id), row, x);
    }
    WithoutWithin(t.rows, id);
    hide HasRow, Without, BodyOf;
  }

  lemma {:induction false} WithoutWithin(rows: seq<Row>, id: RowId)
    ensures forall r :: r in Without(rows, id) ==> r in rows
  {
    if rows != [] {
      WithoutWithin(rows[..|rows| - 1], id);
    }
  }

  /** The identities in a table after the messages from one index to another were written. */
  ghost predicate Grew(rows: seq<Row>, rows': seq<Row>, messages: seq<Message>, from: nat, until: nat, mode: Mode)
    requires until <= |messages|
  {
    && (forall x :: HasRow(rows, x) ==> HasRow(rows', x))
    && (forall x :: HasRow(rows', x) && x.Given? ==> HasRow(rows, x) || Named(messages, from, until, mode, x))
  }

  ghost predicate Named(messages: seq<Message>, from: nat, until: nat, mode: Mode, x: RowId)
    requires until <= |messages|
  {
    exists i :: from <= i < until && NameOf(messages[i], mode, i) == Some(x)
  }

  lemma WriteKeepsClear(t: Table, messages: seq<Message>, at: nat, skip: Option<nat>, mode: Mode, writeOk: nat -> bool)
    requires at < |messages| && Clear(t, messages, at, skip, mode) && ToWrite(messages, at, skip, mode)
    ensures var (t', ok) := Write(t, messages[at], at, mode, writeOk);
      && t'.serial == t.serial + 1 && ok == writeOk(t.serial)
      && (ok ==> Clear(t', messages, at + 1, skip, mode) && Grew(t.rows, t'.rows, messages, at, at + 1, mode))
      && (!ok ==> Clear(t', messages, at, skip, mode) && t'.rows == t.rows)
  {
    WriteDecides(t, messages[at], at, mode, writeOk);
    var (t', ok) := Write(t, messages[at], at, mode, writeOk);
    hide HasRow, Write, NothingGenerated, IsPlaceholder, ToWrite;
    if ok {
      assert forall x: RowId :: x.Given? && NameOf(messages[at], mode, at) == Some(x) ==> Named(messages, at, at + 1, mode, x);
    }
  }

  lemma GrewThen(a: seq<Row>, b: seq<Row>, c: seq<Row>, messages: seq<Message>, from: nat, mid: nat, until: nat, mode: Mode)
    requires from <= mid <= until <= |messages| && Grew(a, b, messages, from, mid, mode) && Grew(b, c, messages, mid, until, mode)
    ensures Grew(a, c, messages, from, until, mode)
  {
    hide HasRow, NameOf;
    forall x | HasRow(c, x) && x.Given? ensures HasRow(a, x) || Named(messages, from, until, mode, x) {
    }
  }

  lemma GrewNothing(rows: seq<Row>, messages: seq<Message>, from: nat, until: nat, mode: Mode)
    requires until <= |messages|
    ensures Grew(rows, rows, messages, from, until, mode)
  {
  }

  /** A pass over messages that can be written comes to its end exactly when the store refuses none
      of the writes it tries, and what it leaves can still be written. */
  lemma {:induction false} PassDecides(t: Table, seen: seq<Message>, all: seq<Message>, at: nat, skip: Option<nat>, mode: Mode,
                                       writeOk: nat -> bool)
    requires at <= |seen| && seen <= all && Clear(t, all, at, skip, mode)
    ensures var (t', k) := Pass(t, seen, at, skip, mode, writeOk);
      && (k == |seen| <==> forall n :: t.serial <= n < t'.serial ==> writeOk(n))
      && Clear(t', all, k, skip, mode)
      && Grew(t.rows, t'.rows, all, at, k, mode)
    decreases |seen| - at
  {
    hide Clear, Grew, Write, Named, NameOf;
    if at == |seen| {
      GrewNothing(t.rows, all, at, at, mode);
    } else if !ToWrite(all, at, skip, mode) {
      ClearFurther(t, all, at, skip, mode);
      if Skipped(seen[at], mode) {
        SkippedIsNotWritten(t, seen[at], at, mode, writeOk);
      }
      PassDecides(t, seen, all, at + 1, skip, mode, writeOk);
      GrewNothing(t.rows, all, at, at + 1, mode);
      var (t', k) := Pass(t, seen, at, skip, mode, writeOk);
      GrewThen(t.rows, t.rows, t'.rows, all, at, at + 1, k, mode);
    } else {
      WriteKeepsClear(t, all, at, skip, mode, writeOk);
      var (t1, ok) := Write(t, all[at], at, mode, writeOk);
      if ok {
        PassDecides(t1, seen, all, at + 1, skip, mode, writeOk);
        var (t', k) := Pass(t1, seen, at + 1, skip, mode, writeOk);
        GrewThen(t.rows, t1.rows, t'.rows, all, at, at + 1, k, mode);
      } else {
        GrewNothing(t.rows, all, at, at, mode);
      }
    }
  }

  lemma ClearFurther(t: Table, messages: seq<Message>, at: nat, skip: Option<nat>, mode: Mode)
    requires Clear(t, messages, at, skip, mode)
    ensures Clear(t, messages, at + 1, skip, mode)
  {
  }

  lemma SkippedIsNotWritten(t: Table, m: Message, i: nat, mode: Mode, writeOk: nat -> bool)
    requires Skipped(m, mode)
    ensures Write(t, m, i, mode, writeOk) == (t, true)
  {
  }

  /** The same at the boundaries, for the whole turn as it will be. A leased run remembers an error
      exactly when the store refused a write. */
  lemma {:induction false} DuringDecides(t: Table, base: seq<Message>, steps: seq<AgentStep>, all: seq<Message>, skip: Option<nat>,
                                         mode: Mode, writeOk: nat -> bool)
    requires base + Pushed(steps) <= all && Clear(t, all, |base|, skip, mode)
    ensures var p := During(Progress(t, |base|, false), base, steps, skip, mode, writeOk);
      && Clear(p.table, all, p.upTo, skip, mode)
      && Grew(t.rows, p.table.rows, all, |base|, p.upTo, mode)
      && (mode.run.Some? ==> (p.error <==> exists n :: t.serial <= n < p.table.serial && !writeOk(n)))
    decreases |steps|
  {
    hide Clear, Grew, Pass;
    if steps == [] {
      GrewNothing(t.rows, all, |base|, |base|, mode);
    } else {
      var n := |steps| - 1;
      DuringDecides(t, base, steps[..n], all, skip, mode, writeOk);
      if steps[n].Boundary? {
        var before := During(Progress(t, |base|, false), base, steps[..n], skip, mode, writeOk);
        var seen := base + Pushed(steps[..n]);
        PassDecides(before.table, seen, all, before.upTo, skip, mode, writeOk);
        var (t', k) := Pass(before.table, seen, before.upTo, skip, mode, writeOk);
        GrewThen(t.rows, before.table.rows, t'.rows, all, |base|, before.upTo, k, mode);
      }
    }
  }

  // ---- A turn that can be written ----

  /** The identities chosen for a turn are free, and for a leased run those of its own messages
      are, and the row of the user's message is there. */
  ghost predicate Writable(rows: seq<Row>, user: UserPersistence, assistant: AssistantPersistence) {
    && (user.AdapterPersists? && user.id.Some? ==> !HasRow(rows, Given(user.id.value)))
    && (assistant.AdapterInserts? && assistant.id.Some? ==>
          !HasRow(rows, Given(assistant.id.value)) && (user.AdapterPersists? ==> user.id != assistant.id))
    && (assistant.Durable? ==> user.CallerPersisted? && forall i: nat :: !HasRow(rows, MessageName(assistant.runId, i)))
    && (assistant.PreinsertedId().Some? ==> HasRow(rows, Given(assistant.PreinsertedId().value)))
  }

  lemma MessageNamesDiffer(run: string, i: nat, j: nat)
    requires MessageName(run, i) == MessageName(run, j)
    ensures i == j
  {
    var prefix := run + ":message:";
    assert Decimal(i) == (prefix + Decimal(i))[|prefix|..] && Decimal(j) == (prefix + Decimal(j))[|prefix|..];
    DecimalInjective(i, j);
  }

  lemma TurnIsClear(t: Table, turn: seq<Message>, from: nat, user: UserPersistence, assistant: AssistantPersistence)
    requires TableOk(t.rows, t.serial) && IsTurn(turn, from) && Writable(t.rows, user, assistant)
    ensures Clear(t, turn, from, Skip(user, from), ModeOf(user, assistant))
  {
    hide HasRow, DistinctIds, MessageName;
    var mode := ModeOf(user, assistant);
    forall i, j | from <= i < j < |turn| && NameOf(turn[i], mode, i).Some?
      ensures NameOf(turn[i], mode, i) != NameOf(turn[j], mode, j)
    {
      if MessageName(mode.run.value, i) == MessageName(mode.run.value, j) {
        MessageNamesDiffer(mode.run.value, i, j);
      }
    }
  }

  /** The identities a turn gives its messages after the loop leave what no boundary stored as
      writable as it was. */
  lemma TaggedIsClear(t: Table, t1: Table, turn: seq<Message>, messages: seq<Message>, from: nat, b: nat,
                      user: UserPersistence, assistant: AssistantPersistence)
    requires IsTurn(turn, from) && Tagged(messages, from, turn, user.TagId(), assistant.TagId()) && from <= b <= |turn|
    requires Writable(t.rows, user, assistant)
    requires Clear(t1, turn, b, Skip(user, from), ModeOf(user, assistant))
    requires Grew(t.rows, t1.rows, turn, from, b, ModeOf(user, assistant))
    ensures Clear(t1, messages, b, None, ModeOf(user, assistant))
  {
    var mode := ModeOf(user, assistant);
    forall i | b <= i < |messages| && ToWrite(messages, i, None, mode) ensures Free(t1.rows, messages[i], mode, i) {
      TaggedIsFree(t, t1, turn, messages, from, b, i, user, assistant);
    }
    forall i, j | b <= i < j < |messages| && ToWrite(messages, i, None, mode) && ToWrite(messages, j, None, mode)
      && NameOf(messages[i], mode, i).Some?
      ensures NameOf(messages[i], mode, i) != NameOf(messages[j], mode, j)
    {
      TaggedDiffer(t.rows, turn, messages, from, i, j, user, assistant);
    }
    hide HasRow, Grew, Tagged, IsTurn, Free, ToWrite, NameOf, Writable;
  }

  lemma TaggedIsFree(t: Table, t1: Table, turn: seq<Message>, messages: seq<Message>, from: nat, b: nat, i: nat,
                     user: UserPersistence, assistant: AssistantPersistence)
    requires IsTurn(turn, from) && Tagged(messages, from, turn, user.TagId(), assistant.TagId()) && from <= b <= i < |turn|
    requires Writable(t.rows, user, assistant) && ToWrite(messages, i, None, ModeOf(user, assistant))
    requires Clear(t1, turn, b, Skip(user, from), ModeOf(user, assistant))
    requires Grew(t.rows, t1.rows, turn, from, b, ModeOf(user, assistant))
    ensures Free(t1.rows, messages[i], ModeOf(user, assistant), i)
  {
    hide HasRow, MessageName, LastAssistant, NothingGenerated;
    LastAssistantIsLast(turn);
    assert messages[i].(messageId := None) == turn[i];
    if messages[i].messageId.None? {
      assert turn[i] == messages[i];
      assert ToWrite(turn, i, Skip(user, from), ModeOf(user, assistant));
    } else if assistant.Run().None? {
      NothingNamed(turn, from, b, ModeOf(user, assistant));
    }
  }

  /** Outside leased runs nothing is named before the identities are given. */
  lemma NothingNamed(turn: seq<Message>, from: nat, b: nat, mode: Mode)
    requires IsTurn(turn, from) && b <= |turn| && mode.run.None?
    ensures forall x :: !Named(turn, from, b, mode, x)
  {
  }

  lemma TaggedDiffer(rows: seq<Row>, turn: seq<Message>, messages: seq<Message>, from: nat, i: nat, j: nat,
                     user: UserPersistence, assistant: AssistantPersistence)
    requires IsTurn(turn, from) && Tagged(messages, from, turn, user.TagId(), assistant.TagId()) && from <= i < j < |turn|
    requires Writable(rows, user, assistant)
    requires ToWrite(messages, i, None, ModeOf(user, assistant)) && NameOf(messages[i], ModeOf(user, assistant), i).Some?
    ensures NameOf(messages[i], ModeOf(user, assistant), i) != NameOf(messages[j], ModeOf(user, assistant), j)
  {
    hide HasRow, MessageName, LastAssistant;
    if assistant.Durable? && MessageName(assistant.runId, i) == MessageName(assistant.runId, j) {
      MessageNamesDiffer(assistant.runId, i, j);
    }
  }

  /** With the identities of a turn free, only the store decides: a leased run has its answer, and
      everything stored, exactly when none of the writes it tried was refused; any other turn is
      stored exactly when none was refused after the loop, whatever happened at the boundaries. */
  lemma PersistedIffWritesSucceed(t: Table, t': Table, turn: seq<Message>, messages: seq<Message>, from: nat,
                                  steps: seq<AgentStep>, durable: bool, groups: seq<Group>, answer: Result<string, ChatError>,
                                  user: UserPersistence, assistant: AssistantPersistence, writeOk: nat -> bool,
                                  b: nat, k: nat, persisted: bool)
    requires TableOk(t.rows, t.serial) && Writable(t.rows, user, assistant)
    requires IsTurn(turn, from) && Tagged(messages, from, turn, user.TagId(), assistant.TagId()) && b <= |messages|
    requires Played(turn, from, steps, durable, groups, answer)
    requires Written(t, t', turn, messages, from, steps, user, assistant, writeOk, b, k, persisted)
    ensures var p := During(Progress(t, from, false), turn[..from], steps, Skip(user, from), ModeOf(user, assistant), writeOk);
      && (assistant.Durable? ==> (persisted <==> forall n :: t.serial <= n < t'.serial ==> writeOk(n)))
      && (!assistant.Durable? ==> (persisted <==> forall n :: p.table.serial <= n < t'.serial ==> writeOk(n)))
  {
    hide HasRow, During, Pass, Clear, Grew, Writable, Pushed, LastAssistant, TableOk, FailedDuring;
    var mode, skip := ModeOf(user, assistant), Skip(user, from);
    var base := turn[..from];
    assert base + Pushed(steps) == turn;
    TurnIsClear(t, turn, from, user, assistant);
    DuringDecides(t, base, steps, turn, skip, mode, writeOk);
    ErrorHasCause(Progress(t, from, false), base, steps, skip, mode, writeOk);
    var p := During(Progress(t, from, false), base, steps, skip, mode, writeOk);
    TaggedIsClear(t, p.table, turn, messages, from, b, user, assistant);
    PassDecides(p.table, messages, messages, b, None, mode, writeOk);
  }
}
