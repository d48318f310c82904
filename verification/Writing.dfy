/** The writes of a turn as a function of what the writer was given: the table, the transcripts at
    the boundaries, and which writes succeed. */
module Writing {
  import opened JsonText
  import opened Wrappers
  import opened Agent
  import opened ChatRows

  /** Who holds the row of the user's message, which row waits for the answer, and which leased run
      writes. */
  datatype Mode = Mode(callerId: Option<string>, preId: Option<string>, run: Option<string>)

  /** The rows, and the number of writes tried so far. */
  datatype Table = Table(rows: seq<Row>, serial: nat)

  /** A message that is not written. */
  predicate Skipped(m: Message, mode: Mode) {
    m.role.SystemRole? || !ShouldPersist(m, mode.callerId)
  }

  /** One message: the table after it, and whether the next one may follow. */
  function Write(t: Table, m: Message, index: nat, mode: Mode, writeOk: nat -> bool): (r: (Table, bool))
    ensures t.serial <= r.0.serial
  {
    if Skipped(m, mode) then (t, true)
    else
      match PersistOne(t.rows, m, mode.callerId, mode.preId, mode.run, index, t.serial, writeOk(t.serial))
      case Success(rows) => (Table(rows, t.serial + 1), true)
      case Failure(_) => (t.(serial := t.serial + 1), false)
  }

  /** Messages in order, up to a write that fails; the one at `skip` is passed over. */
  function Pass(t: Table, messages: seq<Message>, at: nat, skip: Option<nat>, mode: Mode, writeOk: nat -> bool): (r: (Table, nat))
    requires at <= |messages|
    ensures at <= r.1 <= |messages| && t.serial <= r.0.serial
    decreases |messages| - at
  {
    if at == |messages| then (t, at)
    else if skip == Some(at) then Pass(t, messages, at + 1, skip, mode, writeOk)
    else
      var (t', ok) := Write(t, messages[at], at, mode, writeOk);
      if ok then Pass(t', messages, at + 1, skip, mode, writeOk) else (t', at)
  }

  /** How far the boundaries of a turn have come; `error` once a leased run's write failed. */
  datatype Progress = Progress(table: Table, upTo: nat, error: bool)

  function AtBoundary(p: Progress, seen: seq<Message>, skip: Option<nat>, mode: Mode, writeOk: nat -> bool): (r: Progress)
    requires p.upTo <= |seen|
    ensures p.upTo <= r.upTo <= |seen| && p.table.serial <= r.table.serial
  {
    var (t, at) := Pass(p.table, seen, p.upTo, skip, mode, writeOk);
    Progress(t, at, p.error || (mode.run.Some? && at < |seen|))
  }

  /** The boundaries among the steps of a turn, each with the transcript as it was then. */
  function During(p: Progress, base: seq<Message>, steps: seq<AgentStep>, skip: Option<nat>, mode: Mode, writeOk: nat -> bool)
    : (r: Progress)
    requires p.upTo <= |base|
    ensures p.upTo <= r.upTo <= |base + Pushed(steps)| && p.table.serial <= r.table.serial
    decreases |steps|
  {
    if steps == [] then p
    else
      var n := |steps| - 1;
      var before := During(p, base, steps[..n], skip, mode, writeOk);
      if steps[n].Push? then before else AtBoundary(before, base + Pushed(steps[..n]), skip, mode, writeOk)
  }

  lemma DuringStep(p: Progress, base: seq<Message>, steps: seq<AgentStep>, step: AgentStep, skip: Option<nat>, mode: Mode,
                   writeOk: nat -> bool)
    requires p.upTo <= |base|
    ensures var before := During(p, base, steps, skip, mode, writeOk);
      During(p, base, steps + [step], skip, mode, writeOk)
        == if step.Push? then before else AtBoundary(before, base + Pushed(steps), skip, mode, writeOk)
  {
    assert (steps + [step])[..|steps|] == steps;
  }

  // ---- A pass stops at a write that fails ----

  /** The last write that was tried is that of this message, and it failed. */
  predicate FailedAt(t: Table, m: Message, index: nat, mode: Mode, writeOk: nat -> bool) {
    && t.serial > 0 && !Skipped(m, mode)
    && PersistOne(t.rows, m, mode.callerId, mode.preId, mode.run, index, t.serial - 1, writeOk(t.serial - 1)).Failure?
  }

  lemma {:induction false} PassStops(t: Table, messages: seq<Message>, at: nat, skip: Option<nat>, mode: Mode, writeOk: nat -> bool)
    requires at <= |messages|
    ensures var (t', k) := Pass(t, messages, at, skip, mode, writeOk);
      k < |messages| ==> FailedAt(t', messages[k], k, mode, writeOk)
    decreases |messages| - at
  {
    hide PersistOne, ShouldPersist;
    if at < |messages| {
      PassStops(if skip == Some(at) then t else Write(t, messages[at], at, mode, writeOk).0, messages, at + 1, skip, mode, writeOk);
    }
  }

  /** A write failed at one of the boundaries. */
  predicate FailedDuring(p: Progress, base: seq<Message>, steps: seq<AgentStep>, skip: Option<nat>, mode: Mode, writeOk: nat -> bool)
    requires p.upTo <= |base|
    decreases |steps|
  {
    steps != []
    && var n := |steps| - 1;
    var q, seen := During(p, base, steps, skip, mode, writeOk), base + Pushed(steps[..n]);
    || FailedDuring(p, base, steps[..n], skip, mode, writeOk)
    || (steps[n].Boundary? && q.upTo < |seen| && FailedAt(q.table, seen[q.upTo], q.upTo, mode, writeOk))
  }

  /** A leased run remembers an error exactly when a write failed at a boundary. */
  lemma {:induction false} ErrorHasCause(p: Progress, base: seq<Message>, steps: seq<AgentStep>, skip: Option<nat>, mode: Mode,
                                         writeOk: nat -> bool)
    requires p.upTo <= |base| && !p.error
    ensures During(p, base, steps, skip, mode, writeOk).error
      <==> mode.run.Some? && FailedDuring(p, base, steps, skip, mode, writeOk)
    decreases |steps|
  {
    hide Pass, FailedAt;
    if steps != [] {
      var n := |steps| - 1;
      ErrorHasCause(p, base, steps[..n], skip, mode, writeOk);
      var before := During(p, base, steps[..n], skip, mode, writeOk);
      PassStops(before.table, base + Pushed(steps[..n]), before.upTo, skip, mode, writeOk);
    }
  }
}
