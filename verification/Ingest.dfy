/** The record sequence of a model response, written by any number of attempts that may overlap,
    stop after any commit, or lose an acknowledgement, while other writers commit other records. */
module Ingest {
  import opened Wrappers
  import opened Protocol
  import opened Journal
  import opened Execution
  import opened ToolFence

  // ---- One record sequence in a journal ----

  /** Two commands that deduplication would take for one. */
  predicate Collide(a: AppendCommand, b: AppendCommand) {
    SameEnvelope(a, b) || SameReceipt(a, b)
  }

  ghost predicate Distinct(commands: seq<AppendCommand>) {
    forall i, j {:trigger commands[i], commands[j]} :: 0 <= i < j < |commands| ==> !Collide(commands[i], commands[j])
  }

  /** The records of the sequence, in journal order. */
  function Recorded(log: seq<AppendCommand>, commands: seq<AppendCommand>): seq<AppendCommand> {
    if log == [] then []
    else
      var n := |log| - 1;
      Recorded(log[..n], commands) + (if log[n] in commands then [log[n]] else [])
  }

  /** A record of something else. */
  ghost predicate Unrelated(c: AppendCommand, commands: seq<AppendCommand>) {
    forall k :: 0 <= k < |commands| ==> !Collide(c, commands[k])
  }

  lemma UnrelatedIsNotIn(c: AppendCommand, commands: seq<AppendCommand>)
    requires Unrelated(c, commands)
    ensures c !in commands
  {
    assert Collide(c, c);
  }

  /** The journal holds exactly the first m records of the sequence, in order; its other records
      have nothing to do with the sequence. */
  ghost predicate PartlyRecorded(log: seq<AppendCommand>, commands: seq<AppendCommand>, m: nat) {
    && m <= |commands|
    && Recorded(log, commands) == commands[..m]
    && forall i :: 0 <= i < |log| ==> log[i] in commands || Unrelated(log[i], commands)
  }

  lemma CollideSymmetric(a: AppendCommand, b: AppendCommand)
    ensures Collide(a, b) <==> Collide(b, a)
  {
  }

  lemma {:induction false} RecordedIffInLog(log: seq<AppendCommand>, commands: seq<AppendCommand>, c: AppendCommand)
    ensures c in Recorded(log, commands) <==> c in log && c in commands
  {
    if log != [] {
      var n := |log| - 1;
      RecordedIffInLog(log[..n], commands, c);
      assert log == log[..n] + [log[n]];
    }
  }

  /** A record that collides with record p of the sequence is record p, and was recorded. */
  lemma CollisionIsTheRecord(log: seq<AppendCommand>, commands: seq<AppendCommand>, m: nat, p: nat, i: nat)
    requires PartlyRecorded(log, commands, m) && Distinct(commands)
    requires p < |commands| && i < |log| && Collide(log[i], commands[p])
    ensures log[i] == commands[p] && p < m
  {
    var q :| 0 <= q < |commands| && commands[q] == log[i];
    CollideSymmetric(commands[p], commands[q]);
    assert q == p;
    RecordedIffInLog(log, commands, log[i]);
    var r :| 0 <= r < m && commands[r] == log[i];
    CollideSymmetric(commands[p], commands[r]);
    assert Collide(commands[r], commands[p]);
  }

  /** A commit of record p of the sequence, with at least the p earlier ones recorded, leaves the
      journal as it was or appends record p; once acknowledged, record p is there. */
  lemma CommitRecord(log: seq<AppendCommand>, commands: seq<AppendCommand>, m: nat, p: nat, fault: Fault) returns (n: nat)
    requires Built(log) && PartlyRecorded(log, commands, m) && Distinct(commands)
    requires p < |commands| && p <= m
    ensures var (log', receipt) := SinkCommit(log, commands[p], fault);
      && Built(log')
      && m <= n <= |commands| && PartlyRecorded(log', commands, n)
      && log' == log + commands[m..n]
      && (receipt.Some? ==> p < n)
    ensures n <= m + 1 && (p < m ==> n == m)
  {
    var c := commands[p];
    SinkCommitCases(log, c, fault);
    var (log', receipt) := SinkCommit(log, c, fault);
    if log' == log {
      n := m;
      assert commands[m..n] == [];
      if receipt.Some? {
        var i :| 0 <= i < |log| && Collide(log[i], c);
        CollisionIsTheRecord(log, commands, m, p, i);
      }
    } else {
      n := m + 1;
      MissingRecordIsNext(log, commands, m, p);
      RecordAppended(log, commands, m);
      assert commands[m..n] == [c];
    }
  }

  /** A commit changes nothing, acknowledging at most a record that collides, or appends the
      command to a journal that did not have it. */
  lemma SinkCommitCases(log: seq<AppendCommand>, c: AppendCommand, fault: Fault)
    requires Built(log)
    ensures var (log', receipt) := SinkCommit(log, c, fault);
      && Built(log')
      && (log' == log ==> (receipt.Some? ==> exists i :: 0 <= i < |log| && Collide(log[i], c)))
      && (log' != log ==> log' == log + [c] && c !in log)
  {
    CommitKeepsBuilt(log, c);
    var (log', receipt) := SinkCommit(log, c, fault);
    if log' != log {
      AppendedIsNew(log, c);
    } else if receipt.Some? {
      DuplicateCollides(log, c, fault);
    }
  }

  lemma MissingRecordIsNext(log: seq<AppendCommand>, commands: seq<AppendCommand>, m: nat, p: nat)
    requires PartlyRecorded(log, commands, m) && p < |commands| && p <= m && commands[p] !in log
    ensures p == m
  {
    if p < m {
      assert commands[p] in commands[..m];
    }
    RecordedIffInLog(log, commands, commands[p]);
  }

  lemma RecordAppended(log: seq<AppendCommand>, commands: seq<AppendCommand>, m: nat)
    requires PartlyRecorded(log, commands, m) && m < |commands|
    ensures PartlyRecorded(log + [commands[m]], commands, m + 1)
  {
    var log' := log + [commands[m]];
    assert log'[..|log|] == log;
    assert commands[..m + 1] == commands[..m] + [commands[m]];
    assert forall i :: 0 <= i < |log| ==> log'[i] == log[i];
  }

  lemma AppendedIsNew(log: seq<AppendCommand>, c: AppendCommand)
    requires Appended(log, c)
    ensures c !in log
  {
    assert forall i :: 0 <= i < |log| ==> (log[i] == c ==> SameEnvelope(log[i], c));
  }

  lemma DuplicateCollides(log: seq<AppendCommand>, c: AppendCommand, fault: Fault)
    requires var (log', receipt) := SinkCommit(log, c, fault); receipt.Some? && log' == log
    ensures exists i :: 0 <= i < |log| && Collide(log[i], c)
  {
    if FindEnvelope(log, c).Some? {
      assert Collide(log[FindEnvelope(log, c).value], c);
    } else if ReceiptKeyOf(c).Some? {
      var i := FindReceipt(log, c.runId, ReceiptKeyOf(c).value);
      assert i.Some? ==> Collide(log[i.value], c);
    }
  }

  // ---- When a commit is acknowledged ----

  predicate Live(log: seq<AppendCommand>, run: RunId) {
    StateOf(log, run).Some? && !StateOf(log, run).value.IsTerminal()
  }

  /** The kinds of record that a response is made of: none moves the state of its run. */
  predicate OfResponse(c: AppendCommand) {
    c.payload.Restricted? || c.payload.public.UsageRecorded? || c.payload.public.Planning?
  }

  lemma OfResponseKeepsState(c: AppendCommand, state: Option<RunState>)
    requires OfResponse(c)
    ensures Advance(state, c) == state
    ensures MakePlan(c, state).Success? <==> Validate(c).Success? && state.Some? && !state.value.IsTerminal()
  {
    hide Validate;
  }

  lemma {:induction false} ResponseKeepsState(log: seq<AppendCommand>, commands: seq<AppendCommand>, run: RunId)
    requires forall c :: c in commands ==> OfResponse(c)
    ensures StateOf(log + commands, run) == StateOf(log, run)
  {
    if commands == [] {
      assert log + commands == log;
    } else {
      var n := |commands| - 1;
      ResponseKeepsState(log, commands[..n], run);
      assert (log + commands)[..|log| + n] == log + commands[..n];
      OfResponseKeepsState(commands[n], StateOf(log + commands[..n], run));
    }
  }

  /** A commit of record p is acknowledged exactly when its acknowledgement arrives and it is
      recorded already, or else is valid, on a live run, with a sequence number left. */
  lemma AcknowledgedWhen(log: seq<AppendCommand>, commands: seq<AppendCommand>, m: nat, p: nat, fault: Fault)
    requires Built(log) && PartlyRecorded(log, commands, m) && Distinct(commands)
    requires p < |commands| && p <= m && OfResponse(commands[p])
    ensures SinkCommit(log, commands[p], fault).1.Some? <==>
      fault.Delivered?
      && (p < m || (Validate(commands[p]).Success? && Live(log, commands[p].runId) && |log| < MAX_I64))
  {
    hide Built, Validate;
    var c := commands[p];
    if p < m {
      assert c in commands[..m];
      RecordedIffInLog(log, commands, c);
      var i :| 0 <= i < |log| && log[i] == c;
      BuiltRecord(log, i);
      Deduplication(log, i, c);
    } else {
      forall i | 0 <= i < |log| ensures !Collide(log[i], c) {
        if Collide(log[i], c) {
          CollisionIsTheRecord(log, commands, m, p, i);
        }
      }
      OfResponseKeepsState(c, StateOf(log, c.runId));
    }
  }

  /** Another writer's record of something else leaves the sequence as far as it was. */
  lemma ExternalRecord(log: seq<AppendCommand>, commands: seq<AppendCommand>, m: nat, c: AppendCommand)
    requires Built(log) && PartlyRecorded(log, commands, m) && Unrelated(c, commands)
    ensures Built(SinkCommit(log, c, Delivered).0)
    ensures PartlyRecorded(SinkCommit(log, c, Delivered).0, commands, m)
  {
    CommitKeepsBuilt(log, c);
    var log' := SinkCommit(log, c, Delivered).0;
    if log' != log {
      assert log'[..|log|] == log;
      UnrelatedIsNotIn(c, commands);
    }
  }

  // ---- Overlapping attempts ----

  /** An attempt that has had `next` records acknowledged, in order. */
  datatype Attempt = Attempt(next: nat, stopped: bool)

  datatype Attempts = Attempts(log: seq<AppendCommand>, attempts: seq<Attempt>)

  datatype IngestEvent =
    | StartAttempt
    | CommitNext(attempt: nat, fault: Fault)
    | StopAttempt(attempt: nat)
    | OtherRecord(command: AppendCommand)

  function NextAttempts(commands: seq<AppendCommand>, s: Attempts, e: IngestEvent): Attempts {
    match e
    case StartAttempt => s.(attempts := s.attempts + [Attempt(0, false)])
    case StopAttempt(i) =>
      if i < |s.attempts| then s.(attempts := s.attempts[i := s.attempts[i].(stopped := true)]) else s
    case OtherRecord(c) => s.(log := SinkCommit(s.log, c, Delivered).0)
    case CommitNext(i, fault) =>
      if i >= |s.attempts| || s.attempts[i].stopped || s.attempts[i].next >= |commands| then s
      else
        var a := s.attempts[i];
        var (log', receipt) := SinkCommit(s.log, commands[a.next], fault);
        Attempts(log', s.attempts[i := if receipt.Some? then Attempt(a.next + 1, false) else Attempt(a.next, true)])
  }

  function RunAttempts(commands: seq<AppendCommand>, s: Attempts, events: seq<IngestEvent>): Attempts
    decreases |events|
  {
    if events == [] then s else RunAttempts(commands, NextAttempts(commands, s, events[0]), events[1..])
  }

  /** What an event does to the attempts: one starts with nothing acknowledged, one stops for good,
      and one that runs has one more record acknowledged, or stops where it is when it gets no
      acknowledgement. */
  lemma AttemptsMove(commands: seq<AppendCommand>, s: Attempts, i: nat, fault: Fault, c: AppendCommand)
    requires i < |s.attempts|
    ensures NextAttempts(commands, s, StartAttempt) == s.(attempts := s.attempts + [Attempt(0, false)])
    ensures NextAttempts(commands, s, StopAttempt(i)) == s.(attempts := s.attempts[i := Attempt(s.attempts[i].next, true)])
    ensures NextAttempts(commands, s, OtherRecord(c)).attempts == s.attempts
    ensures NextAttempts(commands, s, OtherRecord(c)).log == (if Appended(s.log, c) then s.log + [c] else s.log)
    ensures var a := s.attempts[i];
      a.stopped || a.next >= |commands| ==> NextAttempts(commands, s, CommitNext(i, fault)) == s
    ensures var a := s.attempts[i];
      !a.stopped && a.next < |commands| ==>
        var acknowledged := fault.Delivered? && Commit(s.log, commands[a.next]).Success?;
        var written := !fault.FailedBefore? && Appended(s.log, commands[a.next]);
        NextAttempts(commands, s, CommitNext(i, fault))
          == Attempts(if written then s.log + [commands[a.next]] else s.log,
                      s.attempts[i := if acknowledged then Attempt(a.next + 1, false) else Attempt(a.next, true)])
  {
    hide Commit;
    SinkCommitWrites(s.log, c, Delivered);
    if s.attempts[i].next < |commands| {
      SinkCommitWrites(s.log, commands[s.attempts[i].next], fault);
    }
  }

  /** Other writers only write records of something else. */
  ghost predicate Admissible(commands: seq<AppendCommand>, events: seq<IngestEvent>) {
    forall e :: e in events && e.OtherRecord? ==> Unrelated(e.command, commands)
  }

  ghost predicate AttemptsInv(commands: seq<AppendCommand>, s: Attempts, m: nat) {
    && Built(s.log)
    && PartlyRecorded(s.log, commands, m)
    && forall a :: a in s.attempts ==> a.next <= m
  }

  lemma NextAttemptsKeepInv(commands: seq<AppendCommand>, s: Attempts, e: IngestEvent, m: nat) returns (n: nat)
    requires Distinct(commands) && AttemptsInv(commands, s, m)
    requires e.OtherRecord? ==> Unrelated(e.command, commands)
    ensures m <= n <= |commands| && AttemptsInv(commands, NextAttempts(commands, s, e), n)
    ensures !e.OtherRecord? ==> NextAttempts(commands, s, e).log == s.log + commands[m..n]
  {
    n := m;
    assert commands[m..n] == [];
    match e
    case StartAttempt =>
    case StopAttempt(i) =>
    case OtherRecord(c) => ExternalRecord(s.log, commands, m, c);
    case CommitNext(i, fault) =>
      if i < |s.attempts| && !s.attempts[i].stopped && s.attempts[i].next < |commands| {
        n := CommitRecord(s.log, commands, m, s.attempts[i].next, fault);
      }
  }

  lemma {:induction false} RunAttemptsKeepInv(commands: seq<AppendCommand>, s: Attempts, events: seq<IngestEvent>, m: nat) returns (n: nat)
    requires Distinct(commands) && AttemptsInv(commands, s, m) && Admissible(commands, events)
    requires m <= |commands|
    ensures m <= n <= |commands| && AttemptsInv(commands, RunAttempts(commands, s, events), n)
    ensures (forall e :: e in events ==> !e.OtherRecord?) ==> RunAttempts(commands, s, events).log == s.log + commands[m..n]
    decreases |events|
  {
    hide NextAttempts, Unrelated, AttemptsInv, Distinct;
    if events == [] {
      n := m;
    } else {
      var k := NextAttemptsKeepInv(commands, s, events[0], m);
      n := RunAttemptsKeepInv(commands, NextAttempts(commands, s, events[0]), events[1..], k);
      assert commands[m..n] == commands[m..k] + commands[k..n];
    }
  }

  // ---- Main results ----

  lemma IngestIsDistinct(ctx: ExecutionContext, model: ModelCallId, record: ResponseRecord)
    ensures Distinct(ctx.IngestCommands(model, record))
  {
    var commands := ctx.IngestCommands(model, record);
    forall i, j {:trigger commands[i], commands[j]} | 0 <= i < j < |commands| ensures !Collide(commands[i], commands[j]) {
      IngestCommandsDistinct(ctx, model, record, i, j);
    }
  }

  lemma {:induction false} NothingRecorded(log: seq<AppendCommand>, commands: seq<AppendCommand>)
    requires forall i :: 0 <= i < |log| ==> Unrelated(log[i], commands)
    ensures PartlyRecorded(log, commands, 0)
  {
    if log != [] {
      var n := |log| - 1;
      NothingRecorded(log[..n], commands);
      UnrelatedIsNotIn(log[n], commands);
    }
  }

  /** Any overlapping and interrupted attempts to ingest one response leave a prefix of its
      records in the journal, in order and without repetition, whatever other records are
      written in between; once any attempt completes, all of them. */
  lemma IngestIsCrashIdempotent(ctx: ExecutionContext, model: ModelCallId, record: ResponseRecord,
                                log: seq<AppendCommand>, events: seq<IngestEvent>)
    requires Built(log)
    requires forall i :: 0 <= i < |log| ==> Unrelated(log[i], ctx.IngestCommands(model, record))
    requires Admissible(ctx.IngestCommands(model, record), events)
    ensures var commands := ctx.IngestCommands(model, record);
      var s := RunAttempts(commands, Attempts(log, []), events);
      && Recorded(s.log, commands) <= commands
      && ((exists a :: a in s.attempts && a.next == |commands|) ==> Recorded(s.log, commands) == commands)
      && ((forall e :: e in events ==> !e.OtherRecord?) ==> s.log == log + Recorded(s.log, commands))
  {
    var commands := ctx.IngestCommands(model, record);
    IngestIsDistinct(ctx, model, record);
    NothingRecorded(log, commands);
    var n := RunAttemptsKeepInv(commands, Attempts(log, []), events, 0);
    assert commands[..|commands|] == commands && commands[0..n] == commands[..n];
  }
}
