/** The durable sink the orchestration awaits, and the two orchestrated operations as the
    effects they have on it. */
module EventSinks {
  import opened JsonText
  import opened Wrappers
  import opened Protocol
  import opened Journal
  import opened Execution
  import opened ToolFence
  import opened Ingest

  /** What the environment does to the five awaited steps of one `tool` call. */
  datatype ToolRun = ToolRun(read: Fault, intent: Fault, start: Fault, outcome: ToolOutcome, record: Fault)

  /** The same call as a schedule of the interleaved system. */
  function Schedule(id: ToolCallId, name: string, arguments: Json, run: ToolRun): seq<Event> {
    [Invoke(id, name, arguments), Proceed(0, run.read, run.outcome), Proceed(0, run.intent, run.outcome),
     Proceed(0, run.start, run.outcome), Proceed(0, run.record, run.outcome), Proceed(0, run.record, run.outcome)]
  }

  function Max(m: nat, n: nat): nat {
    if m < n then n else m
  }

  /** Record p of a sequence is acknowledged to an attempt that starts with m of its records in the
      journal and had the earlier ones acknowledged. */
  predicate Acknowledges(log: seq<AppendCommand>, commands: seq<AppendCommand>, m: nat, p: nat, fault: Fault)
    requires p < |commands|
  {
    && fault.Delivered?
    && (p < m || (Validate(commands[p]).Success? && Live(log, commands[p].runId) && |log| + p - m < MAX_I64))
  }

  predicate AllOfResponse(commands: seq<AppendCommand>, run: RunId) {
    forall c :: c in commands ==> OfResponse(c) && c.runId == run
  }

  /** A planning record with the whole of a text, in a detail once it is longer than 200 characters. */
  predicate Plans(c: AppendCommand, text: string) {
    && c.payload.Public? && c.payload.public.Planning? && (c.detail.Some? <==> |text| > 200)
    && text == match c.detail case Some(body) => body case None => c.payload.public.text.preview
  }

  /** The journal holds everything of a response: what the provider sent and the candidate answer,
      both restricted, its usage and cost, and the whole of every planning text. */
  ghost predicate ResponseHeld(ctx: ExecutionContext, model: ModelCallId, record: ResponseRecord, log: seq<AppendCommand>) {
    && (exists k :: 0 <= k < |log| && log[k].runId == ctx.runId
          && log[k].payload == Restricted(ProviderResponse(model, record.raw, record.continuation)))
    && (exists k :: 0 <= k < |log| && log[k].runId == ctx.runId && log[k].payload == Restricted(Candidate(model, record.candidate)))
    && (exists k :: 0 <= k < |log| && log[k].runId == ctx.runId && log[k].payload == Public(UsageRecorded(model, record.usage, record.cost)))
    && (forall i :: 0 <= i < |record.planning| ==>
          exists k :: 0 <= k < |log| && log[k].runId == ctx.runId && Plans(log[k], record.planning[i]))
  }

  /** Of a response a record shows the public at most its usage or one of its planning texts. */
  predicate ShowsNoAnswer(c: AppendCommand, model: ModelCallId, record: ResponseRecord) {
    c.payload.Public? ==>
      || c.payload == Public(UsageRecorded(model, record.usage, record.cost))
      || exists i :: 0 <= i < |record.planning| && Plans(c, record.planning[i])
  }

  class EventSink {
    var log: seq<AppendCommand>

    constructor (log: seq<AppendCommand>)
      ensures this.log == log
    {
      this.log := log;
    }

    method Commit(c: AppendCommand, fault: Fault) returns (receipt: Option<CommitReceipt>)
      modifies this
      ensures (log, receipt) == SinkCommit(old(log), c, fault)
    {
      var (log', r) := SinkCommit(log, c, fault);
      log := log';
      receipt := r;
    }

    /** One commit of the record sequence, by an attempt that had the p earlier ones acknowledged.
        `base` and the m records already there are where the attempt started. */
    method CommitRecordOf(c: AppendCommand, fault: Fault, ghost commands: seq<AppendCommand>, ghost p: nat,
                          ghost base: seq<AppendCommand>, ghost m: nat)
      returns (acknowledged: bool, ghost n: nat)
      requires m <= |commands| && p < |commands| && c == commands[p]
      requires Built(log) && PartlyRecorded(log, commands, Max(m, p)) && Distinct(commands) && AllOfResponse(commands, c.runId)
      requires log == base + commands[m..Max(m, p)]
      modifies this
      ensures Built(log) && PartlyRecorded(log, commands, n)
      ensures m <= n <= |commands| && log == base + commands[m..n]
      ensures acknowledged ==> n == Max(m, p + 1)
      ensures acknowledged <==> Acknowledges(base, commands, m, p, fault)
    {
      hide SinkCommit, PartlyRecorded, Built, Distinct, Live;
      ghost var k := Max(m, p);
      n := CommitRecord(log, commands, k, p, fault);
      AcknowledgedWhen(log, commands, k, p, fault);
      ResponseKeepsLive(base, commands, m, k, c.runId);
      assert commands[m..n] == commands[m..k] + commands[k..n];
      var receipt := Commit(c, fault);
      acknowledged := receipt.Some?;
    }

    /** The first three records of the sequence. */
    method IngestResponse(ctx: ExecutionContext, model: ModelCallId, record: ResponseRecord, faults: nat -> Fault,
                          ghost commands: seq<AppendCommand>, ghost m: nat)
      returns (ok: bool, ghost n: nat)
      requires Built(log) && PartlyRecorded(log, commands, m) && Distinct(commands) && |commands| >= 3
      requires AllOfResponse(commands, ctx.runId)
      requires commands[0] == ctx.ResponseCommand(model, record)
      requires commands[1] == ctx.CandidateCommand(model, record)
      requires commands[2] == ctx.UsageCommand(model, record)
      modifies this
      ensures Built(log) && PartlyRecorded(log, commands, n)
      ensures m <= n <= |commands| && log == old(log) + commands[m..n]
      ensures ok ==> n == Max(m, 3)
      ensures ok <==> forall i :: 0 <= i < 3 ==> Acknowledges(old(log), commands, m, i, faults(i))
    {
      hide ExecutionContext.Command, SinkCommit, Built, PartlyRecorded, Distinct, Acknowledges;
      ghost var base := log;
      assert commands[m..m] == [] && m <= |commands| by {
        WithinSequence(log, commands, m);
      }
      ok, n := CommitRecordOf(ctx.ResponseCommand(model, record), faults(0), commands, 0, base, m);
      if !ok {
        return;
      }
      ok, n := CommitRecordOf(ctx.CandidateCommand(model, record), faults(1), commands, 1, base, m);
      if !ok {
        return;
      }
      ok, n := CommitRecordOf(ctx.UsageCommand(model, record), faults(2), commands, 2, base, m);
    }

    /** Continues the record sequence from wherever earlier attempts left it: a completed attempt
        appends exactly the missing records, an interrupted one some of them, in order. It
        completes exactly when every acknowledgement arrives and the missing records are valid, on
        a live run, with sequence numbers left. */
    method Ingest(ctx: ExecutionContext, model: ModelCallId, record: ResponseRecord, faults: nat -> Fault, ghost m: nat)
      returns (ok: bool, ghost n: nat)
      requires Built(log) && PartlyRecorded(log, ctx.IngestCommands(model, record), m)
      modifies this
      ensures Built(log) && PartlyRecorded(log, ctx.IngestCommands(model, record), n)
      ensures m <= n && log == old(log) + ctx.IngestCommands(model, record)[m..n]
      ensures ok ==> n == |ctx.IngestCommands(model, record)|
      ensures var commands := ctx.IngestCommands(model, record);
        ok <==> forall i :: 0 <= i < |commands| ==> Acknowledges(old(log), commands, m, i, faults(i))
      ensures ok ==> ResponseHeld(ctx, model, record, log)
      ensures forall j :: |old(log)| <= j < |log| ==> log[j].runId == ctx.runId && ShowsNoAnswer(log[j], model, record)
    {
      hide ResponseHeld, ShowsNoAnswer, ExecutionContext.IngestCommands, ExecutionContext.Command, SinkCommit, Built, PartlyRecorded, Distinct, Acknowledges,
        AllOfResponse, ExecutionContext.PlanningCommand, ExecutionContext.ResponseCommand, ExecutionContext.CandidateCommand,
        ExecutionContext.UsageCommand;
      ghost var commands := ctx.IngestCommands(model, record);
      IngestIsDistinct(ctx, model, record);
      IngestCommandsAt(ctx, model, record);
      ghost var base := log;
      ok, n := IngestResponse(ctx, model, record, faults, commands, m);
      AppendedShowNoAnswer(ctx, model, record, base, m, n);
      if !ok {
        return;
      }
      for index := 0 to |record.planning|
        invariant Built(log) && PartlyRecorded(log, commands, n)
        invariant m <= n <= |commands| && n == Max(m, 3 + index) && log == base + commands[m..n]
        invariant forall i :: 0 <= i < 3 + index ==> Acknowledges(base, commands, m, i, faults(i))
      {
        PlanningCommandAt(ctx, model, record, index);
        ok, n := CommitRecordOf(ctx.PlanningCommand(model, index, record.planning[index]), faults(3 + index),
                                commands, 3 + index, base, m);
        if !ok {
          AppendedShowNoAnswer(ctx, model, record, base, m, n);
          return;
        }
      }
      ok := true;
      AppendedShowNoAnswer(ctx, model, record, base, m, n);
      RecordedIsHeld(ctx, model, record, log);
    }

    /** The fenced part of one call: start, act, record. */
    method Fence(ctx: ExecutionContext, id: ToolCallId, run: ToolRun, ghost s: System, ghost rest: seq<Event>)
      returns (result: Result<ToolOutcome, ExecutionError>, executions: nat)
      requires OnlyProceeds(rest) && |s.calls| == 1 && s.calls[0].id == id && s.calls[0].phase.Starting?
      requires rest == [Proceed(0, run.start, run.outcome), Proceed(0, run.record, run.outcome), Proceed(0, run.record, run.outcome)]
      requires s.log == log && s.actions == []
      modifies this
      ensures var s' := Run(ctx, s, rest);
        log == s'.log && |s'.calls| == 1 && s'.calls[0].phase == Returned(result) && executions == |s'.actions|
    {
      hide ExecutionContext.Command, SinkCommit, ReadOutcome, Run, Schedule;
      executions := 0;
      var receipt := Commit(ctx.StartCommand(id), run.start);
      ghost var s1, rest1 := Follow(ctx, s, rest);
      if receipt.None? {
        FollowReturned(ctx, s1, rest1);
        result := Failure(Persistence);
        return;
      }
      if receipt.value.duplicate {
        FollowReturned(ctx, s1, rest1);
        result := Failure(Uncertain(START_COMMITTED));
        return;
      }
      executions := executions + 1;
      ghost var s2, rest2 := Follow(ctx, s1, rest1);
      var recorded := Commit(ctx.OutcomeCommand(id, run.outcome), run.record);
      ghost var s3, rest3 := Follow(ctx, s2, rest2);
      FollowReturned(ctx, s3, rest3);
      result := if recorded.None? then Failure(Uncertain("")) else Settle(run.outcome);
    }

    /** One call on its own is one schedule of the interleaved system, so everything proved of
        all schedules holds of it. */
    method Tool(ctx: ExecutionContext, id: ToolCallId, name: string, arguments: Json, run: ToolRun)
      returns (result: Result<ToolOutcome, ExecutionError>, executions: nat)
      modifies this
      ensures var s := Run(ctx, System(old(log), [], []), Schedule(id, name, arguments, run));
        && log == s.log
        && |s.calls| == 1 && s.calls[0].phase == Returned(result)
        && executions == |s.actions|
    {
      hide ExecutionContext.Command, SinkCommit, ReadOutcome, Run, Schedule;
      ghost var s0, rest0 := Started(ctx, log, id, name, arguments, run);
      executions := 0;
      ghost var s1, rest1 := Follow(ctx, s0, rest0);
      if !run.read.Delivered? {
        FollowReturned(ctx, s1, rest1);
        result := Failure(Persistence);
        return;
      }
      var committed := ReadOutcome(log, ctx.runId, id);
      if committed.Failure? {
        FollowReturned(ctx, s1, rest1);
        result := Failure(committed.error);
        return;
      }
      if committed.value.Some? {
        FollowReturned(ctx, s1, rest1);
        result := Settle(committed.value.value);
        return;
      }
      var receipt := Commit(ctx.IntentCommand(id, name, arguments), run.intent);
      ghost var s2, rest2 := Follow(ctx, s1, rest1);
      if receipt.None? {
        FollowReturned(ctx, s2, rest2);
        result := Failure(Persistence);
        return;
      }
      result, executions := Fence(ctx, id, run, s2, rest2);
    }
  }

  lemma WithinSequence(log: seq<AppendCommand>, commands: seq<AppendCommand>, m: nat)
    requires PartlyRecorded(log, commands, m)
    ensures m <= |commands|
  {
  }

  lemma IngestCommandsAt(ctx: ExecutionContext, model: ModelCallId, record: ResponseRecord)
    ensures var commands := ctx.IngestCommands(model, record);
      && commands[0] == ctx.ResponseCommand(model, record)
      && commands[1] == ctx.CandidateCommand(model, record)
      && commands[2] == ctx.UsageCommand(model, record)
    ensures AllOfResponse(ctx.IngestCommands(model, record), ctx.runId)
  {
    hide ExecutionContext.BoundedText;
  }

  lemma PlanningCommandAt(ctx: ExecutionContext, model: ModelCallId, record: ResponseRecord, i: nat)
    requires i < |record.planning|
    ensures ctx.IngestCommands(model, record)[3 + i] == ctx.PlanningCommand(model, i, record.planning[i])
    ensures ctx.PlanningCommand(model, i, record.planning[i]).runId == ctx.runId
  {
    PlanningCommandRun(ctx, model, i, record.planning[i]);
    hide ExecutionContext.PlanningCommand, ExecutionContext.ResponseCommand, ExecutionContext.CandidateCommand,
      ExecutionContext.UsageCommand;
  }

  lemma PlanningCommandRun(ctx: ExecutionContext, model: ModelCallId, i: nat, body: string)
    ensures ctx.PlanningCommand(model, i, body).runId == ctx.runId
  {
    hide ExecutionContext.BoundedText;
  }

  /** What the records of a response say. */
  lemma RecordsOfResponse(ctx: ExecutionContext, model: ModelCallId, record: ResponseRecord)
    ensures var commands := ctx.IngestCommands(model, record);
      && |commands| == 3 + |record.planning|
      && (forall i :: 0 <= i < |commands| ==> commands[i].runId == ctx.runId)
      && commands[0].payload == Restricted(ProviderResponse(model, record.raw, record.continuation))
      && commands[1].payload == Restricted(Candidate(model, record.candidate))
      && commands[2].payload == Public(UsageRecorded(model, record.usage, record.cost))
      && commands[0].detail.None? && commands[1].detail.None? && commands[2].detail.None?
  {
    hide ExecutionContext.BoundedText;
  }

  lemma PlanningIsWhole(ctx: ExecutionContext, model: ModelCallId, record: ResponseRecord, i: nat)
    requires i < |record.planning|
    ensures Plans(ctx.IngestCommands(model, record)[3 + i], record.planning[i])
  {
    PlanningCommandAt(ctx, model, record, i);
    BoundedTextRoundTrip(ctx, PlanningKey(model, i), record.planning[i], 200);
    hide ExecutionContext.IngestCommands, ExecutionContext.BoundedText, ExecutionContext.Identity;
  }

  lemma RecordShowsNoAnswer(ctx: ExecutionContext, model: ModelCallId, record: ResponseRecord, i: nat)
    requires i < |ctx.IngestCommands(model, record)|
    ensures var c := ctx.IngestCommands(model, record)[i]; c.runId == ctx.runId && ShowsNoAnswer(c, model, record)
  {
    hide ExecutionContext.IngestCommands, Plans;
    RecordsOfResponse(ctx, model, record);
    if i >= 3 {
      PlanningIsWhole(ctx, model, record, i - 3);
    }
  }

  lemma AppendedShowNoAnswer(ctx: ExecutionContext, model: ModelCallId, record: ResponseRecord, base: seq<AppendCommand>, m: nat, n: nat)
    requires m <= n <= |ctx.IngestCommands(model, record)|
    ensures var log := base + ctx.IngestCommands(model, record)[m..n];
      forall j :: |base| <= j < |log| ==> log[j].runId == ctx.runId && ShowsNoAnswer(log[j], model, record)
  {
    hide ExecutionContext.IngestCommands, ShowsNoAnswer;
    var log := base + ctx.IngestCommands(model, record)[m..n];
    forall j | |base| <= j < |log| ensures log[j].runId == ctx.runId && ShowsNoAnswer(log[j], model, record) {
      RecordShowsNoAnswer(ctx, model, record, m + j - |base|);
    }
  }

  lemma RecordedIsHeld(ctx: ExecutionContext, model: ModelCallId, record: ResponseRecord, log: seq<AppendCommand>)
    requires PartlyRecorded(log, ctx.IngestCommands(model, record), |ctx.IngestCommands(model, record)|)
    ensures ResponseHeld(ctx, model, record, log)
  {
    hide ExecutionContext.IngestCommands, Plans, PartlyRecorded;
    var commands := ctx.IngestCommands(model, record);
    RecordsOfResponse(ctx, model, record);
    var p := PlaceOf(log, commands, 0);
    var q := PlaceOf(log, commands, 1);
    var r := PlaceOf(log, commands, 2);
    forall i | 0 <= i < |record.planning| ensures exists k :: 0 <= k < |log| && log[k].runId == ctx.runId && Plans(log[k], record.planning[i]) {
      PlanningIsWhole(ctx, model, record, i);
      var k := PlaceOf(log, commands, 3 + i);
    }
  }

  lemma PlaceOf(log: seq<AppendCommand>, commands: seq<AppendCommand>, i: nat) returns (k: nat)
    requires PartlyRecorded(log, commands, |commands|) && i < |commands|
    ensures k < |log| && log[k] == commands[i]
  {
    RecordedIffInLog(log, commands, commands[i]);
    k :| 0 <= k < |log| && log[k] == commands[i];
  }

  lemma ResponseKeepsLive(log: seq<AppendCommand>, commands: seq<AppendCommand>, m: nat, k: nat, run: RunId)
    requires m <= k <= |commands| && AllOfResponse(commands, run)
    ensures Live(log + commands[m..k], run) <==> Live(log, run)
  {
    ResponseKeepsState(log, commands[m..k], run);
  }

  // ---- The method in lockstep with the schedule ----

  predicate OnlyProceeds(events: seq<Event>) {
    forall e :: e in events ==> e.Proceed? && e.call == 0
  }

  lemma Started(ctx: ExecutionContext, log: seq<AppendCommand>, id: ToolCallId, name: string, arguments: Json, run: ToolRun)
    returns (s: System, rest: seq<Event>)
    ensures s == System(log, [Call(id, name, arguments, Reading, 0)], [])
    ensures rest == [Proceed(0, run.read, run.outcome), Proceed(0, run.intent, run.outcome),
                     Proceed(0, run.start, run.outcome), Proceed(0, run.record, run.outcome), Proceed(0, run.record, run.outcome)]
    ensures OnlyProceeds(rest)
    ensures Run(ctx, System(log, [], []), Schedule(id, name, arguments, run)) == Run(ctx, s, rest)
  {
    var events := Schedule(id, name, arguments, run);
    s, rest := Next(ctx, System(log, [], []), events[0]), events[1..];
    assert rest == [events[1], events[2], events[3], events[4], events[5]];
  }

  lemma Follow(ctx: ExecutionContext, s: System, events: seq<Event>) returns (s': System, rest: seq<Event>)
    requires OnlyProceeds(events) && events != [] && |s.calls| == 1
    ensures var (log', call') := StepCall(ctx, s.log, s.calls[0], events[0].fault, events[0].outcome);
      s' == System(log', [call'], if s.calls[0].phase.Executing? then s.actions + [0] else s.actions)
    ensures rest == events[1..] && OnlyProceeds(rest)
    ensures Run(ctx, s, events) == Run(ctx, s', rest)
  {
    s', rest := Next(ctx, s, events[0]), events[1..];
    var (log', call') := StepCall(ctx, s.log, s.calls[0], events[0].fault, events[0].outcome);
    assert events[0] in events;
    assert s.calls[0 := call'] == [call'];
  }

  lemma {:induction false} FollowReturned(ctx: ExecutionContext, s: System, events: seq<Event>)
    requires OnlyProceeds(events) && |s.calls| == 1 && s.calls[0].phase.Returned?
    ensures Run(ctx, s, events) == s
    decreases |events|
  {
    if events != [] {
      assert events[0] in events;
      assert s.calls[0 := s.calls[0]] == s.calls;
      assert Next(ctx, s, events[0]) == s;
      FollowReturned(ctx, s, events[1..]);
    }
  }

  // ---- A call that nothing disturbs ----

  /** None of the records of a tool call has been written, by any attempt. */
  predicate Untouched(ctx: ExecutionContext, log: seq<AppendCommand>, id: ToolCallId) {
    && (forall k, key :: 0 <= k < |log| && key in {IntentKey(id), StartKey(id), OutcomeKey(id)} ==>
          log[k].eventId != ctx.Identity("event", key.Text()) && log[k].idempotencyKey != ctx.Identity("event", key.Text()))
    && (forall k :: 0 <= k < |log| && log[k].runId == ctx.runId ==>
          match log[k].payload
          case Public(ToolResult(other, _, _)) => other != id
          case Public(ToolOutcomeRecorded(other, _, _, _)) => other != id
          case _ => true)
  }

  /** The next record of a live run, under its own identities, is appended. */
  lemma NextRecord(ctx: ExecutionContext, log: seq<AppendCommand>, key: RecordKey, payload: PublicPayload, detail: Option<string>)
    requires Built(log) && Live(log, ctx.runId) && |log| < MAX_I64
    requires payload.ToolIntent? || payload.ToolStarted? || payload.ToolOutcomeRecorded?
    requires Validate(ctx.Command(key, Public(payload), detail)).Success?
    requires forall k :: 0 <= k < |log| ==>
      !Takes(log[k], ctx.Command(key, Public(payload), detail)) && !ReportsTheSame(log[k], ctx.Command(key, Public(payload), detail))
    ensures var c := ctx.Command(key, Public(payload), detail);
      && SinkCommit(log, c, Delivered) == (log + [c], Some(CommitReceipt(c.eventId, |log| + 1, false)))
      && Built(log + [c]) && Live(log + [c], ctx.runId)
  {
    hide Built, Validate, StateOf, Takes, ReportsTheSame, Commit;
    var c := ctx.Command(key, Public(payload), detail);
    CommitAnswers(log, c, |log|);
    CommitKeepsBuilt(log, c);
    PlanMeans(c, StateOf(log, ctx.runId));
    assert (log + [c])[..|log|] == log;
    LiveStep(log, c);
  }

  lemma LiveStep(log: seq<AppendCommand>, c: AppendCommand)
    requires Live(log, c.runId) && MakePlan(c, StateOf(log, c.runId)).Success?
    requires MakePlan(c, StateOf(log, c.runId)).value.nextState == StateOf(log, c.runId).value
    ensures Live(log + [c], c.runId)
  {
    hide MakePlan;
    assert (log + [c])[..|log|] == log;
  }

  lemma NotTaken(ctx: ExecutionContext, log: seq<AppendCommand>, id: ToolCallId, key: RecordKey, payload: PublicPayload, detail: Option<string>)
    requires Untouched(ctx, log, id) && key in {IntentKey(id), StartKey(id), OutcomeKey(id)}
    requires match payload case ToolIntent(_, _, _) => true case ToolStarted(_) => true case ToolOutcomeRecorded(i, _, _, _) => i == id case _ => false
    ensures forall k :: 0 <= k < |log| ==>
      !Takes(log[k], ctx.Command(key, Public(payload), detail)) && !ReportsTheSame(log[k], ctx.Command(key, Public(payload), detail))
  {
    hide ExecutionContext.Identity, RecordKey.Text;
  }

  lemma SiblingsDiffer(ctx: ExecutionContext, j: RecordKey, k: RecordKey, p: PublicPayload, q: PublicPayload, x: Option<string>, y: Option<string>)
    requires j != k && (p.ToolIntent? || p.ToolStarted?)
    ensures !Takes(ctx.Command(j, Public(p), x), ctx.Command(k, Public(q), y))
    ensures !ReportsTheSame(ctx.Command(j, Public(p), x), ctx.Command(k, Public(q), y))
  {
    EnvelopesInjective(ctx, ctx, j, k, Public(p), Public(q), x, y);
  }

  /** The journal after the three records of a call that has none yet. */
  lemma ThreeRecords(ctx: ExecutionContext, log: seq<AppendCommand>, id: ToolCallId, name: string, arguments: Json, outcome: ToolOutcome)
    requires Built(log) && Live(log, ctx.runId) && |log| + 3 <= MAX_I64 && Untouched(ctx, log, id)
    requires Validate(ctx.IntentCommand(id, name, arguments)).Success? && Validate(ctx.StartCommand(id)).Success?
    requires Validate(ctx.OutcomeCommand(id, outcome)).Success?
    ensures var intent, start, end := ctx.IntentCommand(id, name, arguments), ctx.StartCommand(id), ctx.OutcomeCommand(id, outcome);
      var log1 := log + [intent];
      var log2 := log1 + [start];
      && SinkCommit(log, intent, Delivered) == (log1, Some(CommitReceipt(intent.eventId, |log| + 1, false)))
      && SinkCommit(log1, start, Delivered) == (log2, Some(CommitReceipt(start.eventId, |log| + 2, false)))
      && SinkCommit(log2, end, Delivered) == (log2 + [end], Some(CommitReceipt(end.eventId, |log| + 3, false)))
  {
    hide Built, Live, Validate, SinkCommit, ExecutionContext.Command, Takes, ReportsTheSame, Untouched, ExecutionContext.BoundedText;
    var (text, detail) := ctx.BoundedText(OutcomeKey(id), outcome.text, 8000);
    var intended, ended := ToolIntent(id, name, arguments), ToolOutcomeRecorded(id, text, outcome.transport, outcome.domain);
    NotTaken(ctx, log, id, IntentKey(id), intended, None);
    NotTaken(ctx, log, id, StartKey(id), ToolStarted(id), None);
    NotTaken(ctx, log, id, OutcomeKey(id), ended, detail);
    SiblingsDiffer(ctx, IntentKey(id), StartKey(id), intended, ToolStarted(id), None, None);
    SiblingsDiffer(ctx, IntentKey(id), OutcomeKey(id), intended, ended, None, detail);
    SiblingsDiffer(ctx, StartKey(id), OutcomeKey(id), ToolStarted(id), ended, None, detail);
    NextRecord(ctx, log, IntentKey(id), intended, None);
    NextRecord(ctx, log + [ctx.IntentCommand(id, name, arguments)], StartKey(id), ToolStarted(id), None);
    NextRecord(ctx, log + [ctx.IntentCommand(id, name, arguments)] + [ctx.StartCommand(id)], OutcomeKey(id), ended, detail);
  }

  lemma NothingToRead(ctx: ExecutionContext, log: seq<AppendCommand>, id: ToolCallId)
    requires Untouched(ctx, log, id)
    ensures ReadOutcome(log, ctx.runId, id) == Success(None)
  {
    hide ExecutionContext.Identity, RecordKey.Text;
  }

  /** A call of its own, on a live run, with every step acknowledged: its action runs once, between
      the record of its start and that of its outcome, and it returns the outcome exactly when
      neither its transport nor its domain is unknown; otherwise it is uncertain, and says why. */
  lemma FirstCallRunsOnce(ctx: ExecutionContext, log: seq<AppendCommand>, id: ToolCallId, name: string, arguments: Json, outcome: ToolOutcome)
    requires Built(log) && Live(log, ctx.runId) && |log| + 3 <= MAX_I64 && Untouched(ctx, log, id)
    requires Validate(ctx.IntentCommand(id, name, arguments)).Success? && Validate(ctx.StartCommand(id)).Success?
    requires Validate(ctx.OutcomeCommand(id, outcome)).Success?
    ensures var s := Run(ctx, System(log, [], []), Schedule(id, name, arguments, ToolRun(Delivered, Delivered, Delivered, outcome, Delivered)));
      var known := !outcome.transport.TransportUnknown? && !outcome.domain.DomainUnknown?;
      && |s.calls| == 1 && s.actions == [0]
      && s.calls[0].phase == Returned(if known then Success(outcome) else Failure(Uncertain(outcome.text)))
      && |s.log| == |log| + 3 && log <= s.log
      && (forall k :: |log| <= k < |s.log| ==> s.log[k].runId == ctx.runId && s.log[k].conversationId == ctx.conversationId)
      && s.log[|log|].payload == Public(ToolIntent(id, name, arguments))
      && s.log[|log| + 1].payload == Public(ToolStarted(id))
      && s.log[|log| + 2] == ctx.OutcomeCommand(id, outcome)
  {
    hide Untouched, Built, Live, Validate, SinkCommit, ReadOutcome, Run, Schedule, ExecutionContext.IntentCommand,
      ExecutionContext.StartCommand, ExecutionContext.OutcomeCommand, Settle;
    NothingToRead(ctx, log, id);
    ThreeRecords(ctx, log, id, name, arguments, outcome);
    CallIsRecorded(ctx, id, name, arguments);
    StepsOfCall(ctx, log, id, name, arguments, outcome);
    OutcomeIsRecorded(ctx, id, outcome);
    SettleMeans(outcome);
  }

  lemma SettleMeans(outcome: ToolOutcome)
    ensures Settle(outcome)
      == if !outcome.transport.TransportUnknown? && !outcome.domain.DomainUnknown? then Success(outcome)
         else Failure(Uncertain(outcome.text))
  {
  }

  /** The schedule of a call whose three records are appended one after the other. */
  lemma StepsOfCall(ctx: ExecutionContext, log: seq<AppendCommand>, id: ToolCallId, name: string, arguments: Json, outcome: ToolOutcome)
    requires ReadOutcome(log, ctx.runId, id) == Success(None)
    requires var intent, start, end := ctx.IntentCommand(id, name, arguments), ctx.StartCommand(id), ctx.OutcomeCommand(id, outcome);
      var log1 := log + [intent];
      var log2 := log1 + [start];
      && SinkCommit(log, intent, Delivered) == (log1, Some(CommitReceipt(intent.eventId, |log| + 1, false)))
      && SinkCommit(log1, start, Delivered) == (log2, Some(CommitReceipt(start.eventId, |log| + 2, false)))
      && SinkCommit(log2, end, Delivered) == (log2 + [end], Some(CommitReceipt(end.eventId, |log| + 3, false)))
    ensures Run(ctx, System(log, [], []), Schedule(id, name, arguments, ToolRun(Delivered, Delivered, Delivered, outcome, Delivered)))
      == System(log + [ctx.IntentCommand(id, name, arguments)] + [ctx.StartCommand(id)] + [ctx.OutcomeCommand(id, outcome)],
                [Call(id, name, arguments, Returned(Settle(outcome)), |log| + 2)], [0])
  {
    hide SinkCommit, ReadOutcome, Run, Schedule, Settle, ExecutionContext.IntentCommand, ExecutionContext.StartCommand,
      ExecutionContext.OutcomeCommand;
    var log1 := log + [ctx.IntentCommand(id, name, arguments)];
    var log2 := log1 + [ctx.StartCommand(id)];
    var s0, rest0 := Started(ctx, log, id, name, arguments, ToolRun(Delivered, Delivered, Delivered, outcome, Delivered));
    var s1, rest1 := Follow(ctx, s0, rest0);
    assert s1 == System(log, [Call(id, name, arguments, Intending, 0)], []);
    var s2, rest2 := Follow(ctx, s1, rest1);
    assert s2 == System(log1, [Call(id, name, arguments, Starting, 0)], []);
    var s3, rest3 := Follow(ctx, s2, rest2);
    assert s3 == System(log2, [Call(id, name, arguments, Executing, |log2|)], []);
    var s4, rest4 := Follow(ctx, s3, rest3);
    assert s4 == System(log2, [Call(id, name, arguments, Recording(outcome), |log2|)], [0]);
    var s5, rest5 := Follow(ctx, s4, rest4);
    FollowReturned(ctx, s5, rest5);
  }

  /** What the records before an action say. */
  lemma CallIsRecorded(ctx: ExecutionContext, id: ToolCallId, name: string, arguments: Json)
    ensures forall c :: c == ctx.IntentCommand(id, name, arguments) || c == ctx.StartCommand(id) ==>
      c.runId == ctx.runId && c.conversationId == ctx.conversationId && c.detail.None?
    ensures ctx.IntentCommand(id, name, arguments).payload == Public(ToolIntent(id, name, arguments))
    ensures ctx.StartCommand(id).payload == Public(ToolStarted(id))
  {
  }

  /** What the record of an outcome says: the call, its transport and domain, and its whole text,
      as a detail once it is longer than 8000 characters. */
  lemma OutcomeIsRecorded(ctx: ExecutionContext, id: ToolCallId, outcome: ToolOutcome)
    ensures var c := ctx.OutcomeCommand(id, outcome);
      && c.runId == ctx.runId && c.conversationId == ctx.conversationId
      && c.payload.Public? && c.payload.public.ToolOutcomeRecorded?
      && var p := c.payload.public;
      && p.toolCallId == id && p.transport == outcome.transport && p.domain == outcome.domain
      && (c.detail.Some? <==> |outcome.text| > 8000) && (p.text.detail.Some? <==> c.detail.Some?)
      && (match c.detail case Some(body) => body == outcome.text case None => p.text.preview == outcome.text)
  {
  }
}
