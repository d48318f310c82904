/** Any number of `tool` calls, first and retried, interleaved step by step over one journal.
    A call may crash between any two steps, a commit may fail or take effect and lose its
    acknowledgement, and other writers may commit whatever the journal accepts. */
module ToolFence {
  import opened JsonText
  import opened Wrappers
  import opened Protocol
  import opened Journal
  import opened Execution

  /** What the environment does to one awaited store operation. */
  datatype Fault = Delivered | FailedBefore | LostAcknowledgement

  function SinkCommit(log: seq<AppendCommand>, c: AppendCommand, fault: Fault): (seq<AppendCommand>, Option<CommitReceipt>) {
    match Commit(log, c)
    case Failure(_) => (log, None)
    case Success((log', receipt)) =>
      match fault
      case FailedBefore => (log, None)
      case LostAcknowledgement => (log', None)
      case Delivered => (log', Some(receipt))
  }

  /** A commit takes effect unless it failed before, and its acknowledgement arrives only when it is
      delivered. */
  lemma SinkCommitWrites(log: seq<AppendCommand>, c: AppendCommand, fault: Fault)
    ensures SinkCommit(log, c, fault).0 == if !fault.FailedBefore? && Appended(log, c) then log + [c] else log
    ensures SinkCommit(log, c, fault).1.Some? <==> fault.Delivered? && Commit(log, c).Success?
  {
    hide Validate, MakePlan, StateOf;
  }

  /** The committed outcome of a tool call; a receipt of another kind is an error. */
  function ReadOutcome(log: seq<AppendCommand>, run: RunId, id: ToolCallId): Result<Option<ToolOutcome>, ExecutionError> {
    match FindReceipt(log, run, ToolKey(id))
    case None => Success(None)
    case Some(i) =>
      match log[i].payload
      case Public(ToolOutcomeRecorded(_, text, transport, domain)) =>
        Success(Some(ToolOutcome(transport, domain, FullText(text, log[i].detail))))
      case _ => Failure(Persistence)
  }

  function Settle(outcome: ToolOutcome): Result<ToolOutcome, ExecutionError> {
    if outcome.IsUnknown() then Failure(Uncertain(outcome.text)) else Success(outcome)
  }

  // ---- One call ----

  datatype Phase =
    | Reading
    | Intending
    | Starting
    | Executing
    | Recording(outcome: ToolOutcome)
    | Returned(result: Result<ToolOutcome, ExecutionError>)
    | Crashed

  /** `start` is the sequence of the start record this call appended, 0 when it appended none. */
  datatype Call = Call(id: ToolCallId, name: string, arguments: Json, phase: Phase, start: nat)

  const START_COMMITTED: string := "tool start already committed; reconcile its receipt instead of rerunning"

  function StepCall(ctx: ExecutionContext, log: seq<AppendCommand>, call: Call, fault: Fault, outcome: ToolOutcome)
    : (seq<AppendCommand>, Call)
  {
    match call.phase
    case Reading =>
      (log, call.(phase :=
        if !fault.Delivered? then Returned(Failure(Persistence))
        else
          match ReadOutcome(log, ctx.runId, call.id)
          case Failure(error) => Returned(Failure(error))
          case Success(None) => Intending
          case Success(Some(committed)) => Returned(Settle(committed))))
    case Intending =>
      var (log', receipt) := SinkCommit(log, ctx.IntentCommand(call.id, call.name, call.arguments), fault);
      (log', call.(phase := if receipt.None? then Returned(Failure(Persistence)) else Starting))
    case Starting =>
      var (log', receipt) := SinkCommit(log, ctx.StartCommand(call.id), fault);
      if receipt.None? then (log', call.(phase := Returned(Failure(Persistence))))
      else if receipt.value.duplicate then
        (log', call.(phase := Returned(Failure(Uncertain(START_COMMITTED)))))
      else (log', call.(phase := Executing, start := |log'|))
    case Executing => (log, call.(phase := Recording(outcome)))
    case Recording(result) =>
      var (log', receipt) := SinkCommit(log, ctx.OutcomeCommand(call.id, result), fault);
      (log', call.(phase := Returned(if receipt.None? then Failure(Uncertain("")) else Settle(result))))
    case _ => (log, call)
  }

  // ---- The system ----

  /** `actions` lists the calls that ran their action, in the order they ran it. */
  datatype System = System(log: seq<AppendCommand>, calls: seq<Call>, actions: seq<nat>)

  datatype Event =
    | Invoke(id: ToolCallId, name: string, arguments: Json)
    | Proceed(call: nat, fault: Fault, outcome: ToolOutcome)
    | Crash(call: nat)
    | External(command: AppendCommand)

  function Next(ctx: ExecutionContext, s: System, e: Event): System {
    match e
    case Invoke(id, name, arguments) => s.(calls := s.calls + [Call(id, name, arguments, Reading, 0)])
    case Proceed(i, fault, outcome) =>
      if i >= |s.calls| then s
      else
        var (log', call') := StepCall(ctx, s.log, s.calls[i], fault, outcome);
        System(log', s.calls[i := call'], if s.calls[i].phase.Executing? then s.actions + [i] else s.actions)
    case Crash(i) =>
      if i >= |s.calls| || s.calls[i].phase.Returned? then s
      else s.(calls := s.calls[i := s.calls[i].(phase := Crashed)])
    case External(command) => s.(log := SinkCommit(s.log, command, Delivered).0)
  }

  function Run(ctx: ExecutionContext, s: System, events: seq<Event>): System
    decreases |events|
  {
    if events == [] then s else Run(ctx, Next(ctx, s, events[0]), events[1..])
  }

  // ---- Invariant ----

  /** The journal has a record of the run with this payload. */
  predicate Holds(ctx: ExecutionContext, log: seq<AppendCommand>, payload: PublicPayload) {
    exists k :: 0 <= k < |log| && log[k].runId == ctx.runId && log[k].payload == Public(payload)
  }

  lemma HoldsStays(ctx: ExecutionContext, log: seq<AppendCommand>, log': seq<AppendCommand>, payload: PublicPayload)
    requires log <= log' && Holds(ctx, log, payload)
    ensures Holds(ctx, log', payload)
  {
    var k :| 0 <= k < |log| && log[k].runId == ctx.runId && log[k].payload == Public(payload);
    assert log'[k] == log[k];
  }

  predicate Intended(ctx: ExecutionContext, log: seq<AppendCommand>, call: Call) {
    Holds(ctx, log, ToolIntent(call.id, call.name, call.arguments))
  }

  /** Neither the transport nor the domain of an outcome is unknown. */
  predicate Known(outcome: ToolOutcome) {
    && (outcome.transport == TransportCompleted || outcome.transport == TransportFailed)
    && (outcome.domain == Succeeded || outcome.domain == Rejected)
  }

  /** The start record a call appended is in the journal. */
  predicate Fenced(ctx: ExecutionContext, log: seq<AppendCommand>, call: Call) {
    1 <= call.start <= |log| && log[call.start - 1] == ctx.StartCommand(call.id)
  }

  predicate CallOk(ctx: ExecutionContext, log: seq<AppendCommand>, call: Call) {
    && (call.start > 0 ==> Fenced(ctx, log, call) && Intended(ctx, log, call))
    && (call.phase.Starting? ==> Intended(ctx, log, call))
    && (call.phase.Executing? || call.phase.Recording? ==> call.start > 0)
    && (call.phase.Reading? || call.phase.Intending? || call.phase.Starting? ==> call.start == 0)
    && (call.phase.Returned? && call.phase.result.Success? ==>
          && ReadOutcome(log, ctx.runId, call.id) == Success(Some(call.phase.result.value))
          && Known(call.phase.result.value))
    && (call.phase.Returned? && call.phase.result == Failure(Persistence) ==> call.start == 0)
  }

  predicate HasRun(call: Call) {
    call.start > 0 && !call.phase.Executing?
  }

  ghost predicate Inv(ctx: ExecutionContext, s: System) {
    && Built(s.log)
    && (forall i :: 0 <= i < |s.calls| ==> CallOk(ctx, s.log, s.calls[i]))
    && (forall i, j :: 0 <= i < j < |s.calls| && s.calls[i].start == s.calls[j].start ==> s.calls[i].start == 0)
    && (forall a :: 0 <= a < |s.actions| ==> s.actions[a] < |s.calls| && HasRun(s.calls[s.actions[a]]))
    && (forall a, b :: 0 <= a < b < |s.actions| ==> s.actions[a] != s.actions[b])
  }

  lemma SinkCommitFacts(log: seq<AppendCommand>, c: AppendCommand, fault: Fault)
    requires Built(log)
    ensures var (log', receipt) := SinkCommit(log, c, fault);
      && Built(log') && log <= log'
      && (receipt.Some? ==>
            && (!receipt.value.duplicate ==> log' == log + [c])
            && exists k :: 0 <= k < |log'| && SameContent(log'[k], c))
  {
    CommitKeepsBuilt(log, c);
    var (log', receipt) := SinkCommit(log, c, fault);
    if receipt.Some? {
      assert SameContent(log'[receipt.value.sequence - 1], c);
    }
  }

  predicate SameContent(a: AppendCommand, c: AppendCommand) {
    a.runId == c.runId && a.payload == c.payload && a.detail == c.detail
  }

  lemma {:induction false} FindReceiptStable(log: seq<AppendCommand>, log': seq<AppendCommand>, run: RunId, key: ReceiptKey)
    requires log <= log' && FindReceipt(log, run, key).Some?
    ensures FindReceipt(log', run, key) == FindReceipt(log, run, key)
  {
    if log != log' {
      var n := |log'| - 1;
      assert log <= log'[..n];
      FindReceiptStable(log, log'[..n], run, key);
    } else {
      assert log == log';
    }
  }

  lemma CallStaysOk(ctx: ExecutionContext, log: seq<AppendCommand>, log': seq<AppendCommand>, call: Call)
    requires log <= log' && CallOk(ctx, log, call)
    ensures CallOk(ctx, log', call)
  {
    if call.phase.Returned? && call.phase.result.Success? {
      FindReceiptStable(log, log', ctx.runId, ToolKey(call.id));
    }
    if Intended(ctx, log, call) {
      HoldsStays(ctx, log, log', ToolIntent(call.id, call.name, call.arguments));
    }
  }

  /** An acknowledged outcome record is what every later read of the outcome returns. */
  lemma RecordedOutcomeIsRead(ctx: ExecutionContext, log: seq<AppendCommand>, id: ToolCallId, outcome: ToolOutcome, k: nat)
    requires Built(log) && k < |log| && SameContent(log[k], ctx.OutcomeCommand(id, outcome))
    ensures ReadOutcome(log, ctx.runId, id) == Success(Some(outcome))
  {
    assert HasReceipt(log[k], ctx.runId, ToolKey(id));
    var i := FindReceipt(log, ctx.runId, ToolKey(id)).value;
    if i != k {
      BuiltUnique(log, i, k);
    }
    BoundedTextRoundTrip(ctx, OutcomeKey(id), outcome.text, 8000);
  }

  /** What one step may do to the journal and to its call. */
  predicate StepOk(ctx: ExecutionContext, log: seq<AppendCommand>, call: Call, log': seq<AppendCommand>, call': Call) {
    && log <= log'
    && CallOk(ctx, log', call')
    && call'.id == call.id && call'.name == call.name && call'.arguments == call.arguments
    && (call'.start == call.start || (call.start == 0 && call'.start == |log'| == |log| + 1))
    && (HasRun(call') <==> HasRun(call) || call.phase.Executing?)
  }

  lemma StartStepOk(ctx: ExecutionContext, log: seq<AppendCommand>, call: Call, fault: Fault, outcome: ToolOutcome)
    requires Built(log) && CallOk(ctx, log, call) && call.phase.Starting?
    ensures var (log', call') := StepCall(ctx, log, call, fault, outcome); Built(log') && StepOk(ctx, log, call, log', call')
  {
    hide Built, SinkCommit, ExecutionContext.Command, ReadOutcome, Holds;
    var c := ctx.StartCommand(call.id);
    SinkCommitFacts(log, c, fault);
    var r := SinkCommit(log, c, fault);
    assert StepCall(ctx, log, call, fault, outcome).0 == r.0;
    HoldsStays(ctx, log, r.0, ToolIntent(call.id, call.name, call.arguments));
  }

  lemma IntendStepOk(ctx: ExecutionContext, log: seq<AppendCommand>, call: Call, fault: Fault, outcome: ToolOutcome)
    requires Built(log) && CallOk(ctx, log, call) && call.phase.Intending?
    ensures var (log', call') := StepCall(ctx, log, call, fault, outcome); Built(log') && StepOk(ctx, log, call, log', call')
  {
    hide ReadOutcome, Built, SinkCommit, ExecutionContext.IntentCommand, Holds, SameContent;
    var c := ctx.IntentCommand(call.id, call.name, call.arguments);
    SinkCommitFacts(log, c, fault);
    var (log', receipt) := SinkCommit(log, c, fault);
    if receipt.Some? {
      var k :| 0 <= k < |log'| && SameContent(log'[k], c);
      IntentIsHeld(ctx, log', call, k);
    }
  }

  lemma IntentIsHeld(ctx: ExecutionContext, log: seq<AppendCommand>, call: Call, k: nat)
    requires k < |log| && SameContent(log[k], ctx.IntentCommand(call.id, call.name, call.arguments))
    ensures Intended(ctx, log, call)
  {
    assert log[k].payload == Public(ToolIntent(call.id, call.name, call.arguments));
  }

  lemma RecordStepOk(ctx: ExecutionContext, log: seq<AppendCommand>, call: Call, fault: Fault, outcome: ToolOutcome)
    requires Built(log) && CallOk(ctx, log, call) && call.phase.Recording?
    ensures var (log', call') := StepCall(ctx, log, call, fault, outcome); Built(log') && StepOk(ctx, log, call, log', call')
  {
    hide ExecutionContext.Command, SinkCommit, Built, ReadOutcome;
    var result := call.phase.outcome;
    var c := ctx.OutcomeCommand(call.id, result);
    SinkCommitFacts(log, c, fault);
    var r := SinkCommit(log, c, fault);
    var (log', call') := StepCall(ctx, log, call, fault, outcome);
    assert log' == r.0;
    if call'.phase.result.Success? {
      var k :| 0 <= k < |log'| && SameContent(log'[k], c);
      RecordedOutcomeIsRead(ctx, log', call.id, result, k);
    }
    CallStaysOk(ctx, log, log', call);
  }

  lemma StepCallOk(ctx: ExecutionContext, log: seq<AppendCommand>, call: Call, fault: Fault, outcome: ToolOutcome)
    requires Built(log) && CallOk(ctx, log, call)
    ensures var (log', call') := StepCall(ctx, log, call, fault, outcome); Built(log') && StepOk(ctx, log, call, log', call')
  {
    match call.phase
    case Intending => IntendStepOk(ctx, log, call, fault, outcome);
    case Starting => StartStepOk(ctx, log, call, fault, outcome);
    case Recording(_) => RecordStepOk(ctx, log, call, fault, outcome);
    case _ =>
  }

  lemma ProceedKeepsInv(ctx: ExecutionContext, s: System, i: nat, log': seq<AppendCommand>, call': Call)
    requires Inv(ctx, s) && i < |s.calls|
    requires Built(log') && StepOk(ctx, s.log, s.calls[i], log', call')
    ensures Inv(ctx, System(log', s.calls[i := call'], if s.calls[i].phase.Executing? then s.actions + [i] else s.actions))
  {
    hide CallOk, Built;
    StartFollowsPhase(ctx, log', call');
    forall j | 0 <= j < |s.calls| && j != i ensures CallOk(ctx, log', s.calls[j]) {
      CallStaysOk(ctx, s.log, log', s.calls[j]);
    }
    forall j | 0 <= j < |s.calls| ensures s.calls[j].start <= |s.log| {
      StartFollowsPhase(ctx, s.log, s.calls[j]);
    }
  }

  lemma StartFollowsPhase(ctx: ExecutionContext, log: seq<AppendCommand>, call: Call)
    requires CallOk(ctx, log, call)
    ensures call.start <= |log|
    ensures call.phase.Executing? || call.phase.Recording? ==> call.start > 0
  {
  }

  lemma ExternalKeepsInv(ctx: ExecutionContext, s: System, log': seq<AppendCommand>)
    requires Inv(ctx, s) && Built(log') && s.log <= log'
    ensures Inv(ctx, s.(log := log'))
  {
    forall j | 0 <= j < |s.calls| ensures CallOk(ctx, log', s.calls[j]) {
      CallStaysOk(ctx, s.log, log', s.calls[j]);
    }
  }

  lemma InvokeKeepsInv(ctx: ExecutionContext, s: System, call: Call)
    requires Inv(ctx, s) && call.phase.Reading? && call.start == 0
    ensures Inv(ctx, s.(calls := s.calls + [call]))
  {
  }

  lemma CrashKeepsInv(ctx: ExecutionContext, s: System, i: nat)
    requires Inv(ctx, s) && i < |s.calls| && !s.calls[i].phase.Returned?
    ensures Inv(ctx, s.(calls := s.calls[i := s.calls[i].(phase := Crashed)]))
  {
    hide ExecutionContext.Command, ReadOutcome;
  }

  lemma NextKeepsInv(ctx: ExecutionContext, s: System, e: Event)
    requires Inv(ctx, s)
    ensures Inv(ctx, Next(ctx, s, e))
    ensures s.log <= Next(ctx, s, e).log
  {
    match e
    case Invoke(id, name, arguments) => InvokeKeepsInv(ctx, s, Call(id, name, arguments, Reading, 0));
    case Proceed(i, fault, outcome) =>
      if i < |s.calls| {
        var (log', call') := StepCall(ctx, s.log, s.calls[i], fault, outcome);
        StepCallOk(ctx, s.log, s.calls[i], fault, outcome);
        ProceedKeepsInv(ctx, s, i, log', call');
      }
    case Crash(i) =>
      if i < |s.calls| && !s.calls[i].phase.Returned? {
        CrashKeepsInv(ctx, s, i);
      }
    case External(command) =>
      SinkCommitFacts(s.log, command, Delivered);
      ExternalKeepsInv(ctx, s, SinkCommit(s.log, command, Delivered).0);
  }

  lemma {:induction false} RunKeepsInv(ctx: ExecutionContext, s: System, events: seq<Event>)
    requires Inv(ctx, s)
    ensures Inv(ctx, Run(ctx, s, events))
    ensures s.log <= Run(ctx, s, events).log
    decreases |events|
  {
    if events != [] {
      NextKeepsInv(ctx, s, events[0]);
      RunKeepsInv(ctx, Next(ctx, s, events[0]), events[1..]);
    }
  }

  // ---- Main results ----

  /** However the calls are interleaved, retried and interrupted: the action of a tool call id
      runs at most once, and only with its intent, by name and arguments, and its start in the
      journal. */
  lemma ToolRunsAtMostOnce(ctx: ExecutionContext, log: seq<AppendCommand>, events: seq<Event>)
    requires Built(log)
    ensures var s := Run(ctx, System(log, [], []), events);
      && (forall a :: 0 <= a < |s.actions| ==>
            && s.actions[a] < |s.calls|
            && var call := s.calls[s.actions[a]];
            Holds(ctx, s.log, ToolStarted(call.id)) && Holds(ctx, s.log, ToolIntent(call.id, call.name, call.arguments)))
      && (forall a, b :: 0 <= a < b < |s.actions| ==> s.calls[s.actions[a]].id != s.calls[s.actions[b]].id)
  {
    hide Inv, Run, Holds;
    RunKeepsInv(ctx, System(log, [], []), events) by {
      StartInv(ctx, log);
    }
    var s := Run(ctx, System(log, [], []), events);
    forall a | 0 <= a < |s.actions|
      ensures s.actions[a] < |s.calls|
      ensures var call := s.calls[s.actions[a]];
        Holds(ctx, s.log, ToolStarted(call.id)) && Holds(ctx, s.log, ToolIntent(call.id, call.name, call.arguments))
    {
      ActionIsRecorded(ctx, s, a);
    }
    forall a, b | 0 <= a < b < |s.actions| ensures s.calls[s.actions[a]].id != s.calls[s.actions[b]].id {
      ActionsDiffer(ctx, s, a, b);
    }
  }

  lemma StartInv(ctx: ExecutionContext, log: seq<AppendCommand>)
    requires Built(log)
    ensures Inv(ctx, System(log, [], []))
  {
  }

  lemma ActionIsRecorded(ctx: ExecutionContext, s: System, a: nat)
    requires Inv(ctx, s) && a < |s.actions|
    ensures s.actions[a] < |s.calls|
    ensures var call := s.calls[s.actions[a]];
      Fenced(ctx, s.log, call) && Holds(ctx, s.log, ToolStarted(call.id)) && Intended(ctx, s.log, call)
  {
    hide Built, ReadOutcome, ExecutionContext.Command, Holds;
    var call := s.calls[s.actions[a]];
    assert CallOk(ctx, s.log, call);
    StartIsHeld(ctx, s.log, call);
  }

  lemma ActionsDiffer(ctx: ExecutionContext, s: System, a: nat, b: nat)
    requires Inv(ctx, s) && a < b < |s.actions|
    ensures s.actions[a] < |s.calls| && s.actions[b] < |s.calls|
    ensures s.calls[s.actions[a]].id != s.calls[s.actions[b]].id
  {
    hide CallOk, Built, Holds, Intended, ReportsTheSame, ExecutionContext.StartCommand;
    ActionIsRecorded(ctx, s, a);
    ActionIsRecorded(ctx, s, b);
    var p, q := s.calls[s.actions[a]], s.calls[s.actions[b]];
    assert p.start != q.start;
    BuiltUnique(s.log, p.start - 1, q.start - 1);
  }

  lemma StartIsHeld(ctx: ExecutionContext, log: seq<AppendCommand>, call: Call)
    requires Fenced(ctx, log, call)
    ensures Holds(ctx, log, ToolStarted(call.id))
  {
    assert log[call.start - 1].payload == Public(ToolStarted(call.id));
  }

  /** A call about to run its action has its intent and its start committed, and no call of the
      same id has run or is about to run. */
  lemma ActionIsFenced(ctx: ExecutionContext, log: seq<AppendCommand>, events: seq<Event>, i: nat)
    requires Built(log)
    requires var s := Run(ctx, System(log, [], []), events); i < |s.calls| && s.calls[i].phase.Executing?
    ensures var s := Run(ctx, System(log, [], []), events);
      && var call := s.calls[i];
      && Holds(ctx, s.log, ToolStarted(call.id)) && Holds(ctx, s.log, ToolIntent(call.id, call.name, call.arguments))
      && forall j :: 0 <= j < |s.calls| && j != i && s.calls[j].id == s.calls[i].id ==> s.calls[j].start == 0
  {
    RunKeepsInv(ctx, System(log, [], []), events);
    ExecutingIsFenced(ctx, Run(ctx, System(log, [], []), events), i);
  }

  lemma ExecutingIsFenced(ctx: ExecutionContext, s: System, i: nat)
    requires Inv(ctx, s) && i < |s.calls| && s.calls[i].phase.Executing?
    ensures Holds(ctx, s.log, ToolStarted(s.calls[i].id)) && Intended(ctx, s.log, s.calls[i])
    ensures forall j :: 0 <= j < |s.calls| && j != i && s.calls[j].id == s.calls[i].id ==> s.calls[j].start == 0
  {
    hide ExecutionContext.Command, ExecutionContext.StartCommand, ReadOutcome, Built, Holds;
    StartIsHeld(ctx, s.log, s.calls[i]);
    forall j | 0 <= j < |s.calls| && j != i && s.calls[j].id == s.calls[i].id ensures s.calls[j].start == 0 {
      if s.calls[j].start > 0 {
        assert Fenced(ctx, s.log, s.calls[i]) && Fenced(ctx, s.log, s.calls[j]);
        BuiltUnique(s.log, s.calls[i].start - 1, s.calls[j].start - 1);
      }
    }
  }

  /** Every returned outcome is the one the journal holds for the call, now and ever after, and
      neither its transport nor its domain is unknown; two calls of one id that both return Ok return the same outcome. */
  lemma ReturnedOutcomeIsDurable(ctx: ExecutionContext, log: seq<AppendCommand>, events: seq<Event>, later: seq<Event>, i: nat)
    requires Built(log)
    requires var s := Run(ctx, System(log, [], []), events);
      i < |s.calls| && s.calls[i].phase.Returned? && s.calls[i].phase.result.Success?
    ensures var s := Run(ctx, System(log, [], []), events);
      var outcome := s.calls[i].phase.result.value;
      && !outcome.transport.TransportUnknown? && !outcome.domain.DomainUnknown?
      && ReadOutcome(Run(ctx, s, later).log, ctx.runId, s.calls[i].id) == Success(Some(outcome))
  {
    RunKeepsInv(ctx, System(log, [], []), events);
    var s := Run(ctx, System(log, [], []), events);
    RunKeepsInv(ctx, s, later);
    assert CallOk(ctx, s.log, s.calls[i]);
    FindReceiptStable(s.log, Run(ctx, s, later).log, ctx.runId, ToolKey(s.calls[i].id));
  }

  /** A failure for the store's sake means that the action did not run. */
  lemma PersistenceMeansNotRun(ctx: ExecutionContext, log: seq<AppendCommand>, events: seq<Event>, i: nat)
    requires Built(log)
    requires var s := Run(ctx, System(log, [], []), events);
      i < |s.calls| && s.calls[i].phase == Returned(Failure(Persistence))
    ensures i !in Run(ctx, System(log, [], []), events).actions
  {
    RunKeepsInv(ctx, System(log, [], []), events);
    assert CallOk(ctx, Run(ctx, System(log, [], []), events).log, Run(ctx, System(log, [], []), events).calls[i]);
  }

  /** A call whose outcome is in the journal runs nothing: it returns that outcome, text included,
      exactly when neither its transport nor its domain is unknown, and is uncertain otherwise. */
  lemma CommittedOutcomeIsReturned(ctx: ExecutionContext, log: seq<AppendCommand>, call: Call, k: nat, text: Text,
                                   transport: TransportOutcome, domain: DomainOutcome, outcome: ToolOutcome)
    requires Built(log) && call.phase.Reading?
    requires k < |log| && log[k].runId == ctx.runId && log[k].payload == Public(ToolOutcomeRecorded(call.id, text, transport, domain))
    ensures var body := match log[k].detail case Some(detail) => detail case None => text.preview;
      var known := !transport.TransportUnknown? && !domain.DomainUnknown?;
      StepCall(ctx, log, call, Delivered, outcome)
        == (log, call.(phase := Returned(if known then Success(ToolOutcome(transport, domain, body)) else Failure(Uncertain(body)))))
  {
    assert HasReceipt(log[k], ctx.runId, ToolKey(call.id));
    var i := FindReceipt(log, ctx.runId, ToolKey(call.id)).value;
    if i != k {
      BuiltUnique(log, i, k);
    }
  }

  /** What another writer commits joins the journal when the journal takes it, and a call may stop
      anywhere before it returns. */
  lemma OthersWrite(ctx: ExecutionContext, s: System, c: AppendCommand, i: nat)
    ensures i < |s.calls| && !s.calls[i].phase.Returned? ==>
      Next(ctx, s, Crash(i)) == s.(calls := s.calls[i := s.calls[i].(phase := Crashed)])
    ensures Next(ctx, s, External(c)) == s.(log := if Appended(s.log, c) then s.log + [c] else s.log)
  {
    hide SinkCommit, Appended;
    SinkCommitWrites(s.log, c, Delivered);
  }

  /** A receipt that is not an outcome is an error of the store. */
  lemma OtherReceiptIsAnError(ctx: ExecutionContext, log: seq<AppendCommand>, call: Call, k: nat, text: Text, succeeded: bool, outcome: ToolOutcome)
    requires Built(log) && call.phase.Reading?
    requires k < |log| && log[k].runId == ctx.runId && log[k].payload == Public(ToolResult(call.id, text, succeeded))
    ensures StepCall(ctx, log, call, Delivered, outcome) == (log, call.(phase := Returned(Failure(Persistence))))
  {
    assert HasReceipt(log[k], ctx.runId, ToolKey(call.id));
    var i := FindReceipt(log, ctx.runId, ToolKey(call.id)).value;
    if i != k {
      BuiltUnique(log, i, k);
    }
  }

  /** A call is uncertain when its action may have run: another one appended the start of its id, or
      the record of its outcome is not acknowledged. */
  lemma UncertainWhenItMayHaveRun(ctx: ExecutionContext, log: seq<AppendCommand>, call: Call, k: nat, fault: Fault, outcome: ToolOutcome)
    requires Built(log)
    ensures call.phase.Starting? && k < |log| && log[k] == ctx.StartCommand(call.id) ==>
      StepCall(ctx, log, call, Delivered, outcome) == (log, call.(phase := Returned(Failure(Uncertain(START_COMMITTED)))))
    ensures call.phase.Recording? && fault != Delivered ==>
      var call' := StepCall(ctx, log, call, fault, outcome).1;
      call'.phase.Returned? && call'.phase.result.Failure? && call'.phase.result.error.Uncertain?
  {
    hide ExecutionContext.StartCommand, ExecutionContext.OutcomeCommand, Validate;
    if call.phase.Starting? && k < |log| && log[k] == ctx.StartCommand(call.id) {
      BuiltRecord(log, k);
      Deduplication(log, k, ctx.StartCommand(call.id));
    }
  }
}
