/** What the lifecycle transactions leave in the journal, record by record. */
module TransactionRecords {
  import opened JsonText
  import opened Wrappers
  import opened Protocol
  import opened Journal
  import opened Lifecycle
  import opened Workspace
  import opened LifecycleJournal

  ghost predicate Recorded(log: Log, run: RunId, payload: PublicPayload) {
    exists k :: 0 <= k < |log| && log[k].runId == run && log[k].payload == Public(payload)
  }

  /** The ending of a run, under its kind and with its whole text. */
  ghost predicate EndingRecorded(log: Log, run: RunId, state: RunState, p: Projection) {
    exists k :: 0 <= k < |log| && log[k].runId == run && IsEnding(log[k], state, p)
  }

  predicate IsEnding(c: AppendCommand, state: RunState, p: Projection) {
    && c.payload.Public?
    && match c.payload.public
       case ApprovedAnswer(id, text) => state.Completed? && id == p.messageId && Whole(text, c.detail, p.content)
       case FailedEvent(text) => state.Failed? && Whole(text, c.detail, p.content)
       case InterruptedEvent(text) => state.Interrupted? && Whole(text, c.detail, p.content)
       case CancelledEvent => state.Cancelled?
       case _ => false
  }

  /** A text carries a content whole, in a detail once it is longer than 8000 characters. */
  predicate Whole(text: Text, detail: Option<string>, content: string) {
    match detail
    case Some(body) => body == content && |content| > 8000 && text.detail.Some?
    case None => text == Text(content, None) && |content| <= 8000
  }

  /** The outcome of a call is recorded as unknown, on both its sides. */
  ghost predicate GivenUp(log: Log, run: RunId, tool: ToolCallId) {
    exists k :: 0 <= k < |log| && log[k].runId == run && IsUnknownOutcome(log[k], tool)
  }

  predicate IsUnknownOutcome(c: AppendCommand, tool: ToolCallId) {
    && c.payload.Public? && c.payload.public.ToolOutcomeRecorded? && c.payload.public.toolCallId == tool
    && c.payload.public.transport.TransportUnknown? && c.payload.public.domain.DomainUnknown?
  }

  /** A committed record is in the journal. */
  lemma Committed(log: Log, c: AppendCommand) returns (k: nat)
    requires Built(log) && CommitOne(log, c).Some?
    ensures var log' := CommitOne(log, c).value;
      && Built(log') && log <= log'
      && k < |log'| && log'[k].runId == c.runId && log'[k].payload == c.payload && log'[k].detail == c.detail
  {
    CommitKeepsBuilt(log, c);
    k := Commit(log, c).value.1.sequence - 1;
  }

  lemma UnknownOutcomeIsUnknown(conversation: ConversationId, run: RunId, tool: ToolCallId, ids: Ids)
    ensures var c := UnknownOutcome(conversation, run, tool, ids);
      c.runId == run && IsUnknownOutcome(c, tool) && ReceiptKeyOf(c) == Some(ToolKey(tool))
  {
  }

  /** Giving one call up leaves the others as they were. */
  lemma GiveUpOne(log: Log, conversation: ConversationId, run: RunId, tool: ToolCallId, ids: Ids, other: ToolCallId)
    requires Built(log) && CommitOne(log, UnknownOutcome(conversation, run, tool, ids)).Some?
    ensures var log' := CommitOne(log, UnknownOutcome(conversation, run, tool, ids)).value;
      && log <= log' && Built(log') && GivenUp(log', run, tool)
      && (other != tool && !Settled(log, run, other) ==> !Settled(log', run, other))
  {
    hide Built, UnknownOutcome, CommitOne, IsUnknownOutcome;
    var c := UnknownOutcome(conversation, run, tool, ids);
    var k := Committed(log, c);
    UnknownOutcomeIsUnknown(conversation, run, tool, ids);
    SamePayloadIsUnknown(CommitOne(log, c).value[k], c, tool);
    CommitOneKeeps(log, c);
    if CommitOne(log, c).value != log && other != tool && !Settled(log, run, other) {
      NoReceiptForOthers(log, c, run, other);
    }
  }

  lemma SamePayloadIsUnknown(a: AppendCommand, c: AppendCommand, tool: ToolCallId)
    requires a.payload == c.payload && IsUnknownOutcome(c, tool)
    ensures IsUnknownOutcome(a, tool)
  {
  }

  lemma NoReceiptForOthers(log: Log, c: AppendCommand, run: RunId, other: ToolCallId)
    requires !Settled(log, run, other) && ReceiptKeyOf(c) != Some(ToolKey(other))
    ensures !Settled(log + [c], run, other)
  {
    assert (log + [c])[..|log|] == log;
  }

  lemma GivenUpStays(log: Log, log': Log, run: RunId, tool: ToolCallId)
    requires log <= log' && GivenUp(log, run, tool)
    ensures GivenUp(log', run, tool)
  {
    var k :| 0 <= k < |log| && log[k].runId == run && IsUnknownOutcome(log[k], tool);
    assert log'[k] == log[k];
  }

  /** Settling gives up exactly the listed calls that have no receipt. */
  lemma {:induction false} SettledAreGivenUp(log: Log, tools: seq<ToolCallId>, conversation: ConversationId, run: RunId, ids: Ids, tool: ToolCallId)
    requires Built(log) && SettleTools(log, tools, conversation, run, ids).Some?
    ensures var log' := SettleTools(log, tools, conversation, run, ids).value;
      log <= log' && Built(log') && (tool in tools && !Settled(log, run, tool) ==> GivenUp(log', run, tool))
    decreases |tools|
  {
    hide Built, UnknownOutcome, CommitOne, GivenUp;
    if tools != [] {
      var next := log;
      if FindReceipt(log, run, ToolKey(tools[0])).None? {
        next := CommitOne(log, UnknownOutcome(conversation, run, tools[0], ids)).value;
        GiveUpOne(log, conversation, run, tools[0], ids, tool);
      }
      SettledAreGivenUp(next, tools[1..], conversation, run, ids, tool);
      if tool == tools[0] && !Settled(log, run, tool) {
        GivenUpStays(next, SettleTools(next, tools[1..], conversation, run, ids).value, run, tool);
      }
    }
  }

  lemma EndCommandIsEnding(conversation: ConversationId, run: RunId, state: RunState, p: Projection, ids: Ids, c: AppendCommand)
    requires state.IsTerminal() && c.payload == EndCommand(conversation, run, state, p, ids).payload
    requires c.detail == EndCommand(conversation, run, state, p, ids).detail
    ensures IsEnding(c, state, p) && EndCommand(conversation, run, state, p, ids).runId == run
  {
  }

  /** The end of a run: its ending is recorded, whole, and its unanswered calls are given up. */
  lemma EndIsRecorded(log: Log, conversation: ConversationId, run: RunId, state: RunState, p: Projection, ids: Ids, tool: ToolCallId)
    requires Built(log) && WriteEnd(log, conversation, run, state, p, ids).Some?
    ensures var log' := WriteEnd(log, conversation, run, state, p, ids).value;
      && log <= log' && EndingRecorded(log', run, state, p)
      && (tool in Started(log, run) && !Settled(log, run, tool) ==> GivenUp(log', run, tool))
  {
    hide Built, CommitOne, SettleTools, EndCommand, Started, Settled, GivenUp, IsEnding;
    SettledAreGivenUp(log, Started(log, run), conversation, run, ids, tool);
    var settled := SettleTools(log, Started(log, run), conversation, run, ids).value;
    var c := EndCommand(conversation, run, state, p, ids);
    var k := Committed(settled, c);
    EndCommandIsEnding(conversation, run, state, p, ids, CommitOne(settled, c).value[k]);
    if GivenUp(settled, run, tool) {
      GivenUpStays(settled, CommitOne(settled, c).value, run, tool);
    }
  }

  /** What an operation on a run leaves in the journal: a claim its start, a cancellation its
      request, an ending its record and the unanswered calls given up; and nothing when nothing
      happens. */
  lemma ActionIsRecorded(log: Log, conversation: ConversationId, run: RunId, s: RunSnapshot, a: Action, active: bool, ids: Ids, tool: ToolCallId)
    requires Built(log) && RunOk(s)
    requires var (next, projection) := Step(s, a, active); WriteAction(log, conversation, run, s, a, next, projection, ids).Some?
    ensures var (next, projection) := Step(s, a, active);
      var log' := WriteAction(log, conversation, run, s, a, next, projection, ids).value;
      && log <= log'
      && (s.state.Queued? && next.state.Running? ==> Recorded(log', run, RunStateSet(Running)))
      && (!s.cancellationRequested && next.cancellationRequested ==> Recorded(log', run, CancellationRequested))
      && (next.state.IsTerminal() && !s.state.IsTerminal() ==>
            && EndingRecorded(log', run, next.state, projection.value)
            && (tool in Started(log, run) && !Settled(log, run, tool) ==> GivenUp(log', run, tool)))
      && (next == s ==> log' == log)
  {
    hide Built, CommitOne, WriteEnd, Step, Started, Settled, GivenUp, EndingRecorded, RunOk;
    StepKeepsRun(s, a, active);
    StepStates(s, a, active);
    OnlyCancelRequests(s, a, active);
    var (next, projection) := Step(s, a, active);
    if a.Claim? && next.fence > s.fence {
      var k := Committed(log, RunEvent(conversation, run, RunStateSet(Running), None, "started", ids));
    } else if a.Cancel? && next != s {
      var c := RunEvent(conversation, run, CancellationRequested, None, "cancel_requested", ids);
      var k := Committed(log, c);
      var log' := CommitOne(log, c).value;
      assert Recorded(log', run, CancellationRequested);
      if projection.Some? {
        SameCalls(log, c, run, tool);
        EndIsRecorded(log', conversation, run, next.state, projection.value, ids, tool);
        RecordedStays(log', WriteEnd(log', conversation, run, next.state, projection.value, ids).value, run, CancellationRequested);
      }
    } else if projection.Some? {
      EndIsRecorded(log, conversation, run, next.state, projection.value, ids, tool);
    }
  }

  lemma OnlyCancelRequests(s: RunSnapshot, a: Action, active: bool)
    ensures !s.cancellationRequested && Step(s, a, active).0.cancellationRequested ==> a.Cancel?
  {
  }

  /** The request of a cancellation starts no call and answers none. */
  lemma SameCalls(log: Log, c: AppendCommand, run: RunId, tool: ToolCallId)
    requires Built(log) && CommitOne(log, c).Some? && c.payload == Public(CancellationRequested)
    ensures var log' := CommitOne(log, c).value;
      Started(log', run) == Started(log, run) && (Settled(log', run, tool) <==> Settled(log, run, tool))
  {
    CommitOneKeeps(log, c);
    if CommitOne(log, c).value != log {
      StartedStep(log, c, run);
      assert (log + [c])[..|log|] == log;
    }
  }

  lemma RecordedStays(log: Log, log': Log, run: RunId, payload: PublicPayload)
    requires log <= log' && Recorded(log, run, payload)
    ensures Recorded(log', run, payload)
  {
    var k :| 0 <= k < |log| && log[k].runId == run && log[k].payload == Public(payload);
    assert log'[k] == log[k];
  }

  /** An accepted submission leaves itself and the state it puts the run in. */
  lemma SubmissionIsRecorded(log: Log, c: SubmitCommand, ids: Ids)
    requires Built(log) && WriteSubmission(log, c, ids).Some?
    ensures var log' := WriteSubmission(log, c, ids).value;
      && log <= log' && c.submitted in log' && Recorded(log', c.submitted.runId, RunStateSet(Queued))
  {
    hide Built, CommitOne;
    CommitKeepsBuilt(log, c.submitted);
    var log1 := Commit(log, c.submitted).value.0;
    assert log1[|log|] == c.submitted;
    hide Commit;
    var k := Committed(log1, RunEvent(c.submitted.conversationId, c.submitted.runId, RunStateSet(Queued), None, "queued", ids));
    var log' := WriteSubmission(log, c, ids).value;
    assert log'[|log|] == c.submitted;
  }
}
