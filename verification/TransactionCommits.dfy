/** When the lifecycle transactions commit: nothing aborts one but a record the journal cannot take. */
module TransactionCommits {
  import opened JsonText
  import opened Wrappers
  import opened Protocol
  import opened Journal
  import opened Lifecycle
  import opened Workspace
  import opened LifecycleJournal

  /** The record of a run under this key has an identity of its own that the journal does not have. */
  predicate Unused(log: Log, run: RunId, ids: Ids, key: string) {
    && key in ids && ValidId(ids[key])
    && forall k :: 0 <= k < |log| ==> log[k].eventId != ids[key] && log[k].idempotencyKey != Digest(run + ":" + key)
  }

  ghost predicate Injective(ids: Ids) {
    forall j, k :: j in ids && k in ids && ids[j] == ids[k] ==> j == k
  }

  predicate WellNamed(conversation: ConversationId, run: RunId) {
    ValidIdentity(conversation) && ValidIdentity(run)
  }

  /** A record without a detail, with a small payload, is valid. */
  lemma SmallEventIsValid(conversation: ConversationId, run: RunId, payload: PublicPayload, key: string, ids: Ids)
    requires WellNamed(conversation, run) && key in ids && ValidId(ids[key])
    requires PayloadDetail(Public(payload)).None? && PayloadIdentitiesValid(Public(payload)) && PublicSize(payload) <= 2000
    ensures Validate(RunEvent(conversation, run, payload, None, key, ids)).Success?
  {
    EscapeGrowth(conversation);
    EscapeGrowth(run);
    IdSizeBound(ids[key]);
    assert Decimal(1) == [Digit(1)];
    hide EscapedLen, Utf8Len, PublicSize;
  }

  lemma KeysDiffer(run: RunId, j: string, k: string)
    requires j != k
    ensures Digest(run + ":" + j) != Digest(run + ":" + k)
  {
    var prefix := run + ":";
    assert (prefix + j)[|prefix|..] == j && (prefix + k)[|prefix|..] == k;
  }

  /** A valid record under an unused key is appended, and leaves the other keys unused. */
  lemma EventCommits(log: Log, conversation: ConversationId, run: RunId, payload: PublicPayload, detail: Option<string>, key: string, ids: Ids,
                     other: string)
    requires Built(log) && |log| < MAX_I64 && Unused(log, run, ids, key) && Injective(ids)
    requires var c := RunEvent(conversation, run, payload, detail, key, ids);
      && Validate(c).Success? && MakePlan(c, StateOf(log, run)).Success?
      && forall k :: 0 <= k < |log| ==> !ReportsTheSame(log[k], c)
    ensures var c := RunEvent(conversation, run, payload, detail, key, ids);
      && CommitOne(log, c) == Some(log + [c]) && Built(log + [c])
      && (other != key && Unused(log, run, ids, other) ==> Unused(log + [c], run, ids, other))
  {
    hide Built, Validate, MakePlan, StateOf, ReportsTheSame;
    var c := RunEvent(conversation, run, payload, detail, key, ids);
    CommitAnswers(log, c, |log|);
    CommitKeepsBuilt(log, c);
    if other != key {
      KeysDiffer(run, key, other);
    }
  }

  lemma LivePlan(c: AppendCommand, state: RunState)
    requires Validate(c).Success? && !state.IsTerminal() && c.payload.Public? && !IsSubmission(c)
    requires c.payload.public.RunStateSet? ==> c.payload.public.state.Running?
    ensures MakePlan(c, Some(state)).Success?
  {
    PlanMeans(c, Some(state));
  }

  // ---- Settling ----

  /** The unanswered calls can be given up. */
  predicate CanGiveUp(log: Log, tools: seq<ToolCallId>, run: RunId, ids: Ids) {
    forall tool :: tool in tools && !Settled(log, run, tool) ==> ValidIdentity(tool) && Unused(log, run, ids, "unknown:" + tool)
  }

  lemma GiveUpIsValid(conversation: ConversationId, run: RunId, tool: ToolCallId, ids: Ids)
    requires WellNamed(conversation, run) && ValidIdentity(tool) && "unknown:" + tool in ids && ValidId(ids["unknown:" + tool])
    ensures Validate(UnknownOutcome(conversation, run, tool, ids)).Success?
  {
    hide EscapedLen, Utf8Len, Validate, PublicSize, ValidIdentity;
    GiveUpIsSmall(tool);
    SmallEventIsValid(conversation, run, ToolOutcomeRecorded(tool, Text(UNKNOWN_OUTCOME, None), TransportUnknown, DomainUnknown), "unknown:" + tool, ids);
  }

  lemma GiveUpIsSmall(tool: ToolCallId)
    requires ValidIdentity(tool)
    ensures PublicSize(ToolOutcomeRecorded(tool, Text(UNKNOWN_OUTCOME, None), TransportUnknown, DomainUnknown)) <= 2000
  {
    hide EscapedLen, Utf8Len;
    EscapeGrowth(tool);
    EscapeGrowth(UNKNOWN_OUTCOME);
  }

  lemma NothingReported(log: Log, conversation: ConversationId, run: RunId, tool: ToolCallId, ids: Ids)
    requires !Settled(log, run, tool)
    ensures forall k :: 0 <= k < |log| ==> !ReportsTheSame(log[k], UnknownOutcome(conversation, run, tool, ids))
  {
    forall k | 0 <= k < |log| ensures !ReportsTheSame(log[k], UnknownOutcome(conversation, run, tool, ids)) {
      assert !HasReceipt(log[k], run, ToolKey(tool));
    }
  }

  lemma {:induction false} SettleCommits(log: Log, tools: seq<ToolCallId>, conversation: ConversationId, run: RunId, ids: Ids, state: RunState,
                                         other: string)
    requires Built(log) && StateOf(log, run) == Some(state) && !state.IsTerminal() && |log| + |tools| <= MAX_I64
    requires WellNamed(conversation, run) && Injective(ids) && CanGiveUp(log, tools, run, ids)
    requires Unused(log, run, ids, other) && forall tool :: tool in tools ==> other != "unknown:" + tool
    ensures var r := SettleTools(log, tools, conversation, run, ids);
      && r.Some? && Built(r.value) && |r.value| <= |log| + |tools|
      && StateOf(r.value, run) == Some(state) && Unused(r.value, run, ids, other)
    decreases |tools|
  {
    hide Built, StateOf, CommitOne, UnknownOutcome, Injective, WellNamed, CanGiveUp, Unused, ReportsTheSame;
    if tools != [] {
      var next := log;
      if FindReceipt(log, run, ToolKey(tools[0])).None? {
        next := log + [UnknownOutcome(conversation, run, tools[0], ids)];
        GiveUpCommits(log, tools, conversation, run, ids, state, other);
      } else {
        CanGiveUpRest(log, tools, run, ids);
      }
      SettleCommits(next, tools[1..], conversation, run, ids, state, other);
    }
  }

  lemma CanGiveUpRest(log: Log, tools: seq<ToolCallId>, run: RunId, ids: Ids)
    requires tools != [] && CanGiveUp(log, tools, run, ids)
    ensures CanGiveUp(log, tools[1..], run, ids)
  {
    hide Unused, Settled;
  }

  /** Giving the first call up leaves the rest of them, and any other key, as they were. */
  lemma GiveUpCommits(log: Log, tools: seq<ToolCallId>, conversation: ConversationId, run: RunId, ids: Ids, state: RunState, other: string)
    requires Built(log) && StateOf(log, run) == Some(state) && !state.IsTerminal() && |log| < MAX_I64
    requires WellNamed(conversation, run) && Injective(ids) && tools != [] && CanGiveUp(log, tools, run, ids)
    requires !Settled(log, run, tools[0]) && Unused(log, run, ids, other) && other != "unknown:" + tools[0]
    ensures var c := UnknownOutcome(conversation, run, tools[0], ids);
      && CommitOne(log, c) == Some(log + [c]) && Built(log + [c]) && StateOf(log + [c], run) == Some(state)
      && CanGiveUp(log + [c], tools[1..], run, ids) && Unused(log + [c], run, ids, other)
  {
    hide Built, StateOf, CommitOne, Injective, WellNamed, Unused, Settled, Validate, MakePlan, ReportsTheSame;
    var first, key := tools[0], "unknown:" + tools[0];
    var c := UnknownOutcome(conversation, run, first, ids);
    UnusedIsNamed(log, run, ids, key);
    GiveUpIsValid(conversation, run, first, ids);
    NothingReported(log, conversation, run, first, ids);
    LivePlan(c, state);
    EventCommits(log, conversation, run, c.payload.public, None, key, ids, other);
    NeutralCommit(log, c);
    forall tool | tool in tools[1..] && !Settled(log + [c], run, tool)
      ensures ValidIdentity(tool) && Unused(log + [c], run, ids, "unknown:" + tool)
    {
      StillUnsettled(log, c, run, first, tool);
      assert tool in tools;
      assert ("unknown:" + tool)[8..] == tool && key[8..] == first;
      EventCommits(log, conversation, run, c.payload.public, None, key, ids, "unknown:" + tool);
    }
  }

  lemma UnusedIsNamed(log: Log, run: RunId, ids: Ids, key: string)
    requires Unused(log, run, ids, key)
    ensures key in ids && ValidId(ids[key])
  {
  }

  lemma StillUnsettled(log: Log, c: AppendCommand, run: RunId, first: ToolCallId, tool: ToolCallId)
    requires c.runId == run && ReceiptKeyOf(c) == Some(ToolKey(first)) && !Settled(log + [c], run, tool)
    ensures tool != first && !Settled(log, run, tool)
  {
    assert (log + [c])[..|log|] == log;
  }

  // ---- Transactions ----

  lemma {:induction false} StartedAreNamed(log: Log, run: RunId)
    requires Built(log)
    ensures forall tool :: tool in Started(log, run) ==> ValidIdentity(tool)
  {
    if log != [] {
      var n := |log| - 1;
      BuiltRecord(log, n);
      hide Validate, ValidIdentity;
      PrefixIsBuilt(log, n);
      StartedAreNamed(log[..n], run);
      if IsStart(log[n], run) {
        StartIsNamed(log[n], run);
      }
    }
  }

  lemma PrefixIsBuilt(log: Log, n: nat)
    requires Built(log) && n <= |log|
    ensures Built(log[..n])
  {
    forall i {:trigger Appended(log[..n][..i], log[..n][i])} | 0 <= i < n ensures Appended(log[..n][..i], log[..n][i]) {
      assert log[..n][..i] == log[..i];
    }
  }

  lemma StartIsNamed(c: AppendCommand, run: RunId)
    requires Validate(c).Success? && IsStart(c, run)
    ensures ValidIdentity(c.payload.public.toolCallId)
  {
    hide Utf8Len, CommandSize, PayloadSize;
  }

  lemma {:induction false} StartedAreFewer(log: Log, run: RunId)
    ensures |Started(log, run)| <= |log|
  {
    if log != [] {
      StartedAreFewer(log[..|log| - 1], run);
    }
  }

  /** The keys that an ending of the run needs are unused. */
  ghost predicate CanEnd(log: Log, run: RunId, ids: Ids) {
    && Unused(log, run, ids, "terminal")
    && forall tool :: tool in Started(log, run) && !Settled(log, run, tool) ==> Unused(log, run, ids, "unknown:" + tool)
  }

  /** An ending commits when its own record is valid. */
  lemma EndCommits(log: Log, conversation: ConversationId, run: RunId, s: RunState, state: RunState, p: Projection, ids: Ids)
    requires Built(log) && StateOf(log, run) == Some(s) && !s.IsTerminal() && 2 * |log| < MAX_I64
    requires WellNamed(conversation, run) && Injective(ids) && CanEnd(log, run, ids)
    requires state.IsTerminal() && Validate(EndCommand(conversation, run, state, p, ids)).Success?
    ensures WriteEnd(log, conversation, run, state, p, ids).Some?
  {
    hide Built, StateOf, CommitOne, EndCommand, Injective, WellNamed, Unused, Settled, Validate, MakePlan, ReportsTheSame, ValidIdentity, SettleTools;
    var tools := Started(log, run);
    StartedAreNamed(log, run);
    StartedAreFewer(log, run);
    assert "terminal"[0] == 't' && forall tool: ToolCallId :: ("unknown:" + tool)[0] == 'u';
    SettleCommits(log, tools, conversation, run, ids, s, "terminal");
    var settled := SettleTools(log, tools, conversation, run, ids).value;
    EndFollows(settled, conversation, run, s, state, p, ids);
  }

  lemma EndFollows(log: Log, conversation: ConversationId, run: RunId, s: RunState, state: RunState, p: Projection, ids: Ids)
    requires Built(log) && StateOf(log, run) == Some(s) && !s.IsTerminal() && |log| < MAX_I64
    requires Injective(ids) && Unused(log, run, ids, "terminal")
    requires state.IsTerminal() && Validate(EndCommand(conversation, run, state, p, ids)).Success?
    ensures CommitOne(log, EndCommand(conversation, run, state, p, ids)).Some?
  {
    hide Built, StateOf, CommitOne, Injective, Unused, Validate, MakePlan, EndCommand;
    var c := EndCommand(conversation, run, state, p, ids);
    EndIsEvent(log, conversation, run, state, p, ids);
    LivePlan(c, s);
    EventCommits(log, conversation, run, c.payload.public, c.detail, "terminal", ids, "terminal");
  }

  lemma EndIsEvent(log: Log, conversation: ConversationId, run: RunId, state: RunState, p: Projection, ids: Ids)
    requires state.IsTerminal()
    ensures var c := EndCommand(conversation, run, state, p, ids);
      && c.payload.Public? && !IsSubmission(c) && !c.payload.public.RunStateSet?
      && c == RunEvent(conversation, run, c.payload.public, c.detail, "terminal", ids)
      && forall k :: 0 <= k < |log| ==> !ReportsTheSame(log[k], c)
  {
  }

  /** A state or request record of a live run commits under an unused key, and leaves what an ending
      needs. */
  lemma MarkCommits(log: Log, conversation: ConversationId, run: RunId, s: RunState, payload: PublicPayload, key: string, ids: Ids)
    requires Built(log) && StateOf(log, run) == Some(s) && !s.IsTerminal() && |log| < MAX_I64
    requires WellNamed(conversation, run) && Injective(ids) && Unused(log, run, ids, key) && CanEnd(log, run, ids)
    requires (payload == CancellationRequested && key == "cancel_requested") || (payload == RunStateSet(Running) && key == "started")
    ensures var c := RunEvent(conversation, run, payload, None, key, ids);
      && CommitOne(log, c) == Some(log + [c]) && Built(log + [c])
      && (payload == CancellationRequested ==> StateOf(log + [c], run) == Some(s) && CanEnd(log + [c], run, ids))
  {
    hide Built, StateOf, CommitOne, Injective, WellNamed, Unused, Settled, Validate, MakePlan, Started;
    var c := RunEvent(conversation, run, payload, None, key, ids);
    UnusedIsNamed(log, run, ids, key);
    MarkIsSmall(payload);
    SmallEventIsValid(conversation, run, payload, key, ids);
    LivePlan(c, s);
    assert key[0] != 't' && key[0] != 'u' by {
      assert "cancel_requested"[0] == 'c' && "started"[0] == 's';
    }
    EventCommits(log, conversation, run, payload, None, key, ids, "terminal");
    if payload == CancellationRequested {
      NeutralCommit(log, c);
      StartedStep(log, c, run);
      forall tool | tool in Started(log, run) && !Settled(log + [c], run, tool) ensures Unused(log + [c], run, ids, "unknown:" + tool) {
        UnsettledBefore(log, c, run, tool);
        assert ("unknown:" + tool)[0] == 'u';
        EventCommits(log, conversation, run, payload, None, key, ids, "unknown:" + tool);
      }
    }
  }

  lemma UnsettledBefore(log: Log, c: AppendCommand, run: RunId, tool: ToolCallId)
    requires !Settled(log + [c], run, tool)
    ensures !Settled(log, run, tool)
  {
    assert (log + [c])[..|log|] == log;
  }

  lemma MarkIsSmall(payload: PublicPayload)
    requires payload == CancellationRequested || payload == RunStateSet(Running)
    ensures PublicSize(payload) <= 2000 && PayloadDetail(Public(payload)).None? && PayloadIdentitiesValid(Public(payload))
  {
  }

  /** Nothing aborts a transaction of a run whose row and journal agree: with unused identities it
      commits, whatever the operation is and however many calls are unanswered, unless the record of
      an ending is itself too large. */
  lemma ActionCommits(log: Log, conversation: ConversationId, run: RunId, s: RunSnapshot, a: Action, active: bool, ids: Ids)
    requires Built(log) && StateOf(log, run) == Some(s.state) && RunOk(s) && 2 * |log| + 2 < MAX_I64
    requires WellNamed(conversation, run) && Injective(ids) && CanEnd(log, run, ids)
    requires Unused(log, run, ids, "started") && Unused(log, run, ids, "cancel_requested")
    requires var (next, projection) := Step(s, a, active);
      projection.Some? ==> next.state.IsTerminal() && Validate(EndCommand(conversation, run, next.state, projection.value, ids)).Success?
    ensures var (next, projection) := Step(s, a, active); WriteAction(log, conversation, run, s, a, next, projection, ids).Some?
  {
    hide Built, StateOf, CommitOne, WriteEnd, EndCommand, Injective, WellNamed, Unused, CanEnd, Validate, Step, RunOk;
    StepKeepsRun(s, a, active);
    StepStates(s, a, active);
    var (next, projection) := Step(s, a, active);
    if a.Claim? && next.fence > s.fence {
      MarkCommits(log, conversation, run, s.state, RunStateSet(Running), "started", ids);
    } else if a.Cancel? && next != s {
      MarkCommits(log, conversation, run, s.state, CancellationRequested, "cancel_requested", ids);
      if projection.Some? {
        var c := RunEvent(conversation, run, CancellationRequested, None, "cancel_requested", ids);
        EndCommits(log + [c], conversation, run, s.state, next.state, projection.value, ids);
      }
    } else if projection.Some? {
      EndCommits(log, conversation, run, s.state, next.state, projection.value, ids);
    }
  }

  /** A valid submission of a run that the journal does not know commits, with what puts the run in
      its queue. */
  lemma SubmissionCommits(log: Log, c: SubmitCommand, ids: Ids)
    requires Built(log) && |log| + 2 <= MAX_I64 && Injective(ids)
    requires Validate(c.submitted).Success? && IsSubmission(c.submitted)
    requires forall k :: 0 <= k < |log| ==> log[k].runId != c.submitted.runId && !Takes(log[k], c.submitted)
    requires Unused(log + [c.submitted], c.submitted.runId, ids, "queued")
    ensures WriteSubmission(log, c, ids).Some?
  {
    hide Built, Validate, Commit, CommitOne, Takes, Injective, Unused, MakePlan;
    var s, run := c.submitted, c.submitted.runId;
    var log1 := log + [s];
    NoRecordNoState(log, run);
    NotReported(log, s);
    CommitAnswers(log, s, |log|);
    PlanMeans(s, None);
    CommitKeepsBuilt(log, s);
    assert log1[..|log|] == log;
    SubmittedIsNamed(s);
    UnusedIsNamed(log1, run, ids, "queued");
    QueuedIsSmall();
    SmallEventIsValid(s.conversationId, run, RunStateSet(Queued), "queued", ids);
    var queued := RunEvent(s.conversationId, run, RunStateSet(Queued), None, "queued", ids);
    PlanMeans(queued, Some(Queued));
    NotReported(log1, queued);
    EventCommits(log1, s.conversationId, run, RunStateSet(Queued), None, "queued", ids, "queued");
  }

  lemma {:induction false} NoRecordNoState(log: Log, run: RunId)
    requires forall k :: 0 <= k < |log| ==> log[k].runId != run
    ensures StateOf(log, run).None?
  {
    if log != [] {
      NoRecordNoState(log[..|log| - 1], run);
    }
  }

  lemma NotReported(log: Log, c: AppendCommand)
    requires c.payload.Public? && (c.payload.public.Submitted? || c.payload.public.RunStateSet?)
    ensures forall k :: 0 <= k < |log| ==> !ReportsTheSame(log[k], c)
  {
  }

  lemma SubmittedIsNamed(c: AppendCommand)
    requires Validate(c).Success?
    ensures WellNamed(c.conversationId, c.runId)
  {
    hide Utf8Len, CommandSize, PayloadSize;
  }

  lemma QueuedIsSmall()
    ensures PublicSize(RunStateSet(Queued)) <= 2000
  {
  }
}
