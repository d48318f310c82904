/** Lifecycle transactions: each operation on a run writes its run row and its journal records
    together or not at all, while the agents append their own records to the same journals. */
module LifecycleJournal {
  import opened JsonText
  import opened Wrappers
  import opened Protocol
  import opened Journal
  import opened Lifecycle
  import opened Workspace

  type Log = seq<AppendCommand>

  /** Generated event and detail ids, by what they are generated for. */
  type Ids = map<string, Id>

  function IdFor(ids: Ids, key: string): Id {
    if key in ids then ids[key] else Plain("")
  }

  // ---- Records ----

  function RunEvent(conversation: ConversationId, run: RunId, payload: PublicPayload, detail: Option<string>,
                    key: string, ids: Ids): AppendCommand
  {
    AppendCommand(VERSION, conversation, run, IdFor(ids, key), Digest(run + ":" + key), Public(payload), detail)
  }

  /** Abridged. */
  const UNKNOWN_OUTCOME: string := "Action outcome unknown"

  function UnknownOutcome(conversation: ConversationId, run: RunId, tool: ToolCallId, ids: Ids): AppendCommand {
    RunEvent(conversation, run, ToolOutcomeRecorded(tool, Text(UNKNOWN_OUTCOME, None), TransportUnknown, DomainUnknown), None,
             "unknown:" + tool, ids)
  }

  /** The text of an ending, and its detail body when it is long. */
  function EndingText(content: string, ids: Ids): Text {
    Text(if |content| > 8000 then content[..8000] else content,
         if |content| > 8000 then Some(IdFor(ids, "detail")) else None)
  }

  function EndingDetail(content: string): Option<string> {
    if |content| > 8000 then Some(content) else None
  }

  /** The record that ends a run. */
  function EndCommand(conversation: ConversationId, run: RunId, state: RunState, projection: Projection, ids: Ids): AppendCommand
    requires state.IsTerminal()
  {
    var text, detail := EndingText(projection.content, ids), EndingDetail(projection.content);
    match state
    case Completed => RunEvent(conversation, run, ApprovedAnswer(projection.messageId, text), detail, "terminal", ids)
    case Failed => RunEvent(conversation, run, FailedEvent(text), detail, "terminal", ids)
    case Interrupted => RunEvent(conversation, run, InterruptedEvent(text), detail, "terminal", ids)
    case _ => RunEvent(conversation, run, CancelledEvent, None, "terminal", ids)
  }

  // ---- Transactions ----

  function CommitOne(log: Log, c: AppendCommand): Option<Log> {
    match Commit(log, c)
    case Success((log', _)) => Some(log')
    case Failure(_) => None
  }

  predicate IsStart(c: AppendCommand, run: RunId) {
    c.runId == run && c.payload.Public? && c.payload.public.ToolStarted?
  }

  /** The tool calls a run has started. */
  function Started(log: Log, run: RunId): seq<ToolCallId> {
    if log == [] then []
    else
      var last := log[|log| - 1];
      Started(log[..|log| - 1], run) + if IsStart(last, run) then [last.payload.public.toolCallId] else []
  }

  /** An unknown outcome for every started call that has no receipt yet. */
  function SettleTools(log: Log, tools: seq<ToolCallId>, conversation: ConversationId, run: RunId, ids: Ids): Option<Log>
    decreases |tools|
  {
    if tools == [] then Some(log)
    else if FindReceipt(log, run, ToolKey(tools[0])).Some? then SettleTools(log, tools[1..], conversation, run, ids)
    else
      match CommitOne(log, UnknownOutcome(conversation, run, tools[0], ids))
      case Some(log') => SettleTools(log', tools[1..], conversation, run, ids)
      case None => None
  }

  /** Writing the end of a run. */
  function WriteEnd(log: Log, conversation: ConversationId, run: RunId, state: RunState, projection: Projection, ids: Ids): Option<Log> {
    if !state.IsTerminal() then None
    else
      match SettleTools(log, Started(log, run), conversation, run, ids)
      case Some(settled) => CommitOne(settled, EndCommand(conversation, run, state, projection, ids))
      case None => None
  }

  /** What an operation that turned snapshot s into next writes to the journal. */
  function WriteAction(log: Log, conversation: ConversationId, run: RunId, s: RunSnapshot, a: Action,
                       next: RunSnapshot, projection: Option<Projection>, ids: Ids): Option<Log>
  {
    if a.Claim? && next.fence > s.fence then
      CommitOne(log, RunEvent(conversation, run, RunStateSet(Running), None, "started", ids))
    else if a.Cancel? && next != s then
      match CommitOne(log, RunEvent(conversation, run, CancellationRequested, None, "cancel_requested", ids))
      case None => None
      case Some(log') =>
        if projection.Some? then WriteEnd(log', conversation, run, next.state, projection.value, ids) else Some(log')
    else if projection.Some? then WriteEnd(log, conversation, run, next.state, projection.value, ids)
    else Some(log)
  }

  function WriteSubmission(log: Log, c: SubmitCommand, ids: Ids): Option<Log> {
    match Commit(log, c.submitted)
    case Failure(_) => None
    case Success((log', receipt)) =>
      if receipt.duplicate then None
      else CommitOne(log', RunEvent(c.submitted.conversationId, c.submitted.runId, RunStateSet(Queued), None, "queued", ids))
  }

  // ---- The store ----

  datatype Store = Store(w: State, logs: map<ConversationId, Log>)

  /** An agent appends a record under the lease it holds, if it holds one; `written` says whether
      the rows beside the journal that the record projects to could be written. */
  datatype Operation =
    | Lifecycle(event: Event, ids: Ids)
    | AgentAppend(command: AppendCommand, lease: Option<Lease>, now: i64, written: bool)

  function LogOf(s: Store, conversation: ConversationId): Log {
    if conversation in s.logs then s.logs[conversation] else []
  }

  /** A record that leaves the state of its run alone. */
  predicate StateNeutral(c: AppendCommand) {
    match c.payload
    case Restricted(_) => true
    case Public(p) =>
      !p.Submitted? && !p.RunStateSet? && !p.ApprovedAnswer? && !p.CancelledEvent? && !p.FailedEvent? && !p.InterruptedEvent?
  }

  /** An agent's append. A record that is there already is acknowledged and changes nothing. A new
      record of a run of the workspace needs a lease that validates, and moves the row of the run
      to the state the record plans, whatever the record is. A run belongs to one conversation. */
  function Append(s: Store, c: AppendCommand, lease: Option<Lease>, now: i64, written: bool): Store {
    var log := LogOf(s, c.conversationId);
    match CommitOne(log, c)
    case None => s
    case Some(log') =>
      if log' == log then s
      else if c.runId !in s.w.runs then s.(logs := s.logs[c.conversationId := log'])
      else
        var row := s.w.runs[c.runId];
        if row.conversation != c.conversationId || lease.None? || !Validates(row.snapshot, lease.value, now) then s
        else
          match MakePlan(c, Some(row.snapshot.state))
          case Failure(_) => s
          case Success(plan) =>
            if !written then s
            else
              Store(
                s.w.(runs := s.w.runs[c.runId := row.(snapshot := row.snapshot.(state := plan.nextState))],
                     projections := if plan.projection.Some? then s.w.projections + [(c.runId, plan.projection.value)]
                                    else s.w.projections),
                s.logs[c.conversationId := log'])
  }

  function Apply(s: Store, op: Operation): Store {
    match op
    case AgentAppend(c, lease, now, written) => Append(s, c, lease, now, written)
    case Lifecycle(Submit(c), ids) =>
      var answer := Answer(s.w, c);
      if answer.Failure? || answer.value.duplicate then s
      else
        (match WriteSubmission(LogOf(s, c.submitted.conversationId), c, ids)
         case Some(log') => Store(Next(s.w, Submit(c)), s.logs[c.submitted.conversationId := log'])
         case None => s)
    case Lifecycle(Act(run, action), ids) =>
      if run !in s.w.runs then s
      else
        var row := s.w.runs[run];
        var (next, projection) := Step(row.snapshot, action, ConversationActive(s.w, run));
        (match WriteAction(LogOf(s, row.conversation), row.conversation, run, row.snapshot, action, next, projection, ids)
         case Some(log') => Store(Next(s.w, Act(run, action)), s.logs[row.conversation := log'])
         case None => s)
  }

  function ApplyAll(s: Store, ops: seq<Operation>): Store
    decreases |ops|
  {
    if ops == [] then s else ApplyAll(Apply(s, ops[0]), ops[1..])
  }

  // ---- The effect of one commit on a run's state ----

  /** The journal grew, if at all, by records of one run. */
  predicate Grew(log: Log, log': Log, run: RunId) {
    log <= log' && forall i :: |log| <= i < |log'| ==> log'[i].runId == run
  }

  lemma {:induction false} GrowthKeepsOthers(log: Log, log': Log, run: RunId, other: RunId)
    requires Grew(log, log', run) && other != run
    ensures StateOf(log', other) == StateOf(log, other) && Started(log', other) == Started(log, other)
  {
    if |log| < |log'| {
      GrowthKeepsOthers(log, log'[..|log'| - 1], run, other);
    } else {
      assert log' == log;
    }
  }

  lemma CommitOneKeeps(log: Log, c: AppendCommand)
    requires Built(log) && CommitOne(log, c).Some?
    ensures var log' := CommitOne(log, c).value;
      && Built(log') && Grew(log, log', c.runId)
      && (log' == log || log' == log + [c])
  {
    CommitKeepsBuilt(log, c);
  }

  lemma NeutralCommit(log: Log, c: AppendCommand)
    requires Built(log) && CommitOne(log, c).Some? && StateNeutral(c)
    ensures StateOf(CommitOne(log, c).value, c.runId) == StateOf(log, c.runId)
  {
    CommitOneKeeps(log, c);
    var log' := CommitOne(log, c).value;
    if log' != log {
      assert log'[..|log|] == log && log'[|log|] == c;
      BuiltRecord(log', |log|);
    }
  }

  /** A record that puts its run into state `to` whatever it was in. */
  predicate Sets(c: AppendCommand, to: RunState) {
    && c.payload.Public?
    && match c.payload.public
       case RunStateSet(state) => state == to && to.Running?
       case ApprovedAnswer(_, _) => to.Completed?
       case CancelledEvent => to.Cancelled?
       case FailedEvent(_) => to.Failed?
       case InterruptedEvent(_) => to.Interrupted?
       case _ => false
  }

  lemma SetterAdvances(c: AppendCommand, state: Option<RunState>, to: RunState)
    requires Sets(c, to) && MakePlan(c, state).Success?
    ensures Advance(state, c) == Some(to)
  {
  }

  /** A run that once took the record cannot be in a state that the record still changes. */
  lemma SetterNotThere(log: Log, c: AppendCommand, i: nat, before: RunState, to: RunState)
    requires Built(log) && i < |log| && log[i] == c && Sets(c, to)
    requires StateOf(log, c.runId) == Some(before)
    ensures !(before.Queued? || (before.Running? && to.IsTerminal()))
  {
    assert log[..|log|] == log;
    BuiltRecord(log, i);
    StateStep(log, c.runId, i);
    SetterAdvances(c, StateOf(log[..i], c.runId), to);
    hide Built, StateOf;
    StateMoves(log, c.runId, i + 1, |log|);
  }

  /** Committed in a state that its target can still follow, it puts the run there: an earlier
      commit of the same record cannot stand in for it. */
  lemma SetterCommit(log: Log, c: AppendCommand, before: RunState, to: RunState)
    requires Built(log) && CommitOne(log, c).Some? && Sets(c, to)
    requires StateOf(log, c.runId) == Some(before)
    requires before.Queued? || (before.Running? && to.IsTerminal())
    ensures StateOf(CommitOne(log, c).value, c.runId) == Some(to)
  {
    CommitOneKeeps(log, c);
    var log' := CommitOne(log, c).value;
    if log' == log {
      AppendedAnewOrThere(log, c);
      SetterNotThere(log, c, FindEnvelope(log, c).value, before, to);
      assert false;
    } else {
      assert log'[..|log|] == log && log'[|log|] == c;
      BuiltRecord(log', |log|);
      hide Built;
      SetterAdvances(c, Some(before), to);
    }
  }

  lemma AppendedAnewOrThere(log: Log, c: AppendCommand)
    requires CommitOne(log, c) == Some(log) && ReceiptKeyOf(c).None?
    ensures FindEnvelope(log, c).Some? && log[FindEnvelope(log, c).value] == c
  {
  }

  // ---- Started calls and their receipts ----

  predicate Settled(log: Log, run: RunId, tool: ToolCallId) {
    FindReceipt(log, run, ToolKey(tool)).Some?
  }

  /** Every tool call the run has started has a receipt. */
  ghost predicate AllSettled(log: Log, run: RunId) {
    forall tool :: tool in Started(log, run) ==> Settled(log, run, tool)
  }

  lemma {:induction false} SettledStays(log: Log, log': Log, run: RunId, tool: ToolCallId)
    requires log <= log' && Settled(log, run, tool)
    ensures Settled(log', run, tool)
  {
    var i := FindReceipt(log, run, ToolKey(tool)).value;
    assert HasReceipt(log'[i], run, ToolKey(tool));
  }

  lemma StartedStep(log: Log, c: AppendCommand, run: RunId)
    requires !IsStart(c, run)
    ensures Started(log + [c], run) == Started(log, run)
  {
    assert (log + [c])[..|log|] == log;
  }

  /** Nothing is written to a run that has ended. */
  lemma EndedTakesNothing(log: Log, c: AppendCommand)
    requires StateOf(log, c.runId).Some? && StateOf(log, c.runId).value.IsTerminal()
    requires CommitOne(log, c).Some?
    ensures CommitOne(log, c).value == log
  {
  }

  lemma UnknownOutcomeIsReceipt(conversation: ConversationId, run: RunId, tool: ToolCallId, ids: Ids)
    ensures var c := UnknownOutcome(conversation, run, tool, ids);
      HasReceipt(c, run, ToolKey(tool)) && StateNeutral(c) && !IsStart(c, run)
  {
  }

  /** A committed receipt is there to be found. */
  lemma CommittedReceipt(log: Log, c: AppendCommand, run: RunId, key: ReceiptKey)
    requires Built(log) && CommitOne(log, c).Some? && HasReceipt(c, run, key)
    ensures FindReceipt(CommitOne(log, c).value, run, key).Some?
  {
    CommitKeepsBuilt(log, c);
    var (log', receipt) := Commit(log, c).value;
    assert HasReceipt(log'[receipt.sequence - 1], run, key);
  }

  lemma UnknownOutcomeSettles(log: Log, conversation: ConversationId, run: RunId, tool: ToolCallId, ids: Ids)
    requires Built(log) && CommitOne(log, UnknownOutcome(conversation, run, tool, ids)).Some?
    ensures var log' := CommitOne(log, UnknownOutcome(conversation, run, tool, ids)).value;
      && Built(log') && Grew(log, log', run)
      && Settled(log', run, tool)
      && Started(log', run) == Started(log, run)
      && StateOf(log', run) == StateOf(log, run)
  {
    hide Built, UnknownOutcome, CommitOne, StateOf, Started, HasReceipt, StateNeutral, IsStart, FindReceipt;
    var c := UnknownOutcome(conversation, run, tool, ids);
    UnknownOutcomeIsReceipt(conversation, run, tool, ids);
    CommittedReceipt(log, c, run, ToolKey(tool));
    CommitOneKeeps(log, c);
    if CommitOne(log, c).value != log {
      StartedStep(log, c, run);
    }
    NeutralCommit(log, c);
  }

  lemma {:induction false} SettleToolsOk(log: Log, tools: seq<ToolCallId>, conversation: ConversationId, run: RunId, ids: Ids)
    requires Built(log) && SettleTools(log, tools, conversation, run, ids).Some?
    ensures var log' := SettleTools(log, tools, conversation, run, ids).value;
      && Built(log') && Grew(log, log', run)
      && (forall tool :: tool in tools ==> Settled(log', run, tool))
      && Started(log', run) == Started(log, run)
      && StateOf(log', run) == StateOf(log, run)
    decreases |tools|
  {
    hide Built, UnknownOutcome, CommitOne, StateOf, Started;
    if tools != [] {
      var next := log;
      if FindReceipt(log, run, ToolKey(tools[0])).None? {
        next := CommitOne(log, UnknownOutcome(conversation, run, tools[0], ids)).value;
        UnknownOutcomeSettles(log, conversation, run, tools[0], ids);
      }
      SettleToolsOk(next, tools[1..], conversation, run, ids);
      SettledStays(next, SettleTools(next, tools[1..], conversation, run, ids).value, run, tools[0]);
    }
  }

  // ---- The effect of a transaction ----

  /** What a transaction of one run does to its journal. */
  ghost predicate Wrote(log: Log, log': Log, run: RunId, state: RunState) {
    && Built(log') && Grew(log, log', run)
    && StateOf(log', run) == Some(state)
  }

  lemma EndCommandSets(conversation: ConversationId, run: RunId, state: RunState, projection: Projection, ids: Ids)
    requires state.IsTerminal()
    ensures var c := EndCommand(conversation, run, state, projection, ids);
      Sets(c, state) && c.runId == run && !IsStart(c, run)
  {
  }

  lemma WriteEndOk(log: Log, conversation: ConversationId, run: RunId, before: RunState, state: RunState, projection: Projection, ids: Ids)
    requires Built(log) && StateOf(log, run) == Some(before) && !before.IsTerminal()
    requires WriteEnd(log, conversation, run, state, projection, ids).Some?
    ensures var log' := WriteEnd(log, conversation, run, state, projection, ids).value;
      state.IsTerminal() && Wrote(log, log', run, state) && AllSettled(log', run)
  {
    hide Built, CommitOne, StateOf, Started, EndCommand, SettleTools, Sets;
    var tools := Started(log, run);
    SettleToolsOk(log, tools, conversation, run, ids);
    var settled := SettleTools(log, tools, conversation, run, ids).value;
    var c := EndCommand(conversation, run, state, projection, ids);
    EndCommandSets(conversation, run, state, projection, ids);
    SetterCommit(settled, c, before, state);
    CommitOneKeeps(settled, c);
    var log' := CommitOne(settled, c).value;
    if log' != settled {
      StartedStep(settled, c, run);
    }
    forall tool | tool in Started(log', run) ensures Settled(log', run, tool) {
      SettledStays(settled, log', run, tool);
    }
  }

  /** What an operation does to the state of a run, whatever the rest of its row says. */
  lemma StepStates(s: RunSnapshot, a: Action, active: bool)
    ensures var (next, projection) := Step(s, a, active);
      && (a.Claim? && next.fence > s.fence ==> s.state.Queued? && next.state.Running? && projection.None?)
      && (projection.Some? ==> (s.state.Queued? || s.state.Running?) && next.state.IsTerminal() && !a.Claim?)
      && (projection.None? && !(a.Claim? && next.fence > s.fence) ==> next.state == s.state)
      && (s.state.IsTerminal() ==> next == s && projection.None?)
  {
  }

  lemma WriteActionOk(log: Log, conversation: ConversationId, run: RunId, s: RunSnapshot, a: Action, active: bool, ids: Ids)
    requires Built(log) && StateOf(log, run) == Some(s.state)
    requires var (next, projection) := Step(s, a, active); WriteAction(log, conversation, run, s, a, next, projection, ids).Some?
    ensures var (next, projection) := Step(s, a, active);
      var log' := WriteAction(log, conversation, run, s, a, next, projection, ids).value;
      && Wrote(log, log', run, next.state)
      && (next.state.IsTerminal() && !s.state.IsTerminal() ==> AllSettled(log', run))
      && (s.state.IsTerminal() ==> log' == log)
  {
    StepStates(s, a, active);
    hide Built, CommitOne, StateOf, WriteEnd, Step, AllSettled;
    var (next, projection) := Step(s, a, active);
    if a.Claim? && next.fence > s.fence {
      var c := RunEvent(conversation, run, RunStateSet(Running), None, "started", ids);
      CommitOneKeeps(log, c);
      SetterCommit(log, c, Queued, Running);
    } else if a.Cancel? && next != s {
      var c := RunEvent(conversation, run, CancellationRequested, None, "cancel_requested", ids);
      CommitOneKeeps(log, c);
      NeutralCommit(log, c);
      if projection.Some? {
        WriteEndOk(CommitOne(log, c).value, conversation, run, s.state, next.state, projection.value, ids);
      }
    } else if projection.Some? {
      WriteEndOk(log, conversation, run, s.state, next.state, projection.value, ids);
    }
  }

  // ---- Every operation keeps rows and journals in agreement ----

  /** The row of a run is in the state its journal folds to. */
  predicate RowAgrees(row: RunRow, log: Log, run: RunId) {
    StateOf(log, run) == Some(row.snapshot.state)
  }

  ghost predicate StatesAgree(s: Store) {
    && (forall c :: c in s.logs ==> Built(s.logs[c]))
    && (forall run :: run in s.w.runs ==> RowAgrees(s.w.runs[run], LogOf(s, s.w.runs[run].conversation), run))
  }

  lemma LogIsBuilt(s: Store, conversation: ConversationId)
    requires StatesAgree(s)
    ensures Built(LogOf(s, conversation))
  {
  }

  /** One transaction of one run: its journal grows by records of the run, and its row follows. */
  lemma TransactionKeepsAgreement(s: Store, w': State, run: RunId, row: RunRow, log': Log)
    requires StatesAgree(s) && w'.runs == s.w.runs[run := row]
    requires run in s.w.runs ==> row.conversation == s.w.runs[run].conversation
    requires Built(log') && Grew(LogOf(s, row.conversation), log', run) && RowAgrees(row, log', run)
    ensures StatesAgree(Store(w', s.logs[row.conversation := log']))
  {
    hide Built, Grew, StateOf;
    forall other | other in s.w.runs && other != run && s.w.runs[other].conversation == row.conversation
      ensures RowAgrees(s.w.runs[other], log', other)
    {
      GrowthKeepsOthers(LogOf(s, row.conversation), log', run, other);
    }
  }

  /** A new record moves its run to the state that its plan says. */
  lemma AppendedMoves(log: Log, c: AppendCommand, state: RunState)
    requires Built(log) && CommitOne(log, c).Some? && CommitOne(log, c).value != log
    requires StateOf(log, c.runId) == Some(state)
    ensures CommitOne(log, c).value == log + [c]
    ensures MakePlan(c, Some(state)).Success?
    ensures StateOf(log + [c], c.runId) == Some(MakePlan(c, Some(state)).value.nextState)
  {
    CommitOneKeeps(log, c);
    assert (log + [c])[..|log|] == log && (log + [c])[|log|] == c;
    BuiltRecord(log + [c], |log|);
    hide Built, Validate;
  }

  lemma AppendKeepsAgreement(s: Store, c: AppendCommand, lease: Option<Lease>, now: i64, written: bool)
    requires StatesAgree(s)
    ensures StatesAgree(Append(s, c, lease, now, written))
  {
    var s' := Append(s, c, lease, now, written);
    var log := LogOf(s, c.conversationId);
    LogIsBuilt(s, c.conversationId);
    if s' != s {
      CommitOneKeeps(log, c);
      if c.runId in s.w.runs {
        hide Built, CommitOne, StatesAgree, MakePlan, StateOf, Validates, Grew;
        AgreementAt(s, c.runId);
        AppendedMoves(log, c, s.w.runs[c.runId].snapshot.state);
        TransactionKeepsAgreement(s, s'.w, c.runId, s'.w.runs[c.runId], log + [c]);
      } else {
        hide Built, CommitOne, MakePlan, StateOf, Validates, Grew;
        forall run | run in s.w.runs && s.w.runs[run].conversation == c.conversationId
          ensures RowAgrees(s.w.runs[run], CommitOne(log, c).value, run)
        {
          GrowthKeepsOthers(log, CommitOne(log, c).value, c.runId, run);
        }
      }
    }
  }

  lemma AgreementAt(s: Store, run: RunId)
    requires StatesAgree(s) && run in s.w.runs
    ensures StateOf(LogOf(s, s.w.runs[run].conversation), run) == Some(s.w.runs[run].snapshot.state)
  {
    assert RowAgrees(s.w.runs[run], LogOf(s, s.w.runs[run].conversation), run);
  }

  lemma WriteSubmissionOk(log: Log, c: SubmitCommand, ids: Ids)
    requires Built(log) && IsSubmission(c.submitted) && WriteSubmission(log, c, ids).Some?
    ensures Wrote(log, WriteSubmission(log, c, ids).value, c.submitted.runId, Queued)
  {
    var run := c.submitted.runId;
    CommitKeepsBuilt(log, c.submitted);
    var log' := Commit(log, c.submitted).value.0;
    assert log'[..|log|] == log && log'[|log|] == c.submitted;
    BuiltRecord(log', |log|);
    assert StateOf(log', run) == Some(Queued);
    var queued := RunEvent(c.submitted.conversationId, run, RunStateSet(Queued), None, "queued", ids);
    hide Built, StateOf, CommitOne;
    CommitOneKeeps(log', queued);
    QueuedCommit(log', queued);
  }

  lemma QueuedCommit(log: Log, c: AppendCommand)
    requires Built(log) && CommitOne(log, c).Some? && StateOf(log, c.runId) == Some(Queued)
    requires c.payload == Public(RunStateSet(Queued))
    ensures StateOf(CommitOne(log, c).value, c.runId) == Some(Queued)
  {
    var log' := CommitOne(log, c).value;
    CommitOneKeeps(log, c);
    if log' != log {
      assert log'[..|log|] == log && log'[|log|] == c;
    }
  }

  lemma NewSubmission(w: State, c: SubmitCommand)
    requires Answer(w, c).Success? && !Answer(w, c).value.duplicate
    ensures IsSubmission(c.submitted) && c.submitted.runId !in w.runs
    ensures Next(w, Submit(c)).runs == w.runs[c.submitted.runId := RunRow(c.submitted.conversationId, NewSnapshot(c))]
  {
    hide Validate, SameSubmission;
  }

  lemma SubmitKeepsAgreement(s: Store, c: SubmitCommand, ids: Ids)
    requires StatesAgree(s)
    ensures StatesAgree(Apply(s, Lifecycle(Submit(c), ids)))
  {
    hide Built, Answer, WriteSubmission, StatesAgree, StateOf, Grew;
    var s' := Apply(s, Lifecycle(Submit(c), ids));
    var log := LogOf(s, c.submitted.conversationId);
    LogIsBuilt(s, c.submitted.conversationId);
    if s' != s {
      NewSubmission(s.w, c);
      WriteSubmissionOk(log, c, ids);
      TransactionKeepsAgreement(s, s'.w, c.submitted.runId, RunRow(c.submitted.conversationId, NewSnapshot(c)),
                                WriteSubmission(log, c, ids).value);
    }
  }

  lemma ActKeepsAgreement(s: Store, run: RunId, action: Action, ids: Ids)
    requires StatesAgree(s) && run in s.w.runs
    ensures StatesAgree(Apply(s, Lifecycle(Act(run, action), ids)))
  {
    hide Built, WriteAction, Step, ConversationActive, StatesAgree, StateOf, Grew, AllSettled;
    var s' := Apply(s, Lifecycle(Act(run, action), ids));
    var row := s.w.runs[run];
    var log := LogOf(s, row.conversation);
    LogIsBuilt(s, row.conversation);
    AgreementAt(s, run);
    if s' != s {
      var active := ConversationActive(s.w, run);
      var (next, projection) := Step(row.snapshot, action, active);
      WriteActionOk(log, row.conversation, run, row.snapshot, action, active, ids);
      TransactionKeepsAgreement(s, s'.w, run, row.(snapshot := next),
                                WriteAction(log, row.conversation, run, row.snapshot, action, next, projection, ids).value);
    }
  }

  lemma ApplyKeepsAgreement(s: Store, op: Operation)
    requires StatesAgree(s)
    ensures StatesAgree(Apply(s, op))
  {
    hide StatesAgree;
    match op
    case AgentAppend(c, lease, now, written) => AppendKeepsAgreement(s, c, lease, now, written);
    case Lifecycle(Submit(c), ids) => SubmitKeepsAgreement(s, c, ids);
    case Lifecycle(Act(run, action), ids) =>
      if run in s.w.runs {
        ActKeepsAgreement(s, run, action, ids);
      }
  }

  lemma {:induction false} ApplyAllKeepsAgreement(s: Store, ops: seq<Operation>)
    requires StatesAgree(s)
    ensures StatesAgree(ApplyAll(s, ops))
    decreases |ops|
  {
    hide StatesAgree;
    if ops != [] {
      ApplyKeepsAgreement(s, ops[0]);
      ApplyAllKeepsAgreement(Apply(s, ops[0]), ops[1..]);
    }
  }

  // ---- Main result ----

  const NEW_STORE: Store := Store(EMPTY, map[])

  /** Whichever transactions commit and whichever abort, and whatever the agents append under
      their leases: every journal obeys its policy, and the row of every run is in the state its
      journal folds to. */
  lemma RowsAgreeWithJournals(ops: seq<Operation>, run: RunId)
    requires run in ApplyAll(NEW_STORE, ops).w.runs
    ensures var s := ApplyAll(NEW_STORE, ops);
      var log := LogOf(s, s.w.runs[run].conversation);
      Built(log) && StateOf(log, run) == Some(s.w.runs[run].snapshot.state)
  {
    ApplyAllKeepsAgreement(NEW_STORE, ops);
    var s := ApplyAll(NEW_STORE, ops);
    LogIsBuilt(s, s.w.runs[run].conversation);
    hide Built, StateOf, ApplyAll;
    AgreementAt(s, run);
  }
}
