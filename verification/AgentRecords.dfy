/** What the records that agents append under their leases do to the rest of the workspace. The
    journal and the run row always agree; that a run is running exactly when it is leased, that
    its ending is projected and that its tool calls are settled hangs on what agents append. */
module AgentRecords {
  import opened JsonText
  import opened Wrappers
  import opened Protocol
  import opened Journal
  import opened Lifecycle
  import opened Workspace
  import opened LifecycleJournal

  // ---- A healthy store ----

  /** Every ended run has a receipt for every tool call it has started. */
  ghost predicate EndingsSettled(s: Store) {
    forall run :: run in s.w.runs && s.w.runs[run].snapshot.state.IsTerminal() ==>
      AllSettled(LogOf(s, s.w.runs[run].conversation), run)
  }

  ghost predicate Healthy(s: Store) {
    StatesAgree(s) && Workspace.Inv(s.w) && EndingsSettled(s)
  }

  /** The record of a run in this state leaves the state as it is. */
  predicate KeepsState(c: AppendCommand, state: RunState) {
    StateNeutral(c) || c.payload == Public(RunStateSet(state))
  }

  // ---- Lifecycle operations keep it healthy ----

  /** What is written to one run leaves the settled calls of every other run alone. */
  lemma OthersStaySettled(log: Log, log': Log, run: RunId, other: RunId)
    requires Grew(log, log', run) && other != run && AllSettled(log, other)
    ensures AllSettled(log', other)
  {
    hide StateOf, Started;
    GrowthKeepsOthers(log, log', run, other);
    forall tool | tool in Started(log', other) ensures Settled(log', other, tool) {
      SettledStays(log, log', other, tool);
    }
  }

  lemma TransactionKeepsSettled(s: Store, w': State, run: RunId, row: RunRow, log': Log)
    requires EndingsSettled(s) && w'.runs == s.w.runs[run := row]
    requires run in s.w.runs ==> row.conversation == s.w.runs[run].conversation
    requires Grew(LogOf(s, row.conversation), log', run)
    requires row.snapshot.state.IsTerminal() ==> AllSettled(log', run)
    ensures EndingsSettled(Store(w', s.logs[row.conversation := log']))
  {
    hide Grew, AllSettled;
    forall other | other in s.w.runs && other != run && s.w.runs[other].conversation == row.conversation
      && s.w.runs[other].snapshot.state.IsTerminal()
      ensures AllSettled(log', other)
    {
      OthersStaySettled(LogOf(s, row.conversation), log', run, other);
    }
  }

  lemma SubmitKeepsHealthy(s: Store, c: SubmitCommand, ids: Ids)
    requires Healthy(s)
    ensures Healthy(Apply(s, Lifecycle(Submit(c), ids)))
  {
    hide Built, Answer, WriteSubmission, StatesAgree, Workspace.Inv, EndingsSettled, StateOf, Grew;
    var s' := Apply(s, Lifecycle(Submit(c), ids));
    ApplyKeepsAgreement(s, Lifecycle(Submit(c), ids));
    if s' != s {
      Workspace.NextKeepsInv(s.w, Submit(c));
      NewSubmission(s.w, c);
      LogIsBuilt(s, c.submitted.conversationId);
      WriteSubmissionOk(LogOf(s, c.submitted.conversationId), c, ids);
      TransactionKeepsSettled(s, s'.w, c.submitted.runId, RunRow(c.submitted.conversationId, NewSnapshot(c)),
                              WriteSubmission(LogOf(s, c.submitted.conversationId), c, ids).value);
    }
  }

  lemma ActKeepsHealthy(s: Store, run: RunId, action: Action, ids: Ids)
    requires Healthy(s) && run in s.w.runs
    ensures Healthy(Apply(s, Lifecycle(Act(run, action), ids)))
  {
    hide Built, WriteAction, Step, ConversationActive, StatesAgree, Workspace.Inv, EndingsSettled, StateOf, Grew, AllSettled;
    var s' := Apply(s, Lifecycle(Act(run, action), ids));
    ApplyKeepsAgreement(s, Lifecycle(Act(run, action), ids));
    if s' != s {
      var row, active := s.w.runs[run], ConversationActive(s.w, run);
      var log := LogOf(s, row.conversation);
      var (next, projection) := Step(row.snapshot, action, active);
      Workspace.NextKeepsInv(s.w, Act(run, action));
      LogIsBuilt(s, row.conversation);
      AgreementAt(s, run);
      WriteActionOk(log, row.conversation, run, row.snapshot, action, active, ids);
      StepStates(row.snapshot, action, active);
      SettledAt(s, run);
      TransactionKeepsSettled(s, s'.w, run, row.(snapshot := next),
                              WriteAction(log, row.conversation, run, row.snapshot, action, next, projection, ids).value);
    }
  }

  lemma SettledAt(s: Store, run: RunId)
    requires EndingsSettled(s) && run in s.w.runs
    ensures s.w.runs[run].snapshot.state.IsTerminal() ==> AllSettled(LogOf(s, s.w.runs[run].conversation), run)
  {
  }

  // ---- What an agent's record does ----

  lemma NeutralPlan(c: AppendCommand, state: RunState)
    requires MakePlan(c, Some(state)).Success? && KeepsState(c, state)
    ensures MakePlan(c, Some(state)).value.nextState == state && MakePlan(c, Some(state)).value.projection.None?
  {
    hide Validate;
  }

  lemma MovingPlan(c: AppendCommand, state: RunState)
    requires MakePlan(c, Some(state)).Success? && state.Running? && !KeepsState(c, state)
    ensures MakePlan(c, Some(state)).value.nextState.IsTerminal()
  {
    hide Validate;
  }

  /** An append that commits a new record of a run of the workspace, and what it does to its row. */
  lemma AppendOfRun(s: Store, c: AppendCommand, lease: Option<Lease>, now: i64, written: bool)
    requires StatesAgree(s) && c.runId in s.w.runs && Append(s, c, lease, now, written) != s
    ensures var s' := Append(s, c, lease, now, written);
      var row := s.w.runs[c.runId];
      && row.conversation == c.conversationId && row.snapshot.state.Running? && row.snapshot.lease.Some?
      && lease.Some? && Validates(row.snapshot, lease.value, now)
      && MakePlan(c, Some(Running)).Success?
      && var plan := MakePlan(c, Some(Running)).value;
      && s'.w.runs == s.w.runs[c.runId := row.(snapshot := row.snapshot.(state := plan.nextState))]
      && s'.w.requests == s.w.requests && s'.w.claims == s.w.claims
      && s'.w.projections == s.w.projections + (if plan.projection.Some? then [(c.runId, plan.projection.value)] else [])
      && s'.logs == s.logs[c.conversationId := LogOf(s, c.conversationId) + [c]]
      && Grew(LogOf(s, c.conversationId), LogOf(s, c.conversationId) + [c], c.runId)
  {
    hide Built, MakePlan, StateOf;
    LogIsBuilt(s, c.conversationId);
    CommitOneKeeps(LogOf(s, c.conversationId), c);
  }

  /** A record that leaves the state alone leaves a healthy store healthy. */
  lemma KeepingAppendIsHealthy(s: Store, c: AppendCommand, lease: Option<Lease>, now: i64, written: bool)
    requires Healthy(s) && c.runId in s.w.runs && Append(s, c, lease, now, written) != s
    requires KeepsState(c, s.w.runs[c.runId].snapshot.state)
    ensures Healthy(Append(s, c, lease, now, written))
  {
    hide StatesAgree, Workspace.Inv, EndingsSettled, Append, MakePlan, Grew, KeepsState;
    var s' := Append(s, c, lease, now, written);
    AppendKeepsAgreement(s, c, lease, now, written);
    AppendOfRun(s, c, lease, now, written);
    NeutralPlan(c, Running);
    var row := s.w.runs[c.runId];
    assert s.w.runs[c.runId := row] == s.w.runs && s.w.projections + [] == s.w.projections;
    assert s'.w == s.w;
    TransactionKeepsSettled(s, s.w, c.runId, row, LogOf(s, c.conversationId) + [c]);
  }

  /** A run that is over and still leased. */
  predicate Orphaned(s: Store, run: RunId) {
    run in s.w.runs && s.w.runs[run].snapshot.state.IsTerminal() && s.w.runs[run].snapshot.lease.Some?
  }

  lemma RunOfWorkspaceIsOk(w: State, run: RunId)
    requires Workspace.Inv(w) && run in w.runs
    ensures RunOk(w.runs[run].snapshot)
  {
  }

  lemma OrphanedIsUnhealthy(s: Store, run: RunId)
    requires Orphaned(s, run)
    ensures !Workspace.Inv(s.w)
  {
    hide Workspace.Inv;
    if Workspace.Inv(s.w) {
      RunOfWorkspaceIsOk(s.w, run);
    }
  }

  /** A record that moves the state ends the run and leaves it its lease. */
  lemma MovingAppendOrphans(s: Store, c: AppendCommand, lease: Option<Lease>, now: i64, written: bool)
    requires StatesAgree(s) && c.runId in s.w.runs && Append(s, c, lease, now, written) != s
    requires !KeepsState(c, s.w.runs[c.runId].snapshot.state)
    ensures Orphaned(Append(s, c, lease, now, written), c.runId)
  {
    hide StatesAgree, Append, MakePlan, Grew, KeepsState;
    AppendOfRun(s, c, lease, now, written);
    MovingPlan(c, Running);
  }

  lemma AppendLeavesOrphans(s: Store, c: AppendCommand, lease: Option<Lease>, now: i64, written: bool, run: RunId)
    requires StatesAgree(s) && Orphaned(s, run)
    ensures var s' := Append(s, c, lease, now, written); run in s'.w.runs && s'.w.runs[run] == s.w.runs[run]
  {
    hide StatesAgree, CommitOne, MakePlan, Validates, Grew;
    if c.runId in s.w.runs && Append(s, c, lease, now, written) != s {
      AppendOfRun(s, c, lease, now, written);
    }
  }

  lemma ActLeavesOrphans(s: Store, run: RunId, action: Action, ids: Ids, other: RunId)
    requires Orphaned(s, other) && run in s.w.runs
    ensures var s' := Apply(s, Lifecycle(Act(run, action), ids)); other in s'.w.runs && s'.w.runs[other] == s.w.runs[other]
  {
    hide WriteAction, ConversationActive, Step;
    StepStates(s.w.runs[run].snapshot, action, ConversationActive(s.w, run));
  }

  lemma SubmitLeavesOrphans(s: Store, c: SubmitCommand, ids: Ids, run: RunId)
    requires run in s.w.runs
    ensures var s' := Apply(s, Lifecycle(Submit(c), ids)); run in s'.w.runs && s'.w.runs[run] == s.w.runs[run]
  {
    hide Answer, WriteSubmission;
    if Apply(s, Lifecycle(Submit(c), ids)) != s {
      NewSubmission(s.w, c);
    }
  }

  /** No operation ever frees it: its owner's lease is refused, and expiry looks at running runs
      only. */
  lemma OrphanedStays(s: Store, op: Operation, run: RunId)
    requires StatesAgree(s) && Orphaned(s, run)
    ensures Orphaned(Apply(s, op), run) && Apply(s, op).w.runs[run] == s.w.runs[run]
  {
    hide StatesAgree, Append, Answer, WriteSubmission, WriteAction, Step, ConversationActive;
    match op
    case AgentAppend(c, lease, now, written) => AppendLeavesOrphans(s, c, lease, now, written, run);
    case Lifecycle(Submit(c), ids) => SubmitLeavesOrphans(s, c, ids, run);
    case Lifecycle(Act(r, action), ids) =>
      if r in s.w.runs {
        ActLeavesOrphans(s, r, action, ids, run);
      }
  }

  lemma {:induction false} OrphanedForGood(s: Store, ops: seq<Operation>, run: RunId)
    requires StatesAgree(s) && Orphaned(s, run)
    ensures Orphaned(ApplyAll(s, ops), run) && ApplyAll(s, ops).w.runs[run] == s.w.runs[run]
    decreases |ops|
  {
    hide StatesAgree, Orphaned, Apply;
    if ops != [] {
      ApplyKeepsAgreement(s, ops[0]);
      OrphanedStays(s, ops[0], run);
      OrphanedForGood(Apply(s, ops[0]), ops[1..], run);
    }
  }

  // ---- Main results ----

  /** What the store asks of a new record of a run of the workspace: it is new and the journal takes
      it, its author holds the run, and the rows beside the journal could be written. */
  predicate Accepted(s: Store, c: AppendCommand, lease: Option<Lease>, now: i64, written: bool)
    requires c.runId in s.w.runs
  {
    var log, row := LogOf(s, c.conversationId), s.w.runs[c.runId];
    && CommitOne(log, c).Some? && CommitOne(log, c).value != log
    && row.conversation == c.conversationId
    && lease.Some? && Validates(row.snapshot, lease.value, now)
    && written
  }

  lemma AcceptedChanges(s: Store, c: AppendCommand, lease: Option<Lease>, now: i64, written: bool)
    requires StatesAgree(s) && c.runId in s.w.runs
    ensures Append(s, c, lease, now, written) != s <==> Accepted(s, c, lease, now, written)
  {
    hide StatesAgree, Built, CommitOne, MakePlan, Validates, StateOf;
    if Accepted(s, c, lease, now, written) {
      LogIsBuilt(s, c.conversationId);
      AgreementAt(s, c.runId);
      AppendedMoves(LogOf(s, c.conversationId), c, s.w.runs[c.runId].snapshot.state);
      LogsDiffer(s, c.conversationId, LogOf(s, c.conversationId) + [c]);
    }
  }

  lemma LogsDiffer(s: Store, conversation: ConversationId, log: Log)
    requires log != LogOf(s, conversation)
    ensures s.logs[conversation := log] != s.logs
  {
    assert s.logs[conversation := log][conversation] == log;
  }

  /** An agent's record that is accepted and moves the state of its run. Its payload, the state the
      run is in and the guards of the store tell, before it is appended. */
  predicate Moves(s: Store, op: Operation) {
    && op.AgentAppend? && op.command.runId in s.w.runs
    && !KeepsState(op.command, s.w.runs[op.command.runId].snapshot.state)
    && Accepted(s, op.command, op.lease, op.now, op.written)
  }

  predicate Disciplined(s: Store, ops: seq<Operation>)
    decreases |ops|
  {
    ops == [] || (!Moves(s, ops[0]) && Disciplined(Apply(s, ops[0]), ops[1..]))
  }

  /** A record of no run of the workspace. */
  lemma ForeignAppendIsHealthy(s: Store, c: AppendCommand, lease: Option<Lease>, now: i64, written: bool)
    requires Healthy(s) && c.runId !in s.w.runs
    ensures Healthy(Append(s, c, lease, now, written))
  {
    AppendKeepsAgreement(s, c, lease, now, written);
    LogIsBuilt(s, c.conversationId);
    var log := LogOf(s, c.conversationId);
    var s' := Append(s, c, lease, now, written);
    if s' != s {
      CommitOneKeeps(log, c);
      hide StatesAgree, Workspace.Inv, CommitOne, Built, Grew, AllSettled, MakePlan;
      forall run | run in s.w.runs && s.w.runs[run].conversation == c.conversationId
        && s.w.runs[run].snapshot.state.IsTerminal()
        ensures AllSettled(CommitOne(log, c).value, run)
      {
        SettledAt(s, run);
        OthersStaySettled(log, CommitOne(log, c).value, c.runId, run);
      }
    }
  }

  /** One operation leaves a healthy store healthy exactly when it is not an agent's record that
      moves the state of its run. */
  lemma HealthyStep(s: Store, op: Operation)
    requires Healthy(s)
    ensures Healthy(Apply(s, op)) <==> !Moves(s, op)
    ensures Moves(s, op) ==> Orphaned(Apply(s, op), op.command.runId)
  {
    hide StatesAgree, Workspace.Inv, EndingsSettled, Append, KeepsState, Accepted, Answer, WriteSubmission, WriteAction, Step,
      ConversationActive, Orphaned;
    match op
    case AgentAppend(c, lease, now, written) =>
      if c.runId !in s.w.runs {
        ForeignAppendIsHealthy(s, c, lease, now, written);
        return;
      }
      AcceptedChanges(s, c, lease, now, written);
      if Append(s, c, lease, now, written) != s {
        if KeepsState(c, s.w.runs[c.runId].snapshot.state) {
          KeepingAppendIsHealthy(s, c, lease, now, written);
        } else {
          MovingAppendOrphans(s, c, lease, now, written);
          OrphanedIsUnhealthy(Append(s, c, lease, now, written), c.runId);
        }
      }
    case Lifecycle(Submit(c), ids) => SubmitKeepsHealthy(s, c, ids);
    case Lifecycle(Act(run, action), ids) =>
      if run in s.w.runs {
        ActKeepsHealthy(s, run, action, ids);
      }
  }

  /** Over whole runs: running means leased, at most one run of a conversation runs, endings are
      projected once and started calls are settled exactly as long as no agent commits a record
      that moves the state of its leased run. Once one does, that run keeps its lease for good. */
  lemma {:induction false} HealthyIffDisciplined(s: Store, ops: seq<Operation>)
    requires Healthy(s)
    ensures Healthy(ApplyAll(s, ops)) <==> Disciplined(s, ops)
    ensures !Disciplined(s, ops) ==> exists run :: Orphaned(ApplyAll(s, ops), run)
    decreases |ops|
  {
    hide Healthy, Moves, Apply, Orphaned;
    if ops != [] {
      HealthyStep(s, ops[0]);
      if Moves(s, ops[0]) {
        var run := MovedRun(s, ops[0]);
        OrphanedForGood(Apply(s, ops[0]), ops[1..], run);
        OrphanedIsNotHealthy(ApplyAll(s, ops), run);
      } else {
        HealthyIffDisciplined(Apply(s, ops[0]), ops[1..]);
      }
    }
  }

  lemma MovedRun(s: Store, op: Operation) returns (run: RunId)
    requires Healthy(s) && Moves(s, op)
    ensures Orphaned(Apply(s, op), run) && StatesAgree(Apply(s, op))
  {
    HealthyStep(s, op);
    ApplyKeepsAgreement(s, op);
    run := op.command.runId;
  }

  lemma OrphanedIsNotHealthy(s: Store, run: RunId)
    requires Orphaned(s, run)
    ensures !Healthy(s)
  {
    OrphanedIsUnhealthy(s, run);
  }

  lemma NewStoreIsHealthy()
    ensures Healthy(NEW_STORE)
  {
  }

  /** So without such a record every call that an ended run ever started has a receipt. */
  lemma EndedRunsAreSettled(ops: seq<Operation>, run: RunId, tool: ToolCallId)
    requires Disciplined(NEW_STORE, ops) && run in ApplyAll(NEW_STORE, ops).w.runs
    requires var s := ApplyAll(NEW_STORE, ops);
      s.w.runs[run].snapshot.state.IsTerminal() && tool in Started(LogOf(s, s.w.runs[run].conversation), run)
    ensures var s := ApplyAll(NEW_STORE, ops); Settled(LogOf(s, s.w.runs[run].conversation), run, tool)
  {
    NewStoreIsHealthy();
    HealthyIffDisciplined(NEW_STORE, ops);
    hide Disciplined, ApplyAll, Started, Settled, Workspace.Inv, StatesAgree;
    SettledAt(ApplyAll(NEW_STORE, ops), run);
  }

  // ---- A run that is over and holds its lease ----

  /** A failure that an agent records itself, with a call started and not answered: the run has
      failed, in its row and in its journal, and keeps its lease; the call gets no receipt, and
      nobody is told of an ending. */
  lemma FailureOrphans(s: Store, c: AppendCommand, lease: Lease, now: i64, tool: ToolCallId)
    requires Healthy(s) && c.runId in s.w.runs && s.w.runs[c.runId].conversation == c.conversationId
    requires c.payload.Public? && c.payload.public.FailedEvent? && Validates(s.w.runs[c.runId].snapshot, lease, now)
    requires CommitOne(LogOf(s, c.conversationId), c) == Some(LogOf(s, c.conversationId) + [c])
    requires tool in Started(LogOf(s, c.conversationId), c.runId) && !Settled(LogOf(s, c.conversationId), c.runId, tool)
    ensures var s' := Append(s, c, Some(lease), now, true);
      && s'.w.runs[c.runId].snapshot == s.w.runs[c.runId].snapshot.(state := Failed)
      && StateOf(LogOf(s', c.conversationId), c.runId) == Some(Failed)
      && Orphaned(s', c.runId)
      && tool in Started(LogOf(s', c.conversationId), c.runId) && !Settled(LogOf(s', c.conversationId), c.runId, tool)
      && !HasProjection(s'.w, c.runId)
  {
    hide StatesAgree, EndingsSettled, CommitOne, StateOf, MakePlan, Started, Settled, Built, Validates, HasProjection,
      Workspace.Inv;
    var log := LogOf(s, c.conversationId);
    var row := s.w.runs[c.runId];
    LogIsBuilt(s, c.conversationId);
    AgreementAt(s, c.runId);
    RunOfWorkspaceIsOk(s.w, c.runId);
    ValidatesRunning(row.snapshot, lease, now);
    assert log + [c] != log;
    AppendedMoves(log, c, Running);
    FailurePlan(c);
    StartedStep(log, c, c.runId);
    NoReceiptAdded(log, c, c.runId, tool);
    RunningHasNoProjection(s.w, c.runId);
    FailureApplied(s, c, lease, now);
  }

  lemma FailureApplied(s: Store, c: AppendCommand, lease: Lease, now: i64)
    requires c.runId in s.w.runs && s.w.runs[c.runId].conversation == c.conversationId
    requires Validates(s.w.runs[c.runId].snapshot, lease, now) && s.w.runs[c.runId].snapshot.state.Running?
    requires CommitOne(LogOf(s, c.conversationId), c) == Some(LogOf(s, c.conversationId) + [c])
    requires MakePlan(c, Some(Running)) == Success(Plan(Failed, None, None, None))
    ensures var row := s.w.runs[c.runId];
      Append(s, c, Some(lease), now, true)
        == Store(s.w.(runs := s.w.runs[c.runId := row.(snapshot := row.snapshot.(state := Failed))]),
                 s.logs[c.conversationId := LogOf(s, c.conversationId) + [c]])
  {
    hide CommitOne, MakePlan, Validates;
    assert LogOf(s, c.conversationId) + [c] != LogOf(s, c.conversationId);
  }

  lemma ValidatesRunning(s: RunSnapshot, lease: Lease, now: i64)
    requires Validates(s, lease, now)
    ensures s.state.Running? && s.lease.Some?
  {
  }

  lemma RunningHasNoProjection(w: State, run: RunId)
    requires Workspace.Inv(w) && run in w.runs && w.runs[run].snapshot.state.Running?
    ensures forall w': State :: w'.projections == w.projections ==> !HasProjection(w', run)
  {
    NoProjectionYet(w, run);
  }

  lemma FailurePlan(c: AppendCommand)
    requires MakePlan(c, Some(Running)).Success? && c.payload.Public? && c.payload.public.FailedEvent?
    ensures MakePlan(c, Some(Running)) == Success(Plan(Failed, None, None, None))
  {
    hide Validate;
  }

  lemma NoReceiptAdded(log: Log, c: AppendCommand, run: RunId, tool: ToolCallId)
    requires !Settled(log, run, tool) && ReceiptKeyOf(c).None?
    ensures !Settled(log + [c], run, tool)
  {
    assert (log + [c])[..|log|] == log;
  }
}
