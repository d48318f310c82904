/** The conversation journal: commits that deduplicate and apply `MakePlan`, the state a run has
    after any prefix, and the policy every journal built by commits obeys. */
module Journal {
  import opened Wrappers
  import opened Protocol

  // ---- Run state ----

  /** The state of a run after one more of its commands. */
  function Advance(state: Option<RunState>, c: AppendCommand): Option<RunState> {
    match MakePlan(c, state)
    case Success(plan) => Some(plan.nextState)
    case Failure(_) => state
  }

  function StateOf(log: seq<AppendCommand>, run: RunId): Option<RunState> {
    if log == [] then None
    else
      var last := log[|log| - 1];
      var before := StateOf(log[..|log| - 1], run);
      if last.runId == run then Advance(before, last) else before
  }

  // ---- Commit ----

  /** A usage record is unique per run and model call, a tool receipt per run and tool call. */
  datatype ReceiptKey = UsageKey(model: ModelCallId) | ToolKey(tool: ToolCallId)

  function ReceiptKeyOf(c: AppendCommand): Option<ReceiptKey> {
    match c.payload
    case Public(UsageRecorded(model, _, _)) => Some(UsageKey(model))
    case Public(ToolResult(tool, _, _)) => Some(ToolKey(tool))
    case Public(ToolOutcomeRecorded(tool, _, _, _)) => Some(ToolKey(tool))
    case _ => None
  }

  /** Two commands under one idempotency identity. */
  predicate SameEnvelope(a: AppendCommand, b: AppendCommand) {
    a.idempotencyKey == b.idempotencyKey || a.eventId == b.eventId
  }

  predicate HasReceipt(c: AppendCommand, run: RunId, key: ReceiptKey) {
    c.runId == run && ReceiptKeyOf(c) == Some(key)
  }

  predicate SameReceipt(a: AppendCommand, b: AppendCommand) {
    ReceiptKeyOf(b).Some? && HasReceipt(a, b.runId, ReceiptKeyOf(b).value)
  }

  function FindEnvelope(log: seq<AppendCommand>, c: AppendCommand): (r: Option<nat>)
    ensures r.Some? ==> r.value < |log| && SameEnvelope(log[r.value], c)
    ensures r.None? ==> forall i :: 0 <= i < |log| ==> !SameEnvelope(log[i], c)
  {
    if log == [] then None
    else
      var n := |log| - 1;
      var earlier := FindEnvelope(log[..n], c);
      if earlier.Some? then earlier else if SameEnvelope(log[n], c) then Some(n) else None
  }

  function FindReceipt(log: seq<AppendCommand>, run: RunId, key: ReceiptKey): (r: Option<nat>)
    ensures r.Some? ==> r.value < |log| && HasReceipt(log[r.value], run, key)
    ensures r.None? ==> forall i :: 0 <= i < |log| ==> !HasReceipt(log[i], run, key)
  {
    if log == [] then None
    else
      var n := |log| - 1;
      var earlier := FindReceipt(log[..n], run, key);
      if earlier.Some? then earlier else if HasReceipt(log[n], run, key) then Some(n) else None
  }

  datatype CommitError = Policy(policy: PolicyError) | Conflict
  datatype CommitReceipt = CommitReceipt(eventId: Id, sequence: int, duplicate: bool)

  /** One transaction of the store: validate, deduplicate, plan against the run's state, append. */
  function Commit(log: seq<AppendCommand>, c: AppendCommand): Result<(seq<AppendCommand>, CommitReceipt), CommitError> {
    match Validate(c)
    case Failure(error) => Failure(Policy(error))
    case Success(_) =>
      match FindEnvelope(log, c)
      case Some(i) =>
        if log[i] == c then Success((log, CommitReceipt(log[i].eventId, i + 1, true))) else Failure(Conflict)
      case None =>
        var receiptKey := ReceiptKeyOf(c);
        match if receiptKey.Some? then FindReceipt(log, c.runId, receiptKey.value) else None
        case Some(i) =>
          if log[i].payload == c.payload && log[i].detail == c.detail
          then Success((log, CommitReceipt(log[i].eventId, i + 1, true)))
          else Failure(Conflict)
        case None =>
          match MakePlan(c, StateOf(log, c.runId))
          case Failure(error) => Failure(Policy(error))
          case Success(_) =>
            if |log| >= MAX_I64 then Failure(Policy(TooLarge))
            else Success((log + [c], CommitReceipt(c.eventId, |log| + 1, false)))
  }

  /** The commit of `c` appended it. */
  predicate Appended(log: seq<AppendCommand>, c: AppendCommand) {
    var r := Commit(log, c);
    r.Success? && !r.value.1.duplicate
  }

  /** Every command of the journal got there through a commit. */
  ghost predicate Built(log: seq<AppendCommand>) {
    forall i {:trigger Appended(log[..i], log[i])} :: 0 <= i < |log| ==> Appended(log[..i], log[i])
  }

  // ---- What a commit answers ----

  /** One of the two identities of a command is taken by a record. */
  predicate Takes(record: AppendCommand, c: AppendCommand) {
    record.eventId == c.eventId || record.idempotencyKey == c.idempotencyKey
  }

  /** Both report the usage of one model call of a run, or the end of one tool call. */
  predicate ReportsTheSame(record: AppendCommand, c: AppendCommand) {
    && record.runId == c.runId && record.payload.Public? && c.payload.Public?
    && var p, q := record.payload.public, c.payload.public;
    || (p.UsageRecorded? && q.UsageRecorded? && p.modelCallId == q.modelCallId)
    || ((p.ToolResult? || p.ToolOutcomeRecorded?) && (q.ToolResult? || q.ToolOutcomeRecorded?) && p.toolCallId == q.toolCallId)
  }

  lemma SameReceiptReportsTheSame(a: AppendCommand, b: AppendCommand)
    ensures SameReceipt(a, b) <==> ReportsTheSame(a, b)
  {
  }

  /** A record is kept unique by the very receipt or usage key that its plan writes. */
  lemma PlansItsReceipt(c: AppendCommand, state: Option<RunState>)
    requires MakePlan(c, state).Success?
    ensures var plan := MakePlan(c, state).value;
      ReceiptKeyOf(c)
        == if plan.toolReceipt.Some? then Some(ToolKey(plan.toolReceipt.value.0))
           else if plan.usageKey.Some? then Some(UsageKey(plan.usageKey.value))
           else None
  {
    hide Validate;
  }

  /** What the journal answers to a valid command: a record under one of its identities, or else a
      report of the same call, answers it when it says the same and refuses it otherwise; a command
      that meets neither is appended under the next sequence, if its plan is accepted. */
  lemma CommitAnswers(log: seq<AppendCommand>, c: AppendCommand, i: nat)
    requires Built(log) && Validate(c).Success?
    ensures i < |log| && Takes(log[i], c) ==>
      Commit(log, c) == if log[i] == c then Success((log, CommitReceipt(c.eventId, i + 1, true))) else Failure(Conflict)
    ensures (forall j :: 0 <= j < |log| ==> !Takes(log[j], c)) && i < |log| && ReportsTheSame(log[i], c) ==>
      Commit(log, c)
        == if log[i].payload == c.payload && log[i].detail == c.detail
           then Success((log, CommitReceipt(log[i].eventId, i + 1, true)))
           else Failure(Conflict)
    ensures (forall j :: 0 <= j < |log| ==> !Takes(log[j], c) && !ReportsTheSame(log[j], c)) ==>
      Commit(log, c)
        == match MakePlan(c, StateOf(log, c.runId))
           case Failure(error) => Failure(Policy(error))
           case Success(_) =>
             if |log| < 0x7FFF_FFFF_FFFF_FFFF then Success((log + [c], CommitReceipt(c.eventId, |log| + 1, false)))
             else Failure(Policy(TooLarge))
  {
    hide Takes, ReportsTheSame, Built, Validate, MakePlan, StateOf, Commit;
    if i < |log| && Takes(log[i], c) {
      TakesIsSameEnvelope(log[i], c);
      Deduplication(log, i, c);
    } else if forall j :: 0 <= j < |log| ==> !Takes(log[j], c) {
      NothingTaken(log, c);
      if i < |log| && ReportsTheSame(log[i], c) {
        SameReceiptReportsTheSame(log[i], c);
        FirstReport(log, i, c);
        ReportAnswers(log, i, c);
      } else if forall j :: 0 <= j < |log| ==> !ReportsTheSame(log[j], c) {
        NoReport(log, c);
        NewIsPlanned(log, c);
      }
    }
  }

  lemma TakesIsSameEnvelope(a: AppendCommand, b: AppendCommand)
    ensures Takes(a, b) <==> SameEnvelope(a, b)
  {
  }

  lemma NothingTaken(log: seq<AppendCommand>, c: AppendCommand)
    requires forall j :: 0 <= j < |log| ==> !Takes(log[j], c)
    ensures FindEnvelope(log, c).None?
  {
    if FindEnvelope(log, c).Some? {
      TakesIsSameEnvelope(log[FindEnvelope(log, c).value], c);
    }
  }

  lemma ReportAnswers(log: seq<AppendCommand>, i: nat, c: AppendCommand)
    requires i < |log| && Validate(c).Success? && FindEnvelope(log, c).None?
    requires ReceiptKeyOf(c).Some? && FindReceipt(log, c.runId, ReceiptKeyOf(c).value) == Some(i)
    ensures Commit(log, c)
      == if log[i].payload == c.payload && log[i].detail == c.detail
         then Success((log, CommitReceipt(log[i].eventId, i + 1, true)))
         else Failure(Conflict)
  {
    hide Validate, MakePlan, StateOf, FindEnvelope, FindReceipt, SameEnvelope, HasReceipt, ReceiptKeyOf;
  }

  lemma NewIsPlanned(log: seq<AppendCommand>, c: AppendCommand)
    requires Validate(c).Success? && FindEnvelope(log, c).None?
    requires ReceiptKeyOf(c).Some? ==> FindReceipt(log, c.runId, ReceiptKeyOf(c).value).None?
    ensures Commit(log, c)
      == match MakePlan(c, StateOf(log, c.runId))
         case Failure(error) => Failure(Policy(error))
         case Success(_) =>
           if |log| < MAX_I64 then Success((log + [c], CommitReceipt(c.eventId, |log| + 1, false)))
           else Failure(Policy(TooLarge))
  {
    hide Validate, MakePlan, StateOf, FindEnvelope, FindReceipt, SameEnvelope, HasReceipt, ReceiptKeyOf;
  }

  lemma FirstReport(log: seq<AppendCommand>, i: nat, c: AppendCommand)
    requires Built(log) && i < |log| && SameReceipt(log[i], c)
    ensures ReceiptKeyOf(c).Some? && FindReceipt(log, c.runId, ReceiptKeyOf(c).value) == Some(i)
  {
    var j := FindReceipt(log, c.runId, ReceiptKeyOf(c).value).value;
    if i != j {
      BuiltUnique(log, i, j);
    }
  }

  lemma NoReport(log: seq<AppendCommand>, c: AppendCommand)
    requires forall j :: 0 <= j < |log| ==> !ReportsTheSame(log[j], c)
    ensures ReceiptKeyOf(c).Some? ==> FindReceipt(log, c.runId, ReceiptKeyOf(c).value).None?
  {
    if ReceiptKeyOf(c).Some? && FindReceipt(log, c.runId, ReceiptKeyOf(c).value).Some? {
      SameReceiptReportsTheSame(log[FindReceipt(log, c.runId, ReceiptKeyOf(c).value).value], c);
    }
  }

  // ---- What commits keep ----

  lemma CommitKeepsBuilt(log: seq<AppendCommand>, c: AppendCommand)
    requires Built(log)
    ensures Commit(log, c).Success? ==>
      var (log', receipt) := Commit(log, c).value;
      && Built(log')
      && log' == (if receipt.duplicate then log else log + [c])
      && 1 <= receipt.sequence <= |log'|
      && log'[receipt.sequence - 1].runId == c.runId
      && log'[receipt.sequence - 1].payload == c.payload
      && log'[receipt.sequence - 1].detail == c.detail
      && log'[receipt.sequence - 1].eventId == receipt.eventId
  {
    if Appended(log, c) {
      var log' := log + [c];
      forall i {:trigger Appended(log'[..i], log'[i])} | 0 <= i < |log'| ensures Appended(log'[..i], log'[i]) {
        assert log'[..i] == log[..i];
        assert i < |log| ==> log'[i] == log[i];
        assert log[..|log|] == log;
      }
    }
  }

  /** No two records share an idempotency identity or a receipt. */
  lemma BuiltUnique(log: seq<AppendCommand>, i: nat, j: nat)
    requires Built(log) && i < |log| && j < |log| && i != j
    ensures log[i].eventId != log[j].eventId && log[i].idempotencyKey != log[j].idempotencyKey
    ensures !ReportsTheSame(log[i], log[j])
  {
    var a, b := if i < j then i else j, if i < j then j else i;
    assert Appended(log[..b], log[b]);
    assert log[..b][a] == log[a];
    SameReceiptReportsTheSame(log[a], log[b]);
    SameReceiptReportsTheSame(log[b], log[a]);
    SameReceiptReportsTheSame(log[i], log[j]);
  }

  /** A record is committed once: offered again, at once or whatever was written since, it is
      acknowledged with the sequence it has and changes nothing. Anything else under one of its
      identities is a conflict. */
  lemma Deduplication(log: seq<AppendCommand>, i: nat, c: AppendCommand)
    requires Built(log) && i < |log| && SameEnvelope(log[i], c) && Validate(c).Success?
    ensures Commit(log, c)
      == if log[i] == c then Success((log, CommitReceipt(c.eventId, i + 1, true))) else Failure(Conflict)
  {
    var j := FindEnvelope(log, c).value;
    hide Validate;
    if j != i && (log[i] == c || log[j] == c) {
      BuiltUnique(log, i, j);
    }
  }

  /** Every record passed `Validate`, and its plan was accepted in the state its run then had. */
  lemma BuiltRecord(log: seq<AppendCommand>, i: nat)
    requires Built(log) && i < |log|
    ensures Validate(log[i]).Success?
    ensures MakePlan(log[i], StateOf(log[..i], log[i].runId)).Success?
    ensures i < MAX_I64
  {
    assert Appended(log[..i], log[i]);
  }

  lemma StateStep(log: seq<AppendCommand>, run: RunId, n: nat)
    requires n < |log|
    ensures StateOf(log[..n + 1], run)
      == if log[n].runId == run then Advance(StateOf(log[..n], run), log[n]) else StateOf(log[..n], run)
  {
    assert log[..n + 1][..n] == log[..n];
  }

  // ---- Journal policy ----

  predicate IsApproval(c: AppendCommand) {
    c.payload.Public? && c.payload.public.ApprovedAnswer?
  }

  /** `next` may follow `state` in the life of a run. */
  predicate Follows(state: RunState, next: RunState) {
    || next == state
    || (!state.IsTerminal() && !next.Queued?)
  }

  /** What one accepted command does to its run. */
  predicate Transition(before: Option<RunState>, c: AppendCommand, after: Option<RunState>) {
    && after.Some?
    && (before.None? <==> IsSubmission(c))
    && (before.None? ==> after.value.Queued?)
    && (before.Some? ==> !before.value.IsTerminal() && Follows(before.value, after.value))
    && (after.value.Completed? <==> IsApproval(c))
  }

  lemma AcceptedTransition(c: AppendCommand, state: Option<RunState>)
    requires MakePlan(c, state).Success?
    ensures Transition(state, c, Advance(state, c))
  {
  }

  /** `states[n]` is a state the run may have after the first n commands. */
  ghost predicate IsHistory(log: seq<AppendCommand>, run: RunId, states: seq<Option<RunState>>) {
    && |states| == |log| + 1
    && states[0].None?
    && forall n {:trigger log[n]} :: 0 <= n < |log| ==>
         if log[n].runId == run then Transition(states[n], log[n], states[n + 1]) else states[n + 1] == states[n]
  }

  /** The states of a run after each prefix of the journal. */
  function States(log: seq<AppendCommand>, run: RunId): (states: seq<Option<RunState>>)
    ensures |states| == |log| + 1
    ensures forall n :: 0 <= n <= |log| ==> states[n] == StateOf(log[..n], run)
  {
    seq(|log| + 1, n requires 0 <= n <= |log| => StateOf(log[..n], run))
  }

  lemma StatesAreHistory(log: seq<AppendCommand>, run: RunId)
    requires Built(log)
    ensures IsHistory(log, run, States(log, run))
    ensures States(log, run)[|log|] == StateOf(log, run)
  {
    forall n {:trigger log[n]} | 0 <= n < |log| && log[n].runId == run
      ensures Transition(StateOf(log[..n], run), log[n], StateOf(log[..n + 1], run))
    {
      StateStep(log, run, n);
      BuiltRecord(log, n);
      AcceptedTransition(log[n], StateOf(log[..n], run));
    }
    forall n {:trigger log[n]} | 0 <= n < |log| && log[n].runId != run
      ensures StateOf(log[..n + 1], run) == StateOf(log[..n], run)
    {
      StateStep(log, run, n);
    }
    assert log[..|log|] == log;
  }

  /** A run exists from its submission on, and moves only forward. */
  lemma {:induction false} HistoryMoves(log: seq<AppendCommand>, run: RunId, states: seq<Option<RunState>>, m: nat, n: nat)
    requires IsHistory(log, run, states) && m <= n <= |log|
    requires states[m].Some?
    ensures states[n].Some? && Follows(states[m].value, states[n].value)
    decreases n - m
  {
    if m < n {
      HistoryMoves(log, run, states, m, n - 1);
      assert log[n - 1].runId == run || states[n] == states[n - 1];
    }
  }

  /** A run has a state once it has a record, its first record is a submission, no other is. */
  lemma {:induction false} HistoryStart(log: seq<AppendCommand>, run: RunId, states: seq<Option<RunState>>, n: nat)
    requires IsHistory(log, run, states) && n <= |log|
    ensures states[n].None? <==> forall i :: 0 <= i < n ==> log[i].runId != run
    ensures n < |log| && log[n].runId == run ==> (IsSubmission(log[n]) <==> states[n].None?)
  {
    if n > 0 {
      HistoryStart(log, run, states, n - 1);
      assert log[n - 1].runId == run || states[n] == states[n - 1];
    }
  }

  /** A run is Completed exactly when it has an approved answer. */
  lemma {:induction false} HistoryCompleted(log: seq<AppendCommand>, run: RunId, states: seq<Option<RunState>>, n: nat)
    requires IsHistory(log, run, states) && n <= |log|
    ensures states[n] == Some(Completed) <==> exists i :: 0 <= i < n && log[i].runId == run && IsApproval(log[i])
  {
    if n > 0 {
      HistoryCompleted(log, run, states, n - 1);
      assert log[n - 1].runId == run || states[n] == states[n - 1];
    }
  }

  /** The states of a run at two watermarks: the later one follows the earlier one. */
  lemma StateMoves(log: seq<AppendCommand>, run: RunId, m: nat, n: nat)
    requires Built(log) && m <= n <= |log|
    requires StateOf(log[..m], run).Some?
    ensures StateOf(log[..n], run).Some?
    ensures Follows(StateOf(log[..m], run).value, StateOf(log[..n], run).value)
  {
    StatesAreHistory(log, run);
    HistoryMoves(log, run, States(log, run), m, n);
  }

  /** The journal as a public reader may see it. */
  function EraseRestricted(log: seq<AppendCommand>): seq<AppendCommand> {
    if log == [] then []
    else
      var n := |log| - 1;
      EraseRestricted(log[..n]) + (if log[n].payload.Public? then [log[n]] else [])
  }

  lemma RestrictedKeepsState(c: AppendCommand, state: Option<RunState>)
    requires c.payload.Restricted?
    ensures Advance(state, c) == state
  {
  }

  /** Restricted records never decide a run's state: erasing them leaves every state as it was. */
  lemma {:induction false} ErasureKeepsState(log: seq<AppendCommand>, run: RunId)
    ensures StateOf(EraseRestricted(log), run) == StateOf(log, run)
  {
    if log != [] {
      var n := |log| - 1;
      ErasureKeepsState(log[..n], run);
      if log[n].payload.Public? {
        var erased := EraseRestricted(log);
        assert erased[..|erased| - 1] == EraseRestricted(log[..n]) && erased[|erased| - 1] == log[n];
      } else {
        RestrictedKeepsState(log[n], StateOf(log[..n], run));
        assert EraseRestricted(log) == EraseRestricted(log[..n]);
      }
    }
  }

  /** The policy of a journal built by commits, for every run in it: the first record of a run
      is its only submission, nothing of the run follows a terminal state, Completed means an
      approved answer, and erasing restricted records leaves the state unchanged. */
  lemma JournalPolicy(log: seq<AppendCommand>, run: RunId, states: seq<Option<RunState>>)
    requires Built(log) && states == States(log, run)
    ensures forall j :: 0 <= j < |log| && log[j].runId == run ==>
      (IsSubmission(log[j]) <==> forall i :: 0 <= i < j ==> log[i].runId != run)
    ensures forall i, j {:trigger states[i], log[j]} ::
      0 <= i <= j < |log| && states[i].Some? && states[i].value.IsTerminal() ==> log[j].runId != run
    ensures StateOf(log, run) == Some(Completed)
      <==> exists i :: 0 <= i < |log| && log[i].runId == run && IsApproval(log[i])
    ensures StateOf(EraseRestricted(log), run) == StateOf(log, run)
  {
    StatesAreHistory(log, run);
    forall j | 0 <= j < |log| && log[j].runId == run
      ensures IsSubmission(log[j]) <==> forall i :: 0 <= i < j ==> log[i].runId != run
    {
      HistoryStart(log, run, states, j);
    }
    forall i, j {:trigger states[i], log[j]} | 0 <= i <= j < |log| && states[i].Some? && states[i].value.IsTerminal()
      ensures log[j].runId != run
    {
      HistoryMoves(log, run, states, i, j);
    }
    HistoryCompleted(log, run, states, |log|);
    ErasureKeepsState(log, run);
  }
}
