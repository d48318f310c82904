/** A run that is over, holds its lease and was never told of, reached from a new store by a
    submission, a claim, a call started under the lease, and a failure recorded under it. */
module OrphanExample {
  import opened JsonText
  import opened Wrappers
  import opened Protocol
  import opened Journal
  import opened Lifecycle
  import opened Workspace
  import opened LifecycleJournal
  import opened AgentRecords

  // ---- Records with short identities ----

  predicate Short(id: string) {
    1 <= |id| <= 16
  }

  lemma ShortIsValid(id: string)
    requires Short(id)
    ensures ValidIdentity(id) && ValidId(Plain(id)) && StringSize(id) <= 98
  {
    Utf8LenBounds(id);
    EscapeGrowth(id);
  }

  /** A record with short identities and a small payload. */
  lemma ShortRecordIsValid(c: AppendCommand)
    requires c.version == VERSION && Short(c.conversationId) && Short(c.runId)
    requires c.eventId.Plain? && Short(c.eventId.text)
    requires c.idempotencyKey.Plain? ==> Short(c.idempotencyKey.text)
    requires c.detail.None? && PayloadDetail(c.payload).None? && PayloadIdentitiesValid(c.payload)
    requires PayloadSize(c.payload) <= 1000
    ensures Validate(c).Success?
  {
    ShortIsValid(c.conversationId);
    ShortIsValid(c.runId);
    ShortIsValid(c.eventId.text);
    if c.idempotencyKey.Plain? {
      ShortIsValid(c.idempotencyKey.text);
    }
    assert Decimal(1) == [Digit(1)];
    hide EscapedLen, Utf8Len, PayloadSize;
  }

  /** A record under identities that the journal does not have is appended. */
  lemma FreshCommit(log: Log, c: AppendCommand, state: Option<RunState>)
    requires Validate(c).Success? && ReceiptKeyOf(c).None? && |log| < 100
    requires forall i :: 0 <= i < |log| ==> !SameEnvelope(log[i], c)
    requires StateOf(log, c.runId) == state && MakePlan(c, state).Success?
    ensures Commit(log, c) == Success((log + [c], CommitReceipt(c.eventId, |log| + 1, false)))
    ensures CommitOne(log, c) == Some(log + [c])
    ensures StateOf(log + [c], c.runId) == Some(MakePlan(c, state).value.nextState)
  {
    hide Validate;
    assert (log + [c])[..|log|] == log;
  }

  // ---- The run ----

  function Record(id: string, payload: PublicPayload): AppendCommand {
    AppendCommand(VERSION, "c", "r", Plain(id), Plain(id), Public(payload), None)
  }

  const FIRST: SubmitCommand :=
    SubmitCommand(Record("1", Submitted("u", Text("", None))), "a", "q", Json(""), ActorIdentity("p", "s"), 0, true)
  const LEASE: Lease := Lease("o", 1, 11)
  const QUEUED_RECORD: AppendCommand := RunEvent("c", "r", RunStateSet(Queued), None, "queued", map["queued" := Plain("2")])
  const STARTED_RECORD: AppendCommand := RunEvent("c", "r", RunStateSet(Running), None, "started", map["started" := Plain("3")])
  const TOOL_RECORD: AppendCommand := Record("4", ToolStarted("t"))
  const FAILED_RECORD: AppendCommand := Record("5", FailedEvent(Text("", None)))

  const EXAMPLE: seq<Operation> := [
    Lifecycle(Submit(FIRST), map["queued" := Plain("2")]),
    Lifecycle(Act("r", Claim("o", 1, 10)), map["started" := Plain("3")]),
    AgentAppend(TOOL_RECORD, Some(LEASE), 2, true),
    AgentAppend(FAILED_RECORD, Some(LEASE), 2, true)]

  lemma ExampleRecords()
    ensures Validate(FIRST.submitted).Success? && Validate(QUEUED_RECORD).Success? && Validate(STARTED_RECORD).Success?
    ensures Validate(TOOL_RECORD).Success? && Validate(FAILED_RECORD).Success?
  {
    ExampleStateRecords();
    ShortIsValid("u");
    ShortIsValid("t");
    assert EscapedLen("") == 0;
    hide EscapedLen, Utf8Len, ValidIdentity, Validate, CommandSize, RunEvent;
    ShortRecordIsValid(FIRST.submitted);
    ShortRecordIsValid(TOOL_RECORD);
    ShortRecordIsValid(FAILED_RECORD);
  }

  lemma ExampleStateRecords()
    ensures Validate(QUEUED_RECORD).Success? && Validate(STARTED_RECORD).Success?
  {
    hide EscapedLen, Utf8Len, ValidIdentity, Validate, CommandSize;
    ShortRecordIsValid(QUEUED_RECORD);
    ShortRecordIsValid(STARTED_RECORD);
  }

  const SUBMITTED: Log := [FIRST.submitted, QUEUED_RECORD]
  const CLAIMED: Log := SUBMITTED + [STARTED_RECORD]
  const CALLED: Log := CLAIMED + [TOOL_RECORD]

  lemma ExampleSubmission()
    ensures Commit([], FIRST.submitted).Success? && !Commit([], FIRST.submitted).value.1.duplicate
    ensures Commit([], FIRST.submitted).value.0 == [FIRST.submitted]
    ensures CommitOne([FIRST.submitted], QUEUED_RECORD) == Some(SUBMITTED)
    ensures StateOf(SUBMITTED, "r") == Some(Queued)
  {
    ExampleRecords();
    hide Validate;
    FreshCommit([], FIRST.submitted, None);
    FreshCommit([FIRST.submitted], QUEUED_RECORD, Some(Queued));
    assert [FIRST.submitted] + [QUEUED_RECORD] == SUBMITTED;
  }

  lemma ExampleClaim()
    ensures CommitOne(SUBMITTED, STARTED_RECORD) == Some(CLAIMED)
    ensures StateOf(CLAIMED, "r") == Some(Running)
  {
    ExampleRecords();
    ExampleSubmission();
    hide Validate, StateOf;
    FreshCommit(SUBMITTED, STARTED_RECORD, Some(Queued));
  }

  lemma ExampleCall()
    ensures CommitOne(CLAIMED, TOOL_RECORD) == Some(CALLED)
    ensures StateOf(CALLED, "r") == Some(Running)
    ensures "t" in Started(CALLED, "r") && !Settled(CALLED, "r", "t")
  {
    ExampleRecords();
    ExampleClaim();
    hide Validate, StateOf;
    FreshCommit(CLAIMED, TOOL_RECORD, Some(Running));
    assert CALLED[..|CALLED| - 1] == CLAIMED;
  }

  lemma ExampleFailure()
    ensures CommitOne(CALLED, FAILED_RECORD) == Some(CALLED + [FAILED_RECORD])
  {
    ExampleRecords();
    ExampleCall();
    hide Validate, StateOf;
    FreshCommit(CALLED, FAILED_RECORD, Some(Running));
  }

  lemma ExampleSubmitted()
    ensures Apply(NEW_STORE, EXAMPLE[0])
      == Store(State(map["r" := RunRow("c", NewSnapshot(FIRST))], map[KeyOf(FIRST) := FIRST], [], []), map["c" := SUBMITTED])
  {
    ExampleRecords();
    ShortIsValid("a");
    ShortIsValid("q");
    ShortIsValid("p");
    ShortIsValid("s");
    ExampleSubmission();
    hide Validate, EscapedLen, ValidIdentity, Commit, CommitOne;
  }

  /** A run alone in its workspace is not blocked. */
  lemma NobodyAhead(w: State)
    requires w.runs.Keys == {"r"} && w.runs["r"].snapshot.state.Queued?
    ensures !ConversationActive(w, "r")
  {
    assert !Less("r"[1..], "r"[1..]);
  }

  const LEASED: RunSnapshot := RunSnapshot(Running, Some(LEASE), false, "a", 1, 0, Some(1), None)

  lemma ExampleStep()
    ensures Step(NewSnapshot(FIRST), Claim("o", 1, 10), false) == (LEASED, None)
    ensures NewSnapshot(FIRST).state.Queued? && NewSnapshot(FIRST).fence == 0
  {
    ShortIsValid("o");
    hide ValidIdentity;
  }

  lemma ExampleClaimed(s: Store)
    requires s.w.runs == map["r" := RunRow("c", NewSnapshot(FIRST))] && LogOf(s, "c") == SUBMITTED
    ensures var s' := Apply(s, EXAMPLE[1]);
      s'.w.runs == map["r" := RunRow("c", LEASED)] && LogOf(s', "c") == CLAIMED
  {
    ExampleStep();
    ExampleClaim();
    hide CommitOne, StateOf, ConversationActive, Step, NewSnapshot;
    NobodyAhead(s.w);
  }

  lemma ExampleCalled(s: Store)
    requires s.w.runs == map["r" := RunRow("c", LEASED)] && LogOf(s, "c") == CLAIMED
    ensures var s' := Apply(s, EXAMPLE[2]);
      s'.w.runs == map["r" := RunRow("c", LEASED)] && LogOf(s', "c") == CALLED
  {
    ExampleRecords();
    ExampleCall();
    hide CommitOne, StateOf, Validate;
    assert CALLED != CLAIMED;
  }

  /** The store before the failure. */
  lemma ExampleCalledStore() returns (s: Store)
    ensures s == Apply(Apply(Apply(NEW_STORE, EXAMPLE[0]), EXAMPLE[1]), EXAMPLE[2])
    ensures Healthy(s) && s.w.runs == map["r" := RunRow("c", LEASED)] && LogOf(s, "c") == CALLED
  {
    hide Healthy, CommitOne;
    var s1 := Apply(NEW_STORE, EXAMPLE[0]);
    var s2 := Apply(s1, EXAMPLE[1]);
    s := Apply(s2, EXAMPLE[2]);
    ExampleSubmitted();
    hide Apply;
    ExampleClaimed(s1);
    ExampleCalled(s2);
    NewStoreIsHealthy();
    HealthyStep(NEW_STORE, EXAMPLE[0]);
    HealthyStep(s1, EXAMPLE[1]);
    HealthyStep(s2, EXAMPLE[2]);
    LeaseKeepingMoves(s2);
  }

  lemma LeaseKeepingMoves(s: Store)
    requires s.w.runs == map["r" := RunRow("c", LEASED)]
    ensures !Moves(NEW_STORE, EXAMPLE[0]) && !Moves(s, EXAMPLE[1]) && !Moves(s, EXAMPLE[2])
  {
  }

  lemma LastOfExample(s: Store)
    requires Healthy(s) && s.w.runs == map["r" := RunRow("c", LEASED)] && LogOf(s, "c") == CALLED
    ensures var s' := Apply(s, EXAMPLE[3]);
      && Orphaned(s', "r") && !HasProjection(s'.w, "r")
      && "t" in Started(LogOf(s', "c"), "r") && !Settled(LogOf(s', "c"), "r", "t")
  {
    hide Healthy, StateOf, Started, Settled, CommitOne, Append;
    ExampleCall();
    ExampleFailure();
    FailureOrphans(s, FAILED_RECORD, LEASE, 2, "t");
  }

  /** From a new store on. */
  lemma OrphanIsReached()
    ensures var s := ApplyAll(NEW_STORE, EXAMPLE);
      && Orphaned(s, "r") && !HasProjection(s.w, "r")
      && "t" in Started(LogOf(s, "c"), "r") && !Settled(LogOf(s, "c"), "r", "t")
  {
    hide Apply, Healthy, StateOf, Started, Settled, Orphaned, HasProjection;
    var s := ExampleCalledStore();
    LastOfExample(s);
    ApplyFour(NEW_STORE, EXAMPLE);
  }

  lemma ApplyFour(s: Store, ops: seq<Operation>)
    requires |ops| == 4
    ensures ApplyAll(s, ops) == Apply(Apply(Apply(Apply(s, ops[0]), ops[1]), ops[2]), ops[3])
  {
    hide Apply;
    var s1 := Apply(s, ops[0]);
    var s2 := Apply(s1, ops[1]);
    var s3 := Apply(s2, ops[2]);
    assert ApplyAll(s, ops) == ApplyAll(s1, ops[1..]);
    assert ApplyAll(s1, ops[1..]) == ApplyAll(s2, ops[1..][1..]);
    assert ApplyAll(s2, ops[1..][1..]) == ApplyAll(s3, ops[1..][1..][1..]);
    assert ApplyAll(s3, ops[1..][1..][1..]) == Apply(s3, ops[3]);
  }
}
