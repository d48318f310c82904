/** The version 1 command protocol: identities, payloads, size limits, `validate` and `plan`. */
module Protocol {
  import opened JsonText
  import opened Wrappers

  const VERSION: u16 := 1
  const MAX_EVENT_BYTES: nat := 64 * 1024
  const MAX_IDENTITY_BYTES: nat := 128
  const MAX_DETAIL_BYTES: nat := 2 * 1024 * 1024
  const MAX_REPLAY_EVENTS: nat := 100
  const MAX_REPLAY_BYTES: nat := 1024 * 1024
  const MAX_I64: int := 0x7FFF_FFFF_FFFF_FFFF
  const MAX_U64: int := 0xFFFF_FFFF_FFFF_FFFF

  type u16 = x: int | 0 <= x < 0x1_0000
  type u64 = x: int | 0 <= x <= 0xFFFF_FFFF_FFFF_FFFF
  type i64 = x: int | -0x8000_0000_0000_0000 <= x <= 0x7FFF_FFFF_FFFF_FFFF

  type ConversationId = string
  type RunId = string
  type MessageId = string
  type ModelCallId = string
  type ToolCallId = string

  /** An envelope identity: a string somebody chose, or the hexadecimal SHA-256 digest of a
      text. Digests of different texts are different values: the hash is taken as injective. */
  datatype Id = Plain(text: string) | Digest(preimage: string) {
    function Len(): nat {
      match this
      case Plain(text) => Utf8Len(text)
      case Digest(_) => 64
    }

    function Size(): nat {
      match this
      case Plain(text) => StringSize(text)
      case Digest(_) => 66
    }
  }

  datatype RunState = Queued | Running | Completed | Failed | Cancelled | Interrupted {
    predicate IsTerminal() {
      !Queued? && !Running?
    }

    function AsStr(): string {
      match this
      case Queued => "queued"
      case Running => "running"
      case Completed => "completed"
      case Failed => "failed"
      case Cancelled => "cancelled"
      case Interrupted => "interrupted"
    }
  }

  datatype Text = Text(preview: string, detail: Option<Id>)
  datatype Usage = Usage(inputTokens: u64, outputTokens: u64)
  datatype RecordedRole = AssistantRole | ToolRole
  datatype TransportOutcome = TransportCompleted | TransportFailed | TransportUnknown
  datatype DomainOutcome = Succeeded | Rejected | DomainUnknown

  datatype PublicPayload =
    | Submitted(messageId: MessageId, text: Text)
    | RunStateSet(state: RunState)
    | ModelResponse(modelCallId: ModelCallId, text: Text)
    | MessageRecorded(messageId: MessageId, role: RecordedRole, text: Text,
                      toolCall: Option<ToolCallId>, name: Option<string>, toolCalls: Option<Json>)
    | Planning(text: Text)
    | ToolIntent(toolCallId: ToolCallId, toolName: string, arguments: Json)
    | ToolStarted(toolCallId: ToolCallId)
    | ToolResult(toolCallId: ToolCallId, text: Text, succeeded: bool)
    | ToolOutcomeRecorded(toolCallId: ToolCallId, text: Text, transport: TransportOutcome, domain: DomainOutcome)
    | UsageRecorded(modelCallId: ModelCallId, usage: Usage, cost: Option<Json>)
    | Validation(passed: bool, text: Text)
    | ApprovedAnswer(messageId: MessageId, text: Text)
    | CancellationRequested
    | CancelledEvent
    | FailedEvent(text: Text)
    | InterruptedEvent(text: Text)
  {
    function TextOf(): Option<Text> {
      match this
      case Submitted(_, text) => Some(text)
      case ModelResponse(_, text) => Some(text)
      case MessageRecorded(_, _, text, _, _, _) => Some(text)
      case Planning(text) => Some(text)
      case ToolResult(_, text, _) => Some(text)
      case ToolOutcomeRecorded(_, text, _, _) => Some(text)
      case Validation(_, text) => Some(text)
      case ApprovedAnswer(_, text) => Some(text)
      case InterruptedEvent(text) => Some(text)
      case FailedEvent(text) => Some(text)
      case _ => None
    }
  }

  datatype RestrictedPayload =
    | ProviderResponse(modelCallId: ModelCallId, response: Json, continuation: Json)
    | Candidate(modelCallId: ModelCallId, text: string)

  datatype Payload = Public(public: PublicPayload) | Restricted(restricted: RestrictedPayload)

  datatype AppendCommand = AppendCommand(
    version: u16,
    conversationId: ConversationId,
    runId: RunId,
    eventId: Id,
    idempotencyKey: Id,
    payload: Payload,
    detail: Option<string>)

  predicate IsSubmission(c: AppendCommand) {
    c.payload.Public? && c.payload.public.Submitted?
  }

  datatype Projection = Projection(messageId: MessageId, role: string, content: string, status: string)
  datatype Plan = Plan(
    nextState: RunState,
    projection: Option<Projection>,
    toolReceipt: Option<(ToolCallId, bool)>,
    usageKey: Option<ModelCallId>)

  datatype PolicyError =
    | UnsupportedVersion
    | IdempotencyConflict
    | InvalidIdentity
    | InvalidSubmission
    | Terminal
    | InvalidState
    | TooLarge
    | InvalidDetail

  // ---- Serialized sizes, in bytes. Each constant is the length of the fixed text beside it. ----

  function OptionSize(s: Option<string>): nat {
    if s.Some? then StringSize(s.value) else 4 // null
  }

  function JsonSize(j: Option<Json>): nat {
    if j.Some? then Utf8Len(j.value.text) else 4 // null
  }

  function BoolSize(b: bool): nat {
    if b then 4 else 5
  }

  function TextSize(t: Text): nat {
    22 // {"preview":,"detail":}
    + StringSize(t.preview) + (if t.detail.Some? then t.detail.value.Size() else 4)
  }

  function PublicSize(p: PublicPayload): nat {
    match p
    case Submitted(id, text) => 42 /* {"kind":"submitted","message_id":,"text":} */ + StringSize(id) + TextSize(text)
    case RunStateSet(state) => 31 /* {"kind":"run_state","state":""} */ + |state.AsStr()|
    case ModelResponse(id, text) => 50 /* {"kind":"model_response","model_call_id":,"text":} */ + StringSize(id) + TextSize(text)
    case MessageRecorded(id, role, text, call, name, calls) =>
      95 // {"kind":"message_recorded","message_id":,"role":,"text":,"tool_call_id":,"name":,"tool_calls":}
      + StringSize(id) + (if role.ToolRole? then 6 else 11) + TextSize(text)
      + OptionSize(call) + OptionSize(name) + JsonSize(calls)
    case Planning(text) => 27 /* {"kind":"planning","text":} */ + TextSize(text)
    case ToolIntent(id, name, arguments) =>
      59 // {"kind":"tool_intent","tool_call_id":,"name":,"arguments":}
      + StringSize(id) + StringSize(name) + Utf8Len(arguments.text)
    case ToolStarted(id) => 39 /* {"kind":"tool_started","tool_call_id":} */ + StringSize(id)
    case ToolResult(id, text, succeeded) =>
      59 // {"kind":"tool_result","tool_call_id":,"text":,"succeeded":}
      + StringSize(id) + TextSize(text) + BoolSize(succeeded)
    case ToolOutcomeRecorded(id, text, transport, domain) =>
      70 // {"kind":"tool_outcome","tool_call_id":,"text":,"transport":,"domain":}
      + StringSize(id) + TextSize(text)
      + (match transport case TransportCompleted => 11 case TransportFailed => 8 case TransportUnknown => 9)
      + (match domain case Succeeded => 11 case Rejected => 10 case DomainUnknown => 9)
    case UsageRecorded(id, usage, cost) =>
      84 // {"kind":"usage","model_call_id":,"usage":{"input_tokens":,"output_tokens":},"cost":}
      + StringSize(id) + IntegerSize(usage.inputTokens) + IntegerSize(usage.outputTokens) + JsonSize(cost)
    case Validation(passed, text) => 39 /* {"kind":"validation","passed":,"text":} */ + BoolSize(passed) + TextSize(text)
    case ApprovedAnswer(id, text) => 48 /* {"kind":"approved_answer","message_id":,"text":} */ + StringSize(id) + TextSize(text)
    case CancellationRequested => 33 /* {"kind":"cancellation_requested"} */
    case CancelledEvent => 20 /* {"kind":"cancelled"} */
    case FailedEvent(text) => 25 /* {"kind":"failed","text":} */ + TextSize(text)
    case InterruptedEvent(text) => 30 /* {"kind":"interrupted","text":} */ + TextSize(text)
  }

  function RestrictedSize(p: RestrictedPayload): nat {
    match p
    case ProviderResponse(id, response, continuation) =>
      73 // {"kind":"provider_response","model_call_id":,"response":,"continuation":}
      + StringSize(id) + Utf8Len(response.text) + Utf8Len(continuation.text)
    case Candidate(id, text) => 45 /* {"kind":"candidate","model_call_id":,"text":} */ + StringSize(id) + StringSize(text)
  }

  /** A payload is serialized with its visibility around it. */
  function PayloadSize(p: Payload): nat {
    match p
    case Public(public) => 34 /* {"visibility":"public","payload":} */ + PublicSize(public)
    case Restricted(restricted) => 38 /* {"visibility":"restricted","payload":} */ + RestrictedSize(restricted)
  }

  function CommandSize(c: AppendCommand): nat {
    93 // {"version":,"conversation_id":,"run_id":,"event_id":,"idempotency_key":,"payload":,"detail":}
    + IntegerSize(c.version) + StringSize(c.conversationId) + StringSize(c.runId)
    + c.eventId.Size() + c.idempotencyKey.Size() + PayloadSize(c.payload) + OptionSize(c.detail)
  }

  // ---- validate ----

  predicate ValidIdentity(id: string) {
    0 < Utf8Len(id) <= MAX_IDENTITY_BYTES
  }

  predicate ValidId(id: Id) {
    0 < id.Len() <= MAX_IDENTITY_BYTES
  }

  /** The identities inside a payload that must be well-formed. */
  predicate PayloadIdentitiesValid(payload: Payload) {
    match payload
    case Public(p) =>
      (match p
       case Submitted(id, _) => ValidIdentity(id)
       case ApprovedAnswer(id, _) => ValidIdentity(id)
       case MessageRecorded(id, _, _, call, _, _) => ValidIdentity(id) && (call.Some? ==> ValidIdentity(call.value))
       case ModelResponse(id, _) => ValidIdentity(id)
       case UsageRecorded(id, _, _) => ValidIdentity(id)
       case ToolIntent(id, _, _) => ValidIdentity(id)
       case ToolStarted(id) => ValidIdentity(id)
       case ToolResult(id, _, _) => ValidIdentity(id)
       case ToolOutcomeRecorded(id, _, _, _) => ValidIdentity(id)
       case _ => true)
    case Restricted(p) => ValidIdentity(p.modelCallId)
  }

  function PayloadDetail(payload: Payload): Option<Id> {
    match payload
    case Public(p) => if p.TextOf().Some? then p.TextOf().value.detail else None
    case Restricted(_) => None
  }

  function Validate(c: AppendCommand): Result<(), PolicyError> {
    if c.version != VERSION then Failure(UnsupportedVersion)
    else if !ValidIdentity(c.conversationId) || !ValidIdentity(c.runId) || !ValidId(c.eventId) || !ValidId(c.idempotencyKey) then
      Failure(InvalidIdentity)
    else if CommandSize(c) > MAX_DETAIL_BYTES + MAX_EVENT_BYTES then Failure(TooLarge)
    else if PayloadSize(c.payload) > (if c.payload.Restricted? then MAX_DETAIL_BYTES else MAX_EVENT_BYTES) then
      Failure(TooLarge)
    else if PayloadDetail(c.payload).Some? != c.detail.Some? then Failure(InvalidDetail)
    else if c.detail.Some? && Utf8Len(c.detail.value) > MAX_DETAIL_BYTES then Failure(TooLarge)
    else if !PayloadIdentitiesValid(c.payload) then Failure(InvalidIdentity)
    else if PayloadDetail(c.payload).Some? && !ValidId(PayloadDetail(c.payload).value) then Failure(InvalidIdentity)
    else Success(())
  }

  // ---- plan ----

  /** The text a reader gets: the detail body when there is one, otherwise the preview. */
  function FullText(text: Text, detail: Option<string>): string {
    if detail.Some? then detail.value else text.preview
  }

  function MakePlan(c: AppendCommand, current: Option<RunState>): Result<Plan, PolicyError> {
    var _ :- Validate(c);
    var same := Plan(if current.Some? then current.value else Queued, None, None, None);
    match c.payload
    case Restricted(_) =>
      if current.None? then Failure(InvalidSubmission)
      else if current.value.IsTerminal() then Failure(Terminal)
      else Success(same)
    case Public(p) =>
      if p.Submitted? then
        if current.Some? then Failure(InvalidSubmission)
        else Success(same.(projection := Some(Projection(p.messageId, "user", FullText(p.text, c.detail), "complete"))))
      else if current.None? then Failure(InvalidSubmission)
      else if current.value.IsTerminal() then Failure(Terminal)
      else PlanPublic(c, p, current.value, same)
  }

  function PlanPublic(c: AppendCommand, p: PublicPayload, state: RunState, same: Plan): Result<Plan, PolicyError> {
    match p
    case RunStateSet(next) =>
      if (next.Queued? && !state.Queued?) || next.Completed? then Failure(InvalidState)
      else Success(same.(nextState := next))
    case ApprovedAnswer(id, text) =>
      Success(same.(nextState := Completed,
                    projection := Some(Projection(id, "assistant", FullText(text, c.detail), "complete"))))
    case CancelledEvent => Success(same.(nextState := Cancelled))
    case FailedEvent(_) => Success(same.(nextState := Failed))
    case InterruptedEvent(_) => Success(same.(nextState := Interrupted))
    case ToolResult(id, _, succeeded) => Success(same.(toolReceipt := Some((id, succeeded))))
    case ToolOutcomeRecorded(id, _, transport, domain) =>
      Success(same.(toolReceipt := Some((id, transport.TransportCompleted? && domain.Succeeded?))))
    case UsageRecorded(id, _, _) => Success(same.(usageKey := Some(id)))
    case _ => Success(same)
  }

  // ---- What the policy asks for ----

  /** The identities a payload carries, and the text it exposes. */
  function CarriedIdentities(p: Payload): set<string> {
    match p
    case Public(Submitted(id, _)) => {id}
    case Public(ApprovedAnswer(id, _)) => {id}
    case Public(MessageRecorded(id, _, _, None, _, _)) => {id}
    case Public(MessageRecorded(id, _, _, Some(call), _, _)) => {id, call}
    case Public(ModelResponse(id, _)) => {id}
    case Public(UsageRecorded(id, _, _)) => {id}
    case Public(ToolIntent(id, _, _)) => {id}
    case Public(ToolStarted(id)) => {id}
    case Public(ToolResult(id, _, _)) => {id}
    case Public(ToolOutcomeRecorded(id, _, _, _)) => {id}
    case Restricted(ProviderResponse(id, _, _)) => {id}
    case Restricted(Candidate(id, _)) => {id}
    case _ => {}
  }

  function ExposedText(p: Payload): Option<Text> {
    match p
    case Public(Submitted(_, text)) => Some(text)
    case Public(ModelResponse(_, text)) => Some(text)
    case Public(MessageRecorded(_, _, text, _, _, _)) => Some(text)
    case Public(Planning(text)) => Some(text)
    case Public(ToolResult(_, text, _)) => Some(text)
    case Public(ToolOutcomeRecorded(_, text, _, _)) => Some(text)
    case Public(Validation(_, text)) => Some(text)
    case Public(ApprovedAnswer(_, text)) => Some(text)
    case Public(FailedEvent(text)) => Some(text)
    case Public(InterruptedEvent(text)) => Some(text)
    case _ => None
  }

  predicate EnvelopeNamed(c: AppendCommand) {
    && 0 < Utf8Len(c.conversationId) <= 128 && 0 < Utf8Len(c.runId) <= 128
    && 0 < c.eventId.Len() <= 128 && 0 < c.idempotencyKey.Len() <= 128
  }

  predicate WithinSizes(c: AppendCommand) {
    && CommandSize(c) <= 2 * 1024 * 1024 + 64 * 1024
    && PayloadSize(c.payload) <= (if c.payload.Public? then 64 * 1024 else 2 * 1024 * 1024)
  }

  /** The reference to a detail body. */
  function Reference(p: Payload): Option<Id> {
    match ExposedText(p) case Some(text) => text.detail case None => None
  }

  predicate PayloadNamed(p: Payload) {
    && (forall id :: id in CarriedIdentities(p) ==> 0 < Utf8Len(id) <= 128)
    && (Reference(p).Some? ==> 0 < Reference(p).value.Len() <= 128)
  }

  /** A command is valid exactly when it is of version 1, all its identities take 1 to 128 bytes,
      it and its payload are within their sizes, and a detail body comes exactly with a reference
      to it from an exposed text. What is wrong decides the refusal. */
  lemma ValidateAccepts(c: AppendCommand)
    ensures var named, small := EnvelopeNamed(c), WithinSizes(c);
      var detailed := c.detail.Some? <==> Reference(c.payload).Some?;
      var bounded := c.detail.Some? ==> Utf8Len(c.detail.value) <= 2 * 1024 * 1024;
      && (Validate(c).Success? <==> c.version == 1 && named && small && detailed && bounded && PayloadNamed(c.payload))
      && (Validate(c) == Failure(UnsupportedVersion) <==> c.version != 1)
      && (Validate(c) == Failure(InvalidDetail) <==> c.version == 1 && named && small && !detailed)
      && (Validate(c) == Failure(TooLarge) <==> c.version == 1 && named && (!small || (detailed && !bounded)))
  {
    hide Utf8Len, CommandSize, PayloadSize;
  }

  /** The state a record leaves its run in, when the run is in `state`. */
  function StateAfter(p: Payload, state: RunState): RunState {
    match p
    case Public(RunStateSet(next)) => next
    case Public(ApprovedAnswer(_, _)) => Completed
    case Public(CancelledEvent) => Cancelled
    case Public(FailedEvent(_)) => Failed
    case Public(InterruptedEvent(_)) => Interrupted
    case _ => state
  }

  /** A valid record is accepted exactly when it opens its run with a submission, or follows in a
      run that has not ended, without completing it unapproved or queueing it again. It projects
      the submitted message or the approved answer, whole, and nothing else; a receipt is planned
      exactly for a tool's result or outcome, and says whether it succeeded. */
  lemma PlanMeans(c: AppendCommand, current: Option<RunState>)
    requires Validate(c).Success?
    ensures MakePlan(c, current).Success? <==>
      if IsSubmission(c) then current.None?
      else
        && current.Some? && !current.value.IsTerminal()
        && c.payload != Public(RunStateSet(Completed))
        && (c.payload == Public(RunStateSet(Queued)) ==> current.value.Queued?)
    ensures MakePlan(c, current).Failure? ==>
      MakePlan(c, current).error
        == if IsSubmission(c) || current.None? then InvalidSubmission else if current.value.IsTerminal() then Terminal else InvalidState
    ensures MakePlan(c, current).Success? ==>
      var plan := MakePlan(c, current).value;
      var full := match c.detail case Some(body) => body case None => if ExposedText(c.payload).Some? then ExposedText(c.payload).value.preview else "";
      && plan.nextState == (if current.None? then Queued else StateAfter(c.payload, current.value))
      && plan.projection ==
           (match c.payload
            case Public(Submitted(id, _)) => Some(Projection(id, "user", full, "complete"))
            case Public(ApprovedAnswer(id, _)) => Some(Projection(id, "assistant", full, "complete"))
            case _ => None)
      && plan.toolReceipt ==
           (match c.payload
            case Public(ToolResult(id, _, succeeded)) => Some((id, succeeded))
            case Public(ToolOutcomeRecorded(id, _, transport, domain)) =>
              Some((id, transport == TransportCompleted && domain == Succeeded))
            case _ => None)
      && plan.usageKey == (match c.payload case Public(UsageRecorded(id, _, _)) => Some(id) case _ => None)
  {
    hide Validate;
  }

  // ---- public events ----

  datatype PublicEvent = PublicEvent(
    version: u16,
    conversationId: ConversationId,
    runId: RunId,
    eventId: Id,
    sequence: i64,
    payload: PublicPayload)

  function EventSize(e: PublicEvent): nat {
    76 // {"version":,"conversation_id":,"run_id":,"event_id":,"sequence":,"payload":}
    + IntegerSize(e.version) + StringSize(e.conversationId) + StringSize(e.runId) + e.eventId.Size()
    + IntegerSize(e.sequence) + PublicSize(e.payload)
  }

  /** What `Validate` guarantees of every event a writer could have stored. */
  predicate WriterValid(e: PublicEvent) {
    && ValidIdentity(e.conversationId)
    && ValidIdentity(e.runId)
    && ValidId(e.eventId)
    && PayloadSize(Public(e.payload)) <= MAX_EVENT_BYTES
  }

  /** The smallest page budget: one event with every bounded part at its largest. */
  const MIN_REPLAY_BYTES: nat :=
    MAX_EVENT_BYTES
    + 3 * MAX_IDENTITY_BYTES * 6
    + 107 // {"version":65535,"conversation_id":"","run_id":"","event_id":"","sequence":-9223372036854775808,"payload":}
    + 2

  lemma IntegerWidths(version: u16, sequence: i64)
    ensures IntegerSize(version) <= 5
    ensures IntegerSize(sequence) <= 20
  {
    var value: int := sequence;
    var magnitude: nat := if value < 0 then -value else value;
    assert Pow10(5) == 100_000 by {
      assert Pow10(2) == 10 * Pow10(1) && Pow10(1) == 10;
      assert Pow10(4) == 10 * Pow10(3) && Pow10(3) == 10 * Pow10(2);
    }
    assert Pow10(19) == 10_000_000_000_000_000_000 by {
      assert Pow10(7) == 10 * Pow10(6) && Pow10(6) == 10 * Pow10(5);
      assert Pow10(9) == 10 * Pow10(8) && Pow10(8) == 10 * Pow10(7);
      assert Pow10(11) == 10 * Pow10(10) && Pow10(10) == 10 * Pow10(9);
      assert Pow10(13) == 10 * Pow10(12) && Pow10(12) == 10 * Pow10(11);
      assert Pow10(15) == 10 * Pow10(14) && Pow10(14) == 10 * Pow10(13);
      assert Pow10(17) == 10 * Pow10(16) && Pow10(16) == 10 * Pow10(15);
      assert Pow10(18) == 10 * Pow10(17);
    }
    DecimalWidth(version, 5);
    DecimalWidth(magnitude, 19);
  }

  lemma IdSizeBound(id: Id)
    requires id.Len() <= MAX_IDENTITY_BYTES
    ensures id.Size() <= 2 + 6 * MAX_IDENTITY_BYTES
  {
    if id.Plain? {
      EscapeGrowth(id.text);
    }
  }

  /** An event and the brackets of the array around it always fit the smallest page budget. */
  lemma MinReplayBytesHoldsOneEvent(e: PublicEvent)
    requires WriterValid(e)
    ensures 2 + EventSize(e) <= MIN_REPLAY_BYTES <= MAX_REPLAY_BYTES
  {
    IntegerWidths(e.version, e.sequence);
    EscapeGrowth(e.conversationId);
    EscapeGrowth(e.runId);
    IdSizeBound(e.eventId);
  }
}
