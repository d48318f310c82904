/** The serialized text of payloads, commands, events and pages, and that every size the protocol
    goes by is the number of bytes of that text. */
module Serialized {
  import opened JsonText
  import opened Wrappers
  import opened Protocol
  import opened Replay

  // ---- Building objects ----

  lemma {:induction false} WordLen(s: string)
    requires forall i :: 0 <= i < |s| ==> 'a' <= s[i] <= 'z' || s[i] == '_'
    ensures Utf8Len(s) == |s|
  {
    if s != [] {
      WordLen(s[1..]);
    }
  }

  lemma Around(a: string, s: string, b: string)
    ensures Utf8Len(a + s + b) == Utf8Len(a) + Utf8Len(s) + Utf8Len(b)
  {
    Utf8LenConcat(a, s);
    Utf8LenConcat(a + s, b);
  }

  lemma Marks()
    ensures Utf8Len("\"") == Utf8Len(",") == Utf8Len(":") == Utf8Len("{") == Utf8Len("}") == Utf8Len("[") == Utf8Len("]") == Utf8Len("-") == 1
  {
    assert Utf8Len([]) == 0;
  }

  function Name(name: string): (t: string)
    ensures Utf8Len(t) == Utf8Len(name) + 2
  {
    hide Utf8Len;
    Marks();
    Around("\"", name, "\"");
    "\"" + name + "\""
  }

  function Field(name: string, value: string): (t: string)
    ensures Utf8Len(t) == Utf8Len(name) + 3 + Utf8Len(value)
  {
    hide Utf8Len, Name;
    Marks();
    Around(Name(name), ":", value);
    Name(name) + ":" + value
  }

  function Then(a: string, b: string): (t: string)
    ensures Utf8Len(t) == Utf8Len(a) + 1 + Utf8Len(b)
  {
    hide Utf8Len;
    Marks();
    Around(a, ",", b);
    a + "," + b
  }

  function Object(fields: string): (t: string)
    ensures Utf8Len(t) == Utf8Len(fields) + 2
  {
    hide Utf8Len;
    Marks();
    Around("{", fields, "}");
    "{" + fields + "}"
  }

  /** An object that names its kind first. */
  function Tagged(kind: string, fields: string): (t: string)
    ensures Utf8Len(t) == Utf8Len(kind) + 12 + Utf8Len(fields)
  {
    hide Object, Then, Field, Name, Utf8Len;
    CommonWords();
    Object(Then(Field("kind", Name(kind)), fields))
  }

  function Str(s: string): (t: string)
    ensures Utf8Len(t) == StringSize(s)
  {
    EscapedLenIsSize(s);
    assert Utf8Len([QUOTE]) == 1 by { assert Utf8Len([]) == 0; }
    Around([QUOTE], Escape(s), [QUOTE]);
    Quoted(s)
  }

  function Num(n: int): (t: string)
    ensures Utf8Len(t) == IntegerSize(n)
  {
    Marks();
    DecimalReads(if n < 0 then -n else n);
    Utf8LenConcat("-", Decimal(if n < 0 then -n else n));
    if n < 0 then "-" + Decimal(-n) else Decimal(n)
  }

  function Bool(b: bool): (t: string)
    ensures Utf8Len(t) == if b then 4 else 5
  {
    hide Utf8Len;
    CommonWords();
    if b then "true" else "false"
  }

  function Null(): (t: string)
    ensures Utf8Len(t) == 4
  {
    hide Utf8Len;
    CommonWords();
    "null"
  }

  lemma CommonWords()
    ensures Utf8Len("kind") == 4 && Utf8Len("true") == 4 && Utf8Len("false") == 5 && Utf8Len("null") == 4
    ensures Utf8Len("name") == 4 && Utf8Len("text") == 4
  {
    hide Utf8Len;
    WordLen("kind");
    WordLen("true");
    WordLen("false");
    WordLen("null");
    WordLen("name");
    WordLen("text");
  }

  // ---- The fixed words ----

  lemma FieldWords()
    ensures Utf8Len("preview") == 7 && Utf8Len("detail") == 6 && Utf8Len("message_id") == 10 && Utf8Len("model_call_id") == 13
    ensures Utf8Len("tool_call_id") == 12 && Utf8Len("role") == 4 && Utf8Len("tool_calls") == 10 && Utf8Len("passed") == 6
  {
    hide Utf8Len;
    WordLen("preview");
    WordLen("detail");
    WordLen("message_id");
    WordLen("model_call_id");
    WordLen("tool_call_id");
    WordLen("role");
    WordLen("tool_calls");
    WordLen("passed");
  }

  lemma MessageWords()
    ensures Utf8Len("submitted") == 9 && Utf8Len("model_response") == 14 && Utf8Len("message_recorded") == 16 && Utf8Len("planning") == 8
    ensures Utf8Len("validation") == 10 && Utf8Len("approved_answer") == 15 && Utf8Len("failed") == 6 && Utf8Len("interrupted") == 11
    ensures Utf8Len("assistant") == 9 && Utf8Len("tool") == 4
  {
    hide Utf8Len;
    WordLen("submitted");
    WordLen("model_response");
    WordLen("message_recorded");
    WordLen("planning");
    WordLen("validation");
    WordLen("approved_answer");
    WordLen("failed");
    WordLen("interrupted");
    WordLen("assistant");
    WordLen("tool");
  }

  lemma CallWords()
    ensures Utf8Len("run_state") == 9 && Utf8Len("tool_intent") == 11 && Utf8Len("tool_started") == 12 && Utf8Len("tool_result") == 11
    ensures Utf8Len("tool_outcome") == 12 && Utf8Len("usage") == 5 && Utf8Len("cancellation_requested") == 22 && Utf8Len("cancelled") == 9
  {
    hide Utf8Len;
    WordLen("run_state");
    WordLen("tool_intent");
    WordLen("tool_started");
    WordLen("tool_result");
    WordLen("tool_outcome");
    WordLen("usage");
    WordLen("cancellation_requested");
    WordLen("cancelled");
  }

  lemma CallFieldWords()
    ensures Utf8Len("state") == 5 && Utf8Len("arguments") == 9 && Utf8Len("succeeded") == 9 && Utf8Len("transport") == 9
    ensures Utf8Len("domain") == 6 && Utf8Len("cost") == 4 && Utf8Len("input_tokens") == 12 && Utf8Len("output_tokens") == 13
  {
    hide Utf8Len;
    WordLen("state");
    WordLen("arguments");
    WordLen("succeeded");
    WordLen("transport");
    WordLen("domain");
    WordLen("cost");
    WordLen("input_tokens");
    WordLen("output_tokens");
  }

  lemma StateWords()
    ensures Utf8Len("queued") == 6 && Utf8Len("running") == 7 && Utf8Len("completed") == 9 && Utf8Len("failed") == 6
    ensures Utf8Len("cancelled") == 9 && Utf8Len("interrupted") == 11 && Utf8Len("rejected") == 8 && Utf8Len("unknown") == 7
    ensures Utf8Len("succeeded") == 9
  {
    hide Utf8Len;
    WordLen("queued");
    WordLen("running");
    WordLen("completed");
    WordLen("failed");
    WordLen("cancelled");
    WordLen("interrupted");
    WordLen("rejected");
    WordLen("unknown");
    WordLen("succeeded");
  }

  lemma EnvelopeWords()
    ensures Utf8Len("version") == 7 && Utf8Len("conversation_id") == 15 && Utf8Len("run_id") == 6 && Utf8Len("event_id") == 8
    ensures Utf8Len("idempotency_key") == 15 && Utf8Len("payload") == 7 && Utf8Len("detail") == 6 && Utf8Len("sequence") == 8
    ensures Utf8Len("visibility") == 10 && Utf8Len("public") == 6 && Utf8Len("restricted") == 10
  {
    hide Utf8Len;
    WordLen("version");
    WordLen("conversation_id");
    WordLen("run_id");
    WordLen("event_id");
    WordLen("idempotency_key");
    WordLen("payload");
    WordLen("detail");
    WordLen("sequence");
    WordLen("visibility");
    WordLen("public");
    WordLen("restricted");
  }

  lemma OtherWords()
    ensures Utf8Len("provider_response") == 17 && Utf8Len("response") == 8 && Utf8Len("continuation") == 12 && Utf8Len("candidate") == 9
    ensures Utf8Len("from_cursor") == 11 && Utf8Len("through_cursor") == 14 && Utf8Len("high_watermark") == 14 && Utf8Len("has_more") == 8
    ensures Utf8Len("events") == 6
  {
    hide Utf8Len;
    WordLen("provider_response");
    WordLen("response");
    WordLen("continuation");
    WordLen("candidate");
    WordLen("from_cursor");
    WordLen("through_cursor");
    WordLen("high_watermark");
    WordLen("has_more");
    WordLen("events");
  }

  // ---- Texts ----

  predicate IsHex(s: string) {
    |s| == 64 && forall i :: 0 <= i < |s| ==> '0' <= s[i] <= '9' || 'a' <= s[i] <= 'f'
  }

  /** Digests are written as 64 hexadecimal digits. */
  type Digests = f: string -> string | forall s :: IsHex(f(s)) witness _ => seq(64, _ => '0')

  lemma {:induction false} HexLen(s: string)
    requires forall i :: 0 <= i < |s| ==> '0' <= s[i] <= '9' || 'a' <= s[i] <= 'f'
    ensures EscapedLen(s) == |s|
  {
    if s != [] {
      HexLen(s[1..]);
    }
  }

  function IdJson(id: Id, digests: Digests): (t: string)
    ensures Utf8Len(t) == id.Size()
  {
    match id
    case Plain(text) => Str(text)
    case Digest(preimage) =>
      assert IsHex(digests(preimage));
      HexLen(digests(preimage));
      Str(digests(preimage))
  }

  /** The length of an identity is that of its text without the quotes, as long as that needs no
      escapes; a digest never does. */
  lemma IdLen(id: Id, digests: Digests)
    ensures id.Digest? ==> id.Len() == Utf8Len(digests(id.preimage)) && IdJson(id, digests) == Str(digests(id.preimage))
    ensures id.Plain? ==> id.Len() == Utf8Len(id.text) && IdJson(id, digests) == Str(id.text)
  {
    if id.Digest? {
      assert IsHex(digests(id.preimage));
      HexUtf8(digests(id.preimage));
    }
  }

  lemma {:induction false} HexUtf8(s: string)
    requires forall i :: 0 <= i < |s| ==> '0' <= s[i] <= '9' || 'a' <= s[i] <= 'f'
    ensures Utf8Len(s) == |s|
  {
    if s != [] {
      HexUtf8(s[1..]);
    }
  }

  function OptionJson(s: Option<string>): (t: string)
    ensures Utf8Len(t) == OptionSize(s)
  {
    match s case Some(text) => Str(text) case None => Null()
  }

  function ValueJson(j: Option<Json>): (t: string)
    ensures Utf8Len(t) == JsonSize(j)
  {
    match j case Some(value) => value.text case None => Null()
  }

  function TextJson(text: Text, digests: Digests): (t: string)
    ensures Utf8Len(t) == TextSize(text)
  {
    hide Object, Then, Field, Str, Null, IdJson, Utf8Len, StringSize, Id.Size;
    FieldWords();
    Object(Then(Field("preview", Str(text.preview)),
                Field("detail", match text.detail case Some(id) => IdJson(id, digests) case None => Null())))
  }

  function TextField(text: Text, digests: Digests): (t: string)
    ensures Utf8Len(t) == 7 + TextSize(text)
  {
    hide Field, TextJson, TextSize, Utf8Len;
    CommonWords();
    Field("text", TextJson(text, digests))
  }

  /** A message or a call by its identity, and what goes with it. */
  function Of(what: string, id: string, rest: string): (t: string)
    ensures Utf8Len(t) == Utf8Len(what) + 4 + StringSize(id) + Utf8Len(rest)
  {
    hide Then, Field, Str, Utf8Len, StringSize;
    Then(Field(what, Str(id)), rest)
  }

  function RecordedFields(id: string, role: RecordedRole, text: Text, call: Option<string>, name: Option<string>, calls: Option<Json>,
                          digests: Digests): (t: string)
    ensures Utf8Len(t) == 67 + StringSize(id) + (if role.ToolRole? then 6 else 11) + TextSize(text) + OptionSize(call) + OptionSize(name)
                          + JsonSize(calls)
  {
    hide Of, TextField, Then, Field, Name, OptionJson, ValueJson, Utf8Len, StringSize, TextSize, OptionSize, JsonSize;
    CommonWords();
    FieldWords();
    MessageWords();
    Of("message_id", id,
      Then(Then(Then(Then(Field("role", Name(if role.ToolRole? then "tool" else "assistant")), TextField(text, digests)),
                     Field("tool_call_id", OptionJson(call))),
                Field("name", OptionJson(name))),
           Field("tool_calls", ValueJson(calls))))
  }

  /** What is recorded of messages. */
  function MessageJson(p: PublicPayload, digests: Digests): (t: string)
    requires p.TextOf().Some? && !p.ToolResult? && !p.ToolOutcomeRecorded?
    ensures Utf8Len(t) == PublicSize(p)
  {
    hide Tagged, Of, TextField, Then, Field, Bool, RecordedFields, Utf8Len, StringSize, TextSize, OptionSize, JsonSize;
    CommonWords();
    FieldWords();
    MessageWords();
    match p
    case Submitted(id, text) => Tagged("submitted", Of("message_id", id, TextField(text, digests)))
    case ModelResponse(id, text) => Tagged("model_response", Of("model_call_id", id, TextField(text, digests)))
    case MessageRecorded(id, role, text, call, name, calls) =>
      Tagged("message_recorded", RecordedFields(id, role, text, call, name, calls, digests))
    case Planning(text) => Tagged("planning", TextField(text, digests))
    case Validation(passed, text) => Tagged("validation", Then(Field("passed", Bool(passed)), TextField(text, digests)))
    case ApprovedAnswer(id, text) => Tagged("approved_answer", Of("message_id", id, TextField(text, digests)))
    case FailedEvent(text) => Tagged("failed", TextField(text, digests))
    case InterruptedEvent(text) => Tagged("interrupted", TextField(text, digests))
  }

  function StateJson(state: RunState): (t: string)
    ensures Utf8Len(t) == 2 + |state.AsStr()|
  {
    hide Name, Utf8Len;
    StateWords();
    Name(match state
         case Queued => "queued"
         case Running => "running"
         case Completed => "completed"
         case Failed => "failed"
         case Cancelled => "cancelled"
         case Interrupted => "interrupted")
  }

  function OutcomeFields(transport: TransportOutcome, domain: DomainOutcome): (t: string)
    ensures Utf8Len(t) == 22 + (match transport case TransportCompleted => 11 case TransportFailed => 8 case TransportUnknown => 9)
                             + (match domain case Succeeded => 11 case Rejected => 10 case DomainUnknown => 9)
  {
    hide Then, Field, Name, Utf8Len;
    CallFieldWords();
    StateWords();
    var carried := match transport case TransportCompleted => "completed" case TransportFailed => "failed" case TransportUnknown => "unknown";
    var done := match domain case Succeeded => "succeeded" case Rejected => "rejected" case DomainUnknown => "unknown";
    Then(Field("transport", Name(carried)), Field("domain", Name(done)))
  }

  function UsageJson(usage: Usage): (t: string)
    ensures Utf8Len(t) == 34 + IntegerSize(usage.inputTokens) + IntegerSize(usage.outputTokens)
  {
    hide Object, Then, Field, Num, Utf8Len, IntegerSize;
    CallFieldWords();
    Object(Then(Field("input_tokens", Num(usage.inputTokens)), Field("output_tokens", Num(usage.outputTokens))))
  }

  /** What is recorded of tool calls. */
  function OfTool(id: string, fields: string): (t: string)
    ensures Utf8Len(t) == 16 + StringSize(id) + Utf8Len(fields)
  {
    hide Of, Utf8Len, StringSize;
    FieldWords();
    Of("tool_call_id", id, fields)
  }

  function IntentFields(name: string, arguments: Json): (t: string)
    ensures Utf8Len(t) == 20 + StringSize(name) + Utf8Len(arguments.text)
  {
    hide Then, Field, Str, Utf8Len, StringSize;
    CommonWords();
    CallFieldWords();
    Then(Field("name", Str(name)), Field("arguments", arguments.text))
  }

  function SucceededField(succeeded: bool): (t: string)
    ensures Utf8Len(t) == 12 + BoolSize(succeeded)
  {
    hide Field, Bool, Utf8Len;
    CallFieldWords();
    Field("succeeded", Bool(succeeded))
  }

  function StartedField(id: string): (t: string)
    ensures Utf8Len(t) == 15 + StringSize(id)
  {
    hide Field, Str, Utf8Len, StringSize;
    FieldWords();
    Field("tool_call_id", Str(id))
  }

  function IntentJson(id: string, name: string, arguments: Json): (t: string)
    ensures Utf8Len(t) == PublicSize(ToolIntent(id, name, arguments))
  {
    hide Tagged, OfTool, IntentFields, Utf8Len, StringSize;
    CallWords();
    Tagged("tool_intent", OfTool(id, IntentFields(name, arguments)))
  }

  function StartedJson(id: string): (t: string)
    ensures Utf8Len(t) == PublicSize(ToolStarted(id))
  {
    hide Tagged, StartedField, Utf8Len, StringSize;
    CallWords();
    Tagged("tool_started", StartedField(id))
  }

  function ResultJson(id: string, text: Text, succeeded: bool, digests: Digests): (t: string)
    ensures Utf8Len(t) == PublicSize(ToolResult(id, text, succeeded))
  {
    hide Tagged, OfTool, TextField, Then, SucceededField, Utf8Len, StringSize, TextSize, BoolSize;
    CallWords();
    Tagged("tool_result", OfTool(id, Then(TextField(text, digests), SucceededField(succeeded))))
  }

  function OutcomeJson(id: string, text: Text, transport: TransportOutcome, domain: DomainOutcome, digests: Digests): (t: string)
    ensures Utf8Len(t) == PublicSize(ToolOutcomeRecorded(id, text, transport, domain))
  {
    hide Tagged, OfTool, TextField, Then, OutcomeFields, Utf8Len, StringSize, TextSize;
    CallWords();
    Tagged("tool_outcome", OfTool(id, Then(TextField(text, digests), OutcomeFields(transport, domain))))
  }

  /** What is recorded of usage and states. */
  function StatusJson(p: PublicPayload): (t: string)
    requires p.RunStateSet? || p.UsageRecorded? || p.CancellationRequested? || p.CancelledEvent?
    ensures Utf8Len(t) == PublicSize(p)
  {
    hide Tagged, Of, Then, Field, Name, ValueJson, Object, StateJson, UsageJson, Utf8Len, StringSize, JsonSize, IntegerSize;
    CommonWords();
    FieldWords();
    CallWords();
    CallFieldWords();
    match p
    case RunStateSet(state) => Tagged("run_state", Field("state", StateJson(state)))
    case UsageRecorded(id, usage, cost) =>
      Tagged("usage", Of("model_call_id", id, Then(Field("usage", UsageJson(usage)), Field("cost", ValueJson(cost)))))
    case CancellationRequested => Object(Field("kind", Name("cancellation_requested")))
    case CancelledEvent => Object(Field("kind", Name("cancelled")))
  }

  function PublicJson(p: PublicPayload, digests: Digests): (t: string)
    ensures Utf8Len(t) == PublicSize(p)
  {
    hide MessageJson, StatusJson, IntentJson, StartedJson, ResultJson, OutcomeJson, PublicSize, Utf8Len;
    match p
    case ToolIntent(id, name, arguments) => IntentJson(id, name, arguments)
    case ToolStarted(id) => StartedJson(id)
    case ToolResult(id, text, succeeded) => ResultJson(id, text, succeeded, digests)
    case ToolOutcomeRecorded(id, text, transport, domain) => OutcomeJson(id, text, transport, domain, digests)
    case RunStateSet(_) => StatusJson(p)
    case UsageRecorded(_, _, _) => StatusJson(p)
    case CancellationRequested => StatusJson(p)
    case CancelledEvent => StatusJson(p)
    case _ => MessageJson(p, digests)
  }

  function RestrictedJson(p: RestrictedPayload): (t: string)
    ensures Utf8Len(t) == RestrictedSize(p)
  {
    hide Tagged, Of, Then, Field, Str, Utf8Len, StringSize;
    CommonWords();
    FieldWords();
    OtherWords();
    match p
    case ProviderResponse(id, response, continuation) =>
      Tagged("provider_response", Of("model_call_id", id, Then(Field("response", response.text), Field("continuation", continuation.text))))
    case Candidate(id, text) => Tagged("candidate", Of("model_call_id", id, Field("text", Str(text))))
  }

  function PayloadJson(p: Payload, digests: Digests): (t: string)
    ensures Utf8Len(t) == PayloadSize(p)
  {
    hide Object, Then, Field, Name, PublicJson, RestrictedJson, PublicSize, RestrictedSize, Utf8Len;
    EnvelopeWords();
    match p
    case Public(public) => Object(Then(Field("visibility", Name("public")), Field("payload", PublicJson(public, digests))))
    case Restricted(restricted) =>
      Object(Then(Field("visibility", Name("restricted")), Field("payload", RestrictedJson(restricted))))
  }

  /** What a command and an event have in common: version, conversation, run and record. */
  function Head(version: u16, conversation: string, run: string, event: Id, digests: Digests): (t: string)
    ensures Utf8Len(t) == 51 + IntegerSize(version) + StringSize(conversation) + StringSize(run) + event.Size()
  {
    hide Then, Field, Str, Num, IdJson, Utf8Len, StringSize, IntegerSize, Id.Size;
    EnvelopeWords();
    Then(Then(Then(Field("version", Num(version)), Field("conversation_id", Str(conversation))), Field("run_id", Str(run))),
         Field("event_id", IdJson(event, digests)))
  }

  function CommandJson(c: AppendCommand, digests: Digests): (t: string)
    ensures Utf8Len(t) == CommandSize(c)
  {
    hide Object, Then, Field, Head, IdJson, PayloadJson, OptionJson, Utf8Len, StringSize, IntegerSize, Id.Size, PayloadSize, OptionSize;
    EnvelopeWords();
    Object(Then(Then(Then(Head(c.version, c.conversationId, c.runId, c.eventId, digests),
                          Field("idempotency_key", IdJson(c.idempotencyKey, digests))),
                     Field("payload", PayloadJson(c.payload, digests))),
                Field("detail", OptionJson(c.detail))))
  }

  function EventJson(e: PublicEvent, digests: Digests): (t: string)
    ensures Utf8Len(t) == EventSize(e)
  {
    hide Object, Then, Field, Head, Num, PublicJson, Utf8Len, StringSize, IntegerSize, Id.Size, PublicSize;
    EnvelopeWords();
    Object(Then(Then(Head(e.version, e.conversationId, e.runId, e.eventId, digests), Field("sequence", Num(e.sequence))),
                Field("payload", PublicJson(e.payload, digests))))
  }

  function EventsJson(events: seq<PublicEvent>, digests: Digests): (t: string)
    ensures Utf8Len(t) == BodySize(events)
  {
    hide Then, EventJson, EventSize;
    if events == [] then ""
    else
      var n := |events| - 1;
      if n == 0 then EventJson(events[0], digests) else Then(EventsJson(events[..n], digests), EventJson(events[n], digests))
  }

  function ArrayJson(events: seq<PublicEvent>, digests: Digests): (t: string)
    ensures Utf8Len(t) == ArraySize(events)
  {
    hide EventsJson, BodySize, Utf8Len;
    Marks();
    Around("[", EventsJson(events, digests), "]");
    "[" + EventsJson(events, digests) + "]"
  }

  function PageJson(page: Page, digests: Digests): (t: string)
    ensures Utf8Len(t) == PageSize(page)
  {
    hide Object, Then, Field, Num, Bool, ArrayJson, Utf8Len, IntegerSize, ArraySize;
    EnvelopeWords();
    OtherWords();
    Object(Then(Then(Then(Then(Then(Field("version", Num(page.version)), Field("from_cursor", Num(page.fromCursor))),
                               Field("through_cursor", Num(page.throughCursor))),
                          Field("high_watermark", Num(page.highWatermark))),
                     Field("has_more", Bool(page.hasMore))),
                Field("events", ArrayJson(page.events, digests))))
  }
}
