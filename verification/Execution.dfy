/** Awaited response and tool orchestration: deterministic envelope identities, bounded text,
    the records of a model response, and the durable fence around a tool execution. */
module Execution {
  import opened JsonText
  import opened Wrappers
  import opened Protocol
  import opened Journal

  datatype ExecutionError = Persistence | Uncertain(reason: string)
  datatype ToolOutcome = ToolOutcome(transport: TransportOutcome, domain: DomainOutcome, text: string) {
    predicate IsUnknown() {
      transport.TransportUnknown? || domain.DomainUnknown?
    }

    predicate HasSucceeded() {
      transport.TransportCompleted? && domain.Succeeded?
    }
  }

  datatype ResponseRecord = ResponseRecord(
    raw: Json,
    continuation: Json,
    candidate: string,
    planning: seq<string>,
    usage: Usage,
    cost: Option<Json>)

  // ---- Envelope keys ----

  /** The records an execution writes, each under its own key. */
  datatype RecordKey =
    | ResponseKey(model: ModelCallId)
    | CandidateKey(model: ModelCallId)
    | ModelUsageKey(model: ModelCallId)
    | PlanningKey(model: ModelCallId, index: nat)
    | IntentKey(tool: ToolCallId)
    | StartKey(tool: ToolCallId)
    | OutcomeKey(tool: ToolCallId)
  {
    function Text(): string {
      match this
      case ResponseKey(id) => id + ":" + "response"
      case CandidateKey(id) => id + ":" + "candidate"
      case ModelUsageKey(id) => id + ":" + "usage"
      case PlanningKey(id, index) => (id + ":planning") + ":" + Decimal(index)
      case IntentKey(id) => id + ":" + "intent"
      case StartKey(id) => id + ":" + "start"
      case OutcomeKey(id) => id + ":" + "outcome"
    }
  }

  /** What stands after the last colon of a key, and what before it. */
  function KeyTail(key: RecordKey): (tail: string)
    ensures ':' !in tail
  {
    match key
    case ResponseKey(_) => "response"
    case CandidateKey(_) => "candidate"
    case ModelUsageKey(_) => "usage"
    case PlanningKey(_, index) => DecimalNoColon(index); Decimal(index)
    case IntentKey(_) => "intent"
    case StartKey(_) => "start"
    case OutcomeKey(_) => "outcome"
  }

  function KeyHead(key: RecordKey): string {
    match key
    case ResponseKey(id) => id
    case CandidateKey(id) => id
    case ModelUsageKey(id) => id
    case PlanningKey(id, _) => id + ":planning"
    case IntentKey(id) => id
    case StartKey(id) => id
    case OutcomeKey(id) => id
  }

  lemma KeyParts(key: RecordKey)
    ensures key.Text() == KeyHead(key) + ":" + KeyTail(key)
  {
  }

  lemma LaterColonIsInTail(a: string, s: string, b: string, t: string)
    requires a + ":" + s == b + ":" + t && |a| < |b|
    ensures ':' in s
  {
    assert s[|b| - |a| - 1] == (a + ":" + s)[|b|] == (b + ":" + t)[|b|] == ':';
  }

  /** A text splits at its last colon in one way only. */
  lemma {:induction false} LastColonUnique(a: string, s: string, b: string, t: string)
    requires a + ":" + s == b + ":" + t
    requires ':' !in s && ':' !in t
    ensures a == b && s == t
  {
    var l, r := a + ":" + s, b + ":" + t;
    if |a| < |b| {
      LaterColonIsInTail(a, s, b, t);
    } else if |b| < |a| {
      LaterColonIsInTail(b, t, a, s);
    }
    assert a == l[..|a|] && b == r[..|b|];
    assert s == l[|a| + 1..] && t == r[|b| + 1..];
  }

  lemma DecimalStartsWithDigit(n: nat)
    ensures exists d: nat :: d < 10 && Decimal(n)[0] == Digit(d)
  {
    if n < 10 {
      assert Decimal(n)[0] == Digit(n);
    } else {
      DecimalStartsWithDigit(n / 10);
      assert Decimal(n)[0] == Decimal(n / 10)[0];
    }
  }

  /** Keys of different records differ, whatever the ids are made of. */
  lemma KeyTextInjective(j: RecordKey, k: RecordKey)
    requires j.Text() == k.Text()
    ensures j == k
  {
    KeyParts(j);
    KeyParts(k);
    LastColonUnique(KeyHead(j), KeyTail(j), KeyHead(k), KeyTail(k));
    if j.PlanningKey? {
      DecimalStartsWithDigit(j.index);
      assert KeyTail(k)[0] == KeyTail(j)[0];
    }
    if k.PlanningKey? {
      DecimalStartsWithDigit(k.index);
      assert KeyTail(k)[0] == KeyTail(j)[0];
    }
    if j.PlanningKey? && k.PlanningKey? {
      DecimalInjective(j.index, k.index);
      assert j.model == KeyHead(j)[..|KeyHead(j)| - 9] && k.model == KeyHead(k)[..|KeyHead(k)| - 9];
    } else {
      assert !j.PlanningKey? && !k.PlanningKey?;
      assert "response"[0] == 'r' && "candidate"[0] == 'c' && "usage"[0] == 'u';
      assert "intent"[0] == 'i' && "start"[0] == 's' && "outcome"[0] == 'o';
      assert KeyTail(k)[0] == KeyTail(j)[0];
    }
  }

  // ---- Commands ----

  datatype ExecutionContext = ExecutionContext(conversationId: ConversationId, runId: RunId) {
    /** The digest of the serialized tuple (conversation, run, namespace, key). */
    function Identity(namespace: string, key: string): Id {
      Digest(TupleText(conversationId, runId, namespace, key))
    }

    function Command(key: RecordKey, payload: Payload, detail: Option<string>): AppendCommand {
      var id := Identity("event", key.Text());
      AppendCommand(VERSION, conversationId, runId, id, id, payload, detail)
    }

    function BoundedText(key: RecordKey, body: string, limit: nat): (Text, Option<string>) {
      var long := |body| > limit;
      (Text(if long then body[..limit] else body, if long then Some(Identity("detail", key.Text())) else None),
       if long then Some(body) else None)
    }

    function IntentCommand(id: ToolCallId, name: string, arguments: Json): AppendCommand {
      Command(IntentKey(id), Public(ToolIntent(id, name, arguments)), None)
    }

    function StartCommand(id: ToolCallId): AppendCommand {
      Command(StartKey(id), Public(ToolStarted(id)), None)
    }

    function OutcomeCommand(id: ToolCallId, outcome: ToolOutcome): AppendCommand {
      var (text, detail) := BoundedText(OutcomeKey(id), outcome.text, 8000);
      Command(OutcomeKey(id), Public(ToolOutcomeRecorded(id, text, outcome.transport, outcome.domain)), detail)
    }

    function PlanningCommand(model: ModelCallId, index: nat, body: string): AppendCommand {
      var (text, detail) := BoundedText(PlanningKey(model, index), body, 200);
      Command(PlanningKey(model, index), Public(Planning(text)), detail)
    }

    function ResponseCommand(model: ModelCallId, record: ResponseRecord): AppendCommand {
      Command(ResponseKey(model), Restricted(ProviderResponse(model, record.raw, record.continuation)), None)
    }

    function CandidateCommand(model: ModelCallId, record: ResponseRecord): AppendCommand {
      Command(CandidateKey(model), Restricted(Candidate(model, record.candidate)), None)
    }

    function UsageCommand(model: ModelCallId, record: ResponseRecord): AppendCommand {
      Command(ModelUsageKey(model), Public(UsageRecorded(model, record.usage, record.cost)), None)
    }

    /** The record sequence of one model response. */
    function IngestCommands(model: ModelCallId, record: ResponseRecord): (commands: seq<AppendCommand>)
      ensures |commands| == 3 + |record.planning|
    {
      [ResponseCommand(model, record), CandidateCommand(model, record), UsageCommand(model, record)]
      + seq(|record.planning|, i requires 0 <= i < |record.planning| => PlanningCommand(model, i, record.planning[i]))
    }
  }

  /** Two commands share an envelope identity only if they are the same record of the same run
      of the same conversation: deduplication never swallows a distinct record. */
  lemma EnvelopesInjective(c: ExecutionContext, d: ExecutionContext, j: RecordKey, k: RecordKey,
                           p: Payload, q: Payload, x: Option<string>, y: Option<string>)
    ensures SameEnvelope(c.Command(j, p, x), d.Command(k, q, y)) <==> c == d && j == k
  {
    if SameEnvelope(c.Command(j, p, x), d.Command(k, q, y)) {
      TupleTextInjective(c.conversationId, c.runId, "event", j.Text(), d.conversationId, d.runId, "event", k.Text());
      KeyTextInjective(j, k);
    }
  }

  /** A reference to a detail names one record and one text in it: no record's identity, and no
      other record's detail, is the same. */
  lemma ReferencesInjective(c: ExecutionContext, d: ExecutionContext, j: RecordKey, k: RecordKey, x: string, y: string, m: nat, n: nat)
    requires |x| > m && |y| > n
    ensures var s, t := c.BoundedText(j, x, m).0, d.BoundedText(k, y, n).0;
      && s.detail.Some? && t.detail.Some?
      && (s.detail == t.detail <==> c == d && j == k)
      && s.detail.value != d.Identity("event", k.Text())
  {
    if c.BoundedText(j, x, m).0.detail == d.BoundedText(k, y, n).0.detail {
      TupleTextInjective(c.conversationId, c.runId, "detail", j.Text(), d.conversationId, d.runId, "detail", k.Text());
      KeyTextInjective(j, k);
    }
    if c.Identity("detail", j.Text()) == d.Identity("event", k.Text()) {
      TupleTextInjective(c.conversationId, c.runId, "detail", j.Text(), d.conversationId, d.runId, "event", k.Text());
    }
  }

  /** A reader gets back the whole body, and a detail body comes with its reference. */
  lemma BoundedTextRoundTrip(c: ExecutionContext, key: RecordKey, body: string, limit: nat)
    ensures var (text, detail) := c.BoundedText(key, body, limit);
      && FullText(text, detail) == body
      && |text.preview| <= limit
      && (detail.Some? <==> |body| > limit)
      && (text.detail.Some? <==> detail.Some?)
  {
  }

  /** The journal's receipt of an outcome counts as a success exactly when the call succeeded. */
  lemma ReceiptMatchesOutcome(c: ExecutionContext, id: ToolCallId, outcome: ToolOutcome, state: RunState)
    requires MakePlan(c.OutcomeCommand(id, outcome), Some(state)).Success?
    ensures MakePlan(c.OutcomeCommand(id, outcome), Some(state)).value.toolReceipt == Some((id, outcome.HasSucceeded()))
  {
    hide Validate, ExecutionContext.BoundedText;
  }

  function IngestKey(model: ModelCallId, i: nat): RecordKey {
    if i == 0 then ResponseKey(model)
    else if i == 1 then CandidateKey(model)
    else if i == 2 then ModelUsageKey(model)
    else PlanningKey(model, i - 3)
  }

  lemma IngestCommandShape(c: ExecutionContext, model: ModelCallId, record: ResponseRecord, i: nat)
    requires i < 3 + |record.planning|
    ensures var command := c.IngestCommands(model, record)[i];
      && command == c.Command(IngestKey(model, i), command.payload, command.detail)
      && (ReceiptKeyOf(command).Some? <==> i == 2)
  {
    hide ExecutionContext.BoundedText, ExecutionContext.Identity, RecordKey.Text;
  }

  /** The records of one response lie under different envelopes and receipts. */
  lemma IngestCommandsDistinct(c: ExecutionContext, model: ModelCallId, record: ResponseRecord, i: nat, j: nat)
    requires i < j < 3 + |record.planning|
    ensures var commands := c.IngestCommands(model, record);
      !SameEnvelope(commands[i], commands[j]) && !SameReceipt(commands[i], commands[j])
  {
    IngestCommandShape(c, model, record, i);
    IngestCommandShape(c, model, record, j);
    var a, b := c.IngestCommands(model, record)[i], c.IngestCommands(model, record)[j];
    EnvelopesInjective(c, c, IngestKey(model, i), IngestKey(model, j), a.payload, b.payload, a.detail, b.detail);
  }
}
