/** The bounded agent loop: model calls and tool executions for one user message, under an
    iteration, a time and a token budget. */
module Agent {
  import opened JsonText
  import opened Wrappers

  // ---- Messages ----

  datatype MessageRole = SystemRole | UserRole | AssistantRole | ToolRole

  datatype ToolCall = ToolCall(id: string, name: string, arguments: Json, argumentsError: Option<string>)

  datatype Message = Message(
    role: MessageRole,
    content: string,
    toolCalls: Option<seq<ToolCall>>,
    toolCallId: Option<string>,
    name: Option<string>,
    userId: Option<string>,
    messageId: Option<string>)

  function SystemMessage(content: string): Message {
    Message(SystemRole, content, None, None, None, None, None)
  }

  function UserMessage(content: string, userId: Option<string>): Message {
    Message(UserRole, content, None, None, None, userId, None)
  }

  function AssistantMessage(content: string): Message {
    Message(AssistantRole, content, None, None, None, None, None)
  }

  function ToolCallsMessage(content: string, calls: seq<ToolCall>): Message {
    Message(AssistantRole, content, Some(calls), None, None, None, None)
  }

  function ToolResultMessage(id: string, name: string, content: string): Message {
    Message(ToolRole, content, None, Some(id), Some(name), None, None)
  }

  /** The annotation in front of a user message, empty when there is nothing to say. */
  function MetadataPrefix(time: Option<string>, source: Option<string>): string {
    var s := if source.Some? then "source: " + source.value else "";
    var t := if time.Some? then "user_local_time: " + time.value else "";
    if source.None? && time.None? then ""
    else "[" + s + (if source.Some? && time.Some? then ", " else "") + t + "] "
  }

  /** What is said in front of a message: where it came from and when it was for its user, each if
      known, in brackets. */
  lemma AnnotationForms(time: string, source: string)
    ensures MetadataPrefix(None, None) == ""
    ensures MetadataPrefix(Some(time), None) == "[" + ("user_local_time: " + time) + "] "
    ensures MetadataPrefix(None, Some(source)) == "[" + ("source: " + source) + "] "
    ensures MetadataPrefix(Some(time), Some(source)) == "[" + ("source: " + source) + ", " + ("user_local_time: " + time) + "] "
  {
    NothingBetween("[", "user_local_time: " + time);
    NothingBetween("[" + ("source: " + source), "");
  }

  lemma NothingBetween(a: string, b: string)
    ensures a + "" + b == a + b && a + "" + "" + b == a + b && a + "" == a
  {
    assert a + "" == a;
  }

  // ---- Budgets ----

  datatype StopReason = Iterations | Deadline | TokenBudget

  function CheckStopConditions(maxDuration: Option<nat>, maxTotalTokens: Option<nat>, elapsed: nat, tokens: nat): Option<StopReason> {
    if maxDuration.Some? && elapsed >= maxDuration.value then Some(Deadline)
    else if maxTotalTokens.Some? && tokens >= maxTotalTokens.value then Some(TokenBudget)
    else None
  }

  /** The iterations at which a notice fires: at seven and at nine tenths of the budget. */
  function Threshold(k: nat, maxIterations: nat): nat
    requires k < 2
  {
    maxIterations * (if k == 0 then 7 else 9) / 10
  }

  function Crossed(iteration: nat, maxIterations: nat): (n: nat)
    ensures n <= 2
  {
    (if iteration >= Threshold(0, maxIterations) then 1 else 0) + (if iteration >= Threshold(1, maxIterations) then 1 else 0)
  }

  /** The figures a notice carries and which of the two it is; its wording is abridged. */
  function BudgetNoticeText(used: nat, maxIterations: nat, finalNotice: bool): string {
    var remaining := if used <= maxIterations then maxIterations - used else 0;
    "<system-reminder>Iteration budget: " + Decimal(used) + "/" + Decimal(maxIterations) + "/" + Decimal(remaining)
    + (if finalNotice then " stop" else " consolidate")
  }

  function Notice(used: nat, maxIterations: nat, finalNotice: bool): Message {
    UserMessage(BudgetNoticeText(used, maxIterations, finalNotice), None)
  }

  /** A notice is a user's message without an identity. It gives the iterations used, those allowed
      and those left, in this order, and at the end whether it is the last. */
  lemma NoticeTells(used: nat, maxIterations: nat, left: nat, finalNotice: bool)
    requires used + left == maxIterations || (maxIterations < used && left == 0)
    ensures var m := Notice(used, maxIterations, finalNotice);
      && m == UserMessage(m.content, None)
      && m.content
           == "<system-reminder>Iteration budget: " + Decimal(used) + "/" + Decimal(maxIterations) + "/" + Decimal(left)
              + if finalNotice then " stop" else " consolidate"
  {
    hide Decimal;
    assert left == if used <= maxIterations then maxIterations - used else 0;
  }

  /** The notice that a model call carries, in closed form. */
  function NoticeAt(iteration: nat, maxIterations: nat): Option<Message> {
    if iteration >= Threshold(1, maxIterations) then Some(Notice(Threshold(1, maxIterations), maxIterations, true))
    else if iteration >= Threshold(0, maxIterations) then Some(Notice(Threshold(0, maxIterations), maxIterations, false))
    else None
  }

  /** With any budget at all, the final notice is sent before the budget is used up, and the
      first notice never comes after it. */
  lemma FinalNoticeIsInTime(maxIterations: nat)
    requires maxIterations > 0
    ensures Threshold(0, maxIterations) <= Threshold(1, maxIterations) < maxIterations
    ensures NoticeAt(maxIterations - 1, maxIterations) == Some(Notice(Threshold(1, maxIterations), maxIterations, true))
  {
  }

  // ---- The model and its surroundings ----

  datatype Usage = Usage(input: nat, cacheCreation: nat, cacheRead: nat, output: nat)

  datatype Response = Response(
    content: string,
    finishReason: string,
    usage: Usage,
    toolCalls: Option<seq<ToolCall>>,
    thinking: Option<string>)

  function FinalText(r: Response): string {
    if r.content == "" && r.finishReason == "end_turn" then (if r.thinking.Some? then r.thinking.value else "") else r.content
  }

  /** The tokens a call costs; what was read from the cache is not counted. */
  function Billable(u: Usage): nat {
    u.input + u.cacheCreation + u.output
  }

  datatype ChatError = Cancelled | Provider(text: string) | Runtime | WrapUpFailed | StoreFailed

  /** Where the loop looks at its cancellation token. */
  datatype Point = Top | AfterCall | BeforeTools | BeforeTool(index: nat) | AfterTools | BeforeWrapUp

  /** The awaited records of the loop, each of which may fail. */
  datatype Record = Preparing | Verdict

  /** Everything the loop does not decide itself. Chart validation is an arbitrary verdict. */
  datatype World = World(
    elapsed: nat -> nat,
    cancelled: (nat, Point) -> bool,
    complete: (nat, seq<Message>, bool) -> Result<Response, ChatError>,
    execute: (nat, nat, ToolCall) -> Result<string, ChatError>,
    recorded: (nat, Record) -> bool,
    hasChart: string -> bool,
    chartError: (nat, string) -> Option<string>,
    stripped: string -> string)

  datatype Config = Config(maxIterations: nat, maxDuration: Option<nat>, maxTotalTokens: Option<nat>, durable: bool)

  /** A call to the model: the messages sent, how much of the transcript they show, the ephemeral
      ones after it, whether tools were offered, the tokens used up before, those it cost, and what
      it answered. */
  datatype ModelCall = ModelCall(
    messages: seq<Message>,
    seen: nat,
    retries: seq<Message>,
    notice: Option<Message>,
    tools: bool,
    tokens: nat,
    billed: nat,
    answer: Option<Response>)

  function Billed(calls: seq<ModelCall>): nat {
    if calls == [] then 0 else Billed(calls[..|calls| - 1]) + calls[|calls| - 1].billed
  }

  /** What the rest of the program sees of a turn: messages appearing, and iteration boundaries. */
  datatype AgentStep = Push(message: Message) | Boundary

  function Pushed(steps: seq<AgentStep>): seq<Message> {
    if steps == [] then []
    else
      var last := steps[|steps| - 1];
      Pushed(steps[..|steps| - 1]) + (if last.Push? then [last.message] else [])
  }

  lemma {:induction false} PushedConcat(a: seq<AgentStep>, b: seq<AgentStep>)
    ensures Pushed(a + b) == Pushed(a) + Pushed(b)
  {
    if b == [] {
      assert a + b == a;
    } else {
      PushedConcat(a, b[..|b| - 1]);
      assert (a + b)[..|a + b| - 1] == a + b[..|b| - 1];
    }
  }

  lemma PushedStep(steps: seq<AgentStep>, step: AgentStep)
    ensures Pushed(steps + [step]) == Pushed(steps) + (if step.Push? then [step.message] else [])
  {
    assert (steps + [step])[..|steps|] == steps;
  }

  function Boundaries(steps: seq<AgentStep>): nat {
    if steps == [] then 0 else Boundaries(steps[..|steps| - 1]) + if steps[|steps| - 1].Boundary? then 1 else 0
  }

  lemma {:induction false} BoundariesConcat(a: seq<AgentStep>, b: seq<AgentStep>)
    ensures Boundaries(a + b) == Boundaries(a) + Boundaries(b)
  {
    if b == [] {
      assert a + b == a;
    } else {
      BoundariesConcat(a, b[..|b| - 1]);
      assert (a + b)[..|a + b| - 1] == a + b[..|b| - 1];
    }
  }

  lemma BoundariesStep(steps: seq<AgentStep>, step: AgentStep)
    ensures Boundaries(steps + [step]) == Boundaries(steps) + if step.Boundary? then 1 else 0
  {
    assert (steps + [step])[..|steps|] == steps;
  }

  // ---- The shape of a turn ----

  /** An assistant message that calls tools, and results of its calls so far; `call` is the model
      call that answered it. */
  datatype Group = Group(call: nat, content: string, calls: seq<ToolCall>, results: seq<string>)

  predicate Complete(g: Group) {
    |g.results| == |g.calls|
  }

  function Results(g: Group, n: nat): seq<Message>
    requires n <= |g.results| && n <= |g.calls|
  {
    if n == 0 then [] else Results(g, n - 1) + [ToolResultMessage(g.calls[n - 1].id, g.calls[n - 1].name, g.results[n - 1])]
  }

  function GroupMessages(g: Group): seq<Message> {
    [ToolCallsMessage(g.content, g.calls)] + Results(g, if |g.results| <= |g.calls| then |g.results| else |g.calls|)
  }

  predicate WellShaped(groups: seq<Group>, complete: bool) {
    && (forall i :: 0 <= i < |groups| ==> |groups[i].results| <= |groups[i].calls|)
    && (forall i :: 0 <= i < |groups| && (complete || i < |groups| - 1) ==> Complete(groups[i]))
  }

  function Flatten(groups: seq<Group>): seq<Message> {
    if groups == [] then [] else Flatten(groups[..|groups| - 1]) + GroupMessages(groups[|groups| - 1])
  }

  /** The boundaries that a complete group comes with: one at its end, and in a leased run one
      after each of its messages. */
  function GroupBoundaries(durable: bool, g: Group): nat {
    if durable then |g.calls| + 2 else 1
  }

  lemma BoundariesOfGroup(durable: bool, g: Group)
    requires Complete(g)
    ensures GroupBoundaries(durable, g) == (if durable then 1 + |g.results| else 0) + 1
  {
  }

  function BoundariesOf(durable: bool, groups: seq<Group>): nat {
    if groups == [] then 0 else BoundariesOf(durable, groups[..|groups| - 1]) + GroupBoundaries(durable, groups[|groups| - 1])
  }

  lemma BoundariesOfStep(durable: bool, groups: seq<Group>, g: Group)
    ensures BoundariesOf(durable, groups + [g]) == BoundariesOf(durable, groups) + GroupBoundaries(durable, g)
  {
    assert (groups + [g])[..|groups|] == groups;
  }

  lemma FlattenStep(groups: seq<Group>, g: Group)
    ensures Flatten(groups + [g]) == Flatten(groups) + GroupMessages(g)
  {
    assert (groups + [g])[..|groups|] == groups;
  }

  lemma {:induction false} ResultsStable(g: Group, result: string, n: nat)
    requires n <= |g.results| <= |g.calls|
    ensures Results(g.(results := g.results + [result]), n) == Results(g, n)
  {
    if n > 0 {
      ResultsStable(g, result, n - 1);
    }
  }

  lemma ResultsStep(g: Group, result: string)
    requires |g.results| < |g.calls|
    ensures Results(g.(results := g.results + [result]), |g.results| + 1)
      == Results(g, |g.results|) + [ToolResultMessage(g.calls[|g.results|].id, g.calls[|g.results|].name, result)]
  {
    ResultsStable(g, result, |g.results|);
  }

  // ---- The request ----

  function SummaryMessage(summary: string): Message {
    UserMessage("## Prior Conversation Context\n" + summary, None)
  }

  const ACKNOWLEDGMENT: Message :=
    AssistantMessage("I understand the context")

  const WRAP_UP_INSTRUCTION: Message :=
    UserMessage("<system-reminder>budget exhausted", None)

  function RetryInstruction(error: string): Message {
    UserMessage("SYSTEM: " + error, None)
  }

  function BuildLlmContext(messages: seq<Message>, summary: Option<string>, recentStart: nat): seq<Message> {
    if summary.None? then messages
    else
      (if messages != [] && messages[0].role.SystemRole? then [messages[0]] else [])
      + [SummaryMessage(summary.value), ACKNOWLEDGMENT]
      + (if recentStart < |messages| then messages[recentStart..] else [])
  }

  function Request(context: seq<Message>, retries: seq<Message>, notice: Option<Message>): seq<Message> {
    context + retries + if notice.Some? then [notice.value] else []
  }

  // ---- What a turn promises ----

  /** A call with tools is made within the budgets and carries the notice of its iteration; one
      without tools is made after a budget was used up. */
  predicate CallOk(config: Config, elapsed: nat -> nat, i: nat, call: ModelCall) {
    || (&& call.tools
        && i < config.maxIterations
        && call.notice == NoticeAt(i, config.maxIterations)
        && CheckStopConditions(config.maxDuration, config.maxTotalTokens, elapsed(i), call.tokens).None?)
    || (&& !call.tools
        && call.notice == Some(WRAP_UP_INSTRUCTION)
        && (|| i == config.maxIterations
            || CheckStopConditions(config.maxDuration, config.maxTotalTokens, elapsed(i), call.tokens).Some?))
  }

  /** Each call knows what the calls before it cost. */
  ghost predicate Tallied(calls: seq<ModelCall>) {
    forall i :: 0 <= i < |calls| ==> calls[i].tokens == Billed(calls[..i])
  }

  lemma TalliedAppend(calls: seq<ModelCall>, call: ModelCall)
    requires Tallied(calls) && call.tokens == Billed(calls)
    ensures Tallied(calls + [call]) && Billed(calls + [call]) == Billed(calls) + call.billed
  {
    var calls' := calls + [call];
    assert calls'[..|calls|] == calls;
    forall i | 0 <= i < |calls'| ensures calls'[i].tokens == Billed(calls'[..i]) {
      if i < |calls| {
        assert calls'[..i] == calls[..i];
      }
    }
  }

  ghost predicate LoopCalls(config: Config, elapsed: nat -> nat, calls: seq<ModelCall>) {
    && (forall i :: 0 <= i < |calls| ==> calls[i].tools && CallOk(config, elapsed, i, calls[i]))
    && Tallied(calls)
  }

  /** The calls of a turn: calls with tools, and at the end at most one without. */
  ghost predicate CallsOk(config: Config, elapsed: nat -> nat, calls: seq<ModelCall>) {
    && |calls| <= config.maxIterations + 1
    && (forall i :: 0 <= i < |calls| ==> CallOk(config, elapsed, i, calls[i]))
    && (forall i :: 0 <= i < |calls| - 1 ==> calls[i].tools)
    && Tallied(calls)
  }

  /** The budgets hold call by call, and are used before the turn gives up: at most one call beyond
      the iteration limit; each call with tools made before the deadline and with fewer tokens used
      up than the limit; only the last call made without tools, and only once a budget is used up.
      The notices come at seven and at nine tenths of the iterations. */
  ghost predicate WithinBudget(config: Config, elapsed: nat -> nat, calls: seq<ModelCall>) {
    && |calls| <= config.maxIterations + 1
    && (forall i :: 0 <= i < |calls| ==> CallInBudget(config, elapsed, calls, i))
    && (forall i :: 0 <= i < |calls| && !calls[i].tools ==> i == |calls| - 1)
  }

  predicate CallInBudget(config: Config, elapsed: nat -> nat, calls: seq<ModelCall>, i: nat)
    requires i < |calls|
  {
    var limit := config.maxIterations;
    var late := config.maxDuration.Some? && config.maxDuration.value <= elapsed(i);
    var spent := config.maxTotalTokens.Some? && config.maxTotalTokens.value <= Billed(calls[..i]);
    && (calls[i].tools ==>
          && i < limit && !late && !spent
          && (10 * (i + 1) <= 7 * limit ==> calls[i].notice == None)
          && (7 * limit < 10 * (i + 1) <= 9 * limit ==> calls[i].notice == Some(Notice(7 * limit / 10, limit, false)))
          && (9 * limit < 10 * (i + 1) ==> calls[i].notice == Some(Notice(9 * limit / 10, limit, true))))
    && (!calls[i].tools ==> (i == limit || late || spent) && calls[i].notice == Some(WRAP_UP_INSTRUCTION))
  }

  lemma TurnStaysInBudget(config: Config, elapsed: nat -> nat, calls: seq<ModelCall>)
    requires CallsOk(config, elapsed, calls)
    ensures WithinBudget(config, elapsed, calls)
  {
    hide Notice, Billed;
    forall i | 0 <= i < |calls| ensures CallInBudget(config, elapsed, calls, i) {
      assert CallOk(config, elapsed, i, calls[i]);
    }
  }

  lemma AppendCall(config: Config, elapsed: nat -> nat, calls: seq<ModelCall>, call: ModelCall)
    requires LoopCalls(config, elapsed, calls) && |calls| <= config.maxIterations
    requires CallOk(config, elapsed, |calls|, call) && call.tokens == Billed(calls)
    ensures CallsOk(config, elapsed, calls + [call])
    ensures call.tools ==> LoopCalls(config, elapsed, calls + [call])
    ensures Billed(calls + [call]) == Billed(calls) + call.billed
  {
    hide CallOk, Tallied, Billed;
    TalliedAppend(calls, call);
  }

  // ---- Where a turn comes from ----

  predicate AsksTools(call: ModelCall) {
    call.tools && call.answer.Some? && call.answer.value.toolCalls.Some?
  }

  /** The calls that were answered with tool calls, in order. */
  function Askers(calls: seq<ModelCall>): seq<nat> {
    if calls == [] then []
    else Askers(calls[..|calls| - 1]) + if AsksTools(calls[|calls| - 1]) then [|calls| - 1] else []
  }

  function CallsOf(groups: seq<Group>): seq<nat> {
    seq(|groups|, i requires 0 <= i < |groups| => groups[i].call)
  }

  /** What the transcript keeps of the text beside tool calls. */
  function KeptText(world: World, config: Config, content: string): string {
    if config.durable && world.hasChart(content) then "" else content
  }

  /** A group is the answer of its call, and its results are those of its tools, call by call. */
  predicate Faithful(world: World, config: Config, calls: seq<ModelCall>, g: Group) {
    && g.call < |calls| && AsksTools(calls[g.call])
    && calls[g.call].answer.value.toolCalls == Some(g.calls)
    && g.content == KeptText(world, config, calls[g.call].answer.value.content)
    && forall i :: 0 <= i < |g.results| && i < |g.calls| ==> world.execute(g.call, i, g.calls[i]) == Success(g.results[i])
  }

  /** A call has the answer that the model gave to its messages, if it gave one, and costs what that
      used, but for what was read from the cache. */
  predicate Replied(world: World, i: nat, call: ModelCall) {
    match world.complete(i, call.messages, call.tools)
    case Success(r) => call.answer == Some(r) && call.billed == r.usage.input + r.usage.cacheCreation + r.usage.output
    case Failure(_) => call.answer.None? && call.billed == 0
  }

  /** The calls have their answers, and the groups are those of the calls that were answered with
      tool calls, in order: all of them, or all but the last. */
  ghost predicate Traced(world: World, config: Config, calls: seq<ModelCall>, groups: seq<Group>, all: bool) {
    && (forall i :: 0 <= i < |calls| ==> Replied(world, i, calls[i]))
    && (forall i :: 0 <= i < |groups| ==> Faithful(world, config, calls, groups[i]))
    && (CallsOf(groups) == Askers(calls) || (!all && Askers(calls) != [] && CallsOf(groups) == Askers(calls)[..|Askers(calls)| - 1]))
  }

  lemma AskersStep(calls: seq<ModelCall>, call: ModelCall)
    ensures Askers(calls + [call]) == Askers(calls) + if AsksTools(call) then [|calls|] else []
  {
    assert (calls + [call])[..|calls|] == calls;
  }

  lemma CallJoins(world: World, config: Config, calls: seq<ModelCall>, groups: seq<Group>, call: ModelCall)
    requires forall i :: 0 <= i < |calls| ==> Replied(world, i, calls[i])
    requires forall i :: 0 <= i < |groups| ==> Faithful(world, config, calls, groups[i])
    requires Replied(world, |calls|, call)
    ensures forall i :: 0 <= i < |calls + [call]| ==> Replied(world, i, (calls + [call])[i])
    ensures forall i :: 0 <= i < |groups| ==> Faithful(world, config, calls + [call], groups[i])
  {
    hide Replied, KeptText, AsksTools;
    forall i | 0 <= i < |groups| ensures Faithful(world, config, calls + [call], groups[i]) {
      assert Faithful(world, config, calls, groups[i]);
      assert (calls + [call])[groups[i].call] == calls[groups[i].call];
    }
  }

  lemma TracedAsked(world: World, config: Config, calls: seq<ModelCall>, groups: seq<Group>, call: ModelCall)
    requires Traced(world, config, calls, groups, true) && Replied(world, |calls|, call)
    ensures Traced(world, config, calls + [call], groups, !AsksTools(call))
    ensures AsksTools(call) ==> Askers(calls + [call]) == CallsOf(groups) + [|calls|]
  {
    hide Replied, Faithful, AsksTools, Askers, CallsOf;
    CallJoins(world, config, calls, groups, call);
    AskersStep(calls, call);
    assert Askers(calls) + [] == Askers(calls) && (Askers(calls) + [|calls|])[..|Askers(calls)|] == Askers(calls);
  }

  lemma TracedGroup(world: World, config: Config, calls: seq<ModelCall>, groups: seq<Group>, g: Group)
    requires Traced(world, config, calls, groups, false) && Faithful(world, config, calls, g)
    requires Askers(calls) == CallsOf(groups) + [g.call]
    ensures Traced(world, config, calls, groups + [g], true)
  {
    assert CallsOf(groups + [g]) == CallsOf(groups) + [g.call];
  }

  /** Nothing is cancelled and nothing fails. */
  ghost predicate Undisturbed(world: World) {
    && (forall i, point :: !world.cancelled(i, point))
    && (forall i, record :: world.recorded(i, record))
    && (forall i, messages, tools :: world.complete(i, messages, tools).Success?)
    && (forall i, j, call :: world.execute(i, j, call).Success?)
  }

  /** The answer is the content that the last call answered with, or what it thought when it chose
      to stop without any. Within the loop a chart that is not valid is never the answer, and after
      it such a chart is stripped. */
  predicate Answered(world: World, calls: seq<ModelCall>, result: Result<string, ChatError>) {
    result.Success? ==>
      && calls != []
      && var last := calls[|calls| - 1];
      && last.answer.Some?
      && var r := last.answer.value;
      && var text := if (last.tools && r.toolCalls.Some?) || r.content != "" || r.finishReason != "end_turn" then r.content
                     else match r.thinking case Some(thought) => thought case None => "";
      && var invalid := world.hasChart(text) && world.chartError(|calls| - 1, text).Some?;
      && (last.tools ==> !invalid)
      && result.value == if invalid then world.stripped(text) else text
  }

  /** What a turn made of the answers of the model. */
  ghost predicate Grounded(world: World, config: Config, calls: seq<ModelCall>, groups: seq<Group>, result: Result<string, ChatError>) {
    && CallsOk(config, world.elapsed, calls)
    && Traced(world, config, calls, groups, result.Success?)
    && Answered(world, calls, result)
  }

  /** The new part of the transcript: the user's message, groups of a tool-calling message with
      its results, all complete but perhaps the last, and on success one final answer. */
  predicate TurnShape(pushed: seq<Message>, user: Message, groups: seq<Group>, result: Result<string, ChatError>) {
    && WellShaped(groups, result.Success?)
    && pushed == [user] + Flatten(groups) + if result.Success? then [AssistantMessage(result.value)] else []
  }

  /** A call was sent what the transcript then was, or its compaction, and its ephemeral messages. */
  predicate Sent(transcript: seq<Message>, summary: Option<string>, recentStart: nat, call: ModelCall) {
    && call.seen <= |transcript|
    && var shown := transcript[..call.seen];
    && call.messages
         == (match summary
             case None => shown
             case Some(text) =>
               (if shown != [] && shown[0].role.SystemRole? then shown[..1] else [])
               + [UserMessage("## Prior Conversation Context\n" + text, None), ACKNOWLEDGMENT]
               + (if recentStart < |shown| then shown[recentStart..] else []))
            + call.retries
            + (match call.notice case Some(notice) => [notice] case None => [])
  }

  ghost predicate AllSent(transcript: seq<Message>, summary: Option<string>, recentStart: nat, calls: seq<ModelCall>) {
    forall i :: 0 <= i < |calls| ==> Sent(transcript, summary, recentStart, calls[i])
  }

  lemma SentStays(transcript: seq<Message>, more: seq<Message>, summary: Option<string>, recentStart: nat, calls: seq<ModelCall>)
    requires AllSent(transcript, summary, recentStart, calls)
    ensures AllSent(transcript + more, summary, recentStart, calls)
  {
    forall i | 0 <= i < |calls| ensures Sent(transcript + more, summary, recentStart, calls[i]) {
      assert (transcript + more)[..calls[i].seen] == transcript[..calls[i].seen];
    }
  }

  /** The groups of the calls before one. */
  function GroupsBefore(groups: seq<Group>, i: nat): seq<Group> {
    if groups == [] || groups[|groups| - 1].call < i then groups else GroupsBefore(groups[..|groups| - 1], i)
  }

  /** What the calls so far leave for the next one to carry: after an invalid chart the answer that
      was rejected and why, added to those before it. Tool calls clear what was there, and leave the
      reason only, the answer being in the transcript unless a leased run keeps charts out of it. */
  function RetriesAfter(world: World, config: Config, calls: seq<ModelCall>): seq<Message> {
    if calls == [] || calls[|calls| - 1].answer.None? then []
    else
      var n := |calls| - 1;
      var r := calls[n].answer.value;
      match r.toolCalls
      case None =>
        var text := FinalText(r);
        RetriesAfter(world, config, calls[..n])
        + (if !world.hasChart(text) then []
           else
             match world.chartError(n, text)
             case Some(error) => [AssistantMessage(text), UserMessage("SYSTEM: " + error, None)]
             case None => [])
      case Some(_) =>
        if !world.hasChart(r.content) then []
        else
          match world.chartError(n, r.content)
          case Some(error) =>
            (if config.durable then [AssistantMessage(r.content)] else []) + [UserMessage("SYSTEM: " + error, None)]
          case None => []
  }

  /** Every call was shown the whole transcript as it was then, and what the calls before it left. */
  ghost predicate Presented(world: World, config: Config, start: nat, groups: seq<Group>, calls: seq<ModelCall>) {
    forall i :: 0 <= i < |calls| ==> PresentedAt(world, config, start, groups, calls, i)
  }

  predicate PresentedAt(world: World, config: Config, start: nat, groups: seq<Group>, calls: seq<ModelCall>, i: nat)
    requires i < |calls|
  {
    && calls[i].seen == start + 1 + |Flatten(GroupsBefore(groups, i))|
    && calls[i].retries == RetriesAfter(world, config, calls[..i])
  }

  lemma PresentedAsked(world: World, config: Config, start: nat, groups: seq<Group>, calls: seq<ModelCall>, call: ModelCall)
    requires Presented(world, config, start, groups, calls) && forall g :: g in groups ==> g.call < |calls|
    requires call.seen == start + 1 + |Flatten(groups)| && call.retries == RetriesAfter(world, config, calls)
    ensures Presented(world, config, start, groups, calls + [call])
  {
    hide RetriesAfter, Flatten;
    var calls' := calls + [call];
    assert calls'[..|calls|] == calls;
    forall i | 0 <= i < |calls'| ensures PresentedAt(world, config, start, groups, calls', i) {
      if i < |calls| {
        assert PresentedAt(world, config, start, groups, calls, i);
        assert calls'[..i] == calls[..i];
      }
    }
  }

  lemma PresentedJoined(world: World, config: Config, start: nat, groups: seq<Group>, calls: seq<ModelCall>, g: Group)
    requires Presented(world, config, start, groups, calls) && g.call + 1 == |calls|
    ensures Presented(world, config, start, groups + [g], calls)
  {
    hide RetriesAfter, Flatten;
    var groups' := groups + [g];
    assert groups'[..|groups|] == groups;
    forall i | 0 <= i < |calls| ensures PresentedAt(world, config, start, groups', calls, i) {
      assert PresentedAt(world, config, start, groups, calls, i);
    }
  }

  /** The groups so far are of calls so far. */
  lemma GroupsOfCalls(world: World, config: Config, calls: seq<ModelCall>, groups: seq<Group>, all: bool)
    requires Traced(world, config, calls, groups, all)
    ensures forall g :: g in groups ==> g.call < |calls|
  {
    hide KeptText, AsksTools, Replied;
    forall g | g in groups ensures g.call < |calls| {
      assert Faithful(world, config, calls, g);
    }
  }

  /** The thresholds crossed, and the notice sent, by the iterations before one. */
  function FiredBefore(iteration: nat, maxIterations: nat): nat {
    if iteration == 0 then 0 else Crossed(iteration - 1, maxIterations)
  }

  function NoticeBefore(iteration: nat, maxIterations: nat): Option<Message> {
    if iteration == 0 then None else NoticeAt(iteration - 1, maxIterations)
  }

  /** The running count of crossed thresholds keeps the notice at its closed form. */
  lemma NoticeStep(iteration: nat, maxIterations: nat, fired: nat, notice: Option<Message>)
    requires fired == FiredBefore(iteration, maxIterations) && notice == NoticeBefore(iteration, maxIterations)
    ensures var crossed := Crossed(iteration, maxIterations);
      && fired <= crossed
      && NoticeAt(iteration, maxIterations)
           == if crossed > fired then Some(Notice(iteration, maxIterations, crossed == 2)) else notice
  {
    hide Notice;
  }

  /** A turn so far: the transcript it started from, and all it did. */
  datatype Turn = Turn(base: seq<Message>, user: Message, steps: seq<AgentStep>, groups: seq<Group>, calls: seq<ModelCall>)

  class CustomAgent {
    const config: Config
    var messages: seq<Message>
    var globalIteration: nat
    var compactedSummary: Option<string>
    var messagesSinceCompaction: nat

    constructor (config: Config, messages: seq<Message>, summary: Option<string>, recentStart: nat)
      ensures this.config == config && this.messages == messages && globalIteration == 0
      ensures compactedSummary == summary && messagesSinceCompaction == recentStart
    {
      this.config := config;
      this.messages := messages;
      globalIteration := 0;
      compactedSummary := summary;
      messagesSinceCompaction := recentStart;
    }

    /** Runs the calls of one response in order, one result message after the other. */
    method ExecuteTools(world: World, iteration: nat, content: string, calls: seq<ToolCall>)
      returns (error: Option<ChatError>, steps: seq<AgentStep>, ghost group: Group)
      modifies this`messages
      ensures group == Group(iteration, content, calls, group.results) && |group.results| <= |calls|
      ensures forall i :: 0 <= i < |group.results| ==> world.execute(iteration, i, calls[i]) == Success(group.results[i])
      ensures messages == old(messages) + Pushed(steps)
      ensures Pushed(steps) == Results(group, |group.results|)
      ensures Boundaries(steps) == if config.durable then |group.results| else 0
      ensures error.None? ==> Complete(group)
      ensures Undisturbed(world) ==> error.None?
    {
      hide Pushed, Results, Boundaries;
      steps := [];
      error := None;
      group := Group(iteration, content, calls, []);
      NoResults(group);
      for i := 0 to |calls|
        invariant group == Group(iteration, content, calls, group.results) && |group.results| == i
        invariant forall j :: 0 <= j < i ==> world.execute(iteration, j, calls[j]) == Success(group.results[j])
        invariant messages == old(messages) + Pushed(steps)
        invariant Pushed(steps) == Results(group, i)
        invariant Boundaries(steps) == if config.durable then i else 0
      {
        if world.cancelled(iteration, BeforeTool(i)) {
          error := Some(Cancelled);
          return;
        }
        var result := world.execute(iteration, i, calls[i]);
        if result.Failure? {
          error := Some(result.error);
          return;
        }
        var message := ToolResultMessage(calls[i].id, calls[i].name, result.value);
        ResultsStep(group, result.value);
        group := group.(results := group.results + [result.value]);
        messages := messages + [message];
        PushedStep(steps, Push(message));
        BoundariesStep(steps, Push(message));
        steps := steps + [Push(message)];
        if config.durable {
          PushedStep(steps, Boundary);
          BoundariesStep(steps, Boundary);
          steps := steps + [Boundary];
        }
      }
    }

    /** Sends the transcript, or its compaction, and the ephemeral messages to the model. */
    method Ask(world: World, iteration: nat, retries: seq<Message>, notice: Option<Message>, tools: bool, tokens: nat)
      returns (response: Result<Response, ChatError>, call: ModelCall)
      modifies this`globalIteration
      ensures globalIteration == old(globalIteration) + 1
      ensures Sent(messages, compactedSummary, messagesSinceCompaction, call)
      ensures call.notice == notice && call.tools == tools && call.tokens == tokens
      ensures call.seen == |messages| && call.retries == retries
      ensures call.answer == (if response.Success? then Some(response.value) else None) && Replied(world, iteration, call)
      ensures response == world.complete(iteration, call.messages, tools)
    {
      globalIteration := globalIteration + 1;
      var request := Request(BuildLlmContext(messages, compactedSummary, messagesSinceCompaction), retries, notice);
      assert messages[..|messages|] == messages;
      response := world.complete(iteration, request, tools);
      call := ModelCall(request, |messages|, retries, notice, tools, tokens,
                        if response.Success? then Billable(response.value.usage) else 0,
                        if response.Success? then Some(response.value) else None);
    }

    /** What follows a response that calls tools: its message, the calls, an iteration boundary. */
    method UseTools(world: World, iteration: nat, response: Response)
      returns (error: Option<ChatError>, steps: seq<AgentStep>, ghost group: Group)
      requires response.toolCalls.Some?
      modifies this`messages
      ensures messages == old(messages) + Pushed(steps)
      ensures |group.results| <= |group.calls| && Pushed(steps) == GroupMessages(group)
      ensures group == Group(iteration, KeptText(world, config, response.content), response.toolCalls.value, group.results)
      ensures forall i :: 0 <= i < |group.results| ==> world.execute(iteration, i, group.calls[i]) == Success(group.results[i])
      ensures error.None? ==> Complete(group) && Boundaries(steps) == GroupBoundaries(config.durable, group)
      ensures Undisturbed(world) ==> error.None?
    {
      hide Pushed, Results, Boundaries, Undisturbed, GroupBoundaries, Complete;
      var content := if config.durable && world.hasChart(response.content) then "" else response.content;
      var message := ToolCallsMessage(content, response.toolCalls.value);
      messages := messages + [message];
      steps := [Push(message)] + if config.durable then [Boundary] else [];
      PushedFirst(message, config.durable);
      group := Group(iteration, content, response.toolCalls.value, []);
      assert Results(group, 0) == [] by {
        NoResults(group);
      }
      if world.cancelled(iteration, BeforeTools) {
        Disturbed(world, iteration, BeforeTools);
        error := Some(Cancelled);
        return;
      }
      var executed;
      error, executed, group := ExecuteTools(world, iteration, content, response.toolCalls.value);
      PushedConcat(steps, executed);
      BoundariesConcat(steps, executed);
      steps := steps + executed;
      if error.Some? {
        return;
      }
      if world.cancelled(iteration, AfterTools) {
        Disturbed(world, iteration, AfterTools);
        error := Some(Cancelled);
        return;
      }
      PushedStep(steps, Boundary);
      BoundariesStep(steps, Boundary);
      steps := steps + [Boundary];
      BoundariesOfGroup(config.durable, group);
    }

    /** What holds of a turn between two iterations, or, with `pending`, before the group of its
        last call joins. */
    ghost predicate Between(t: Turn, world: World, pending: bool)
      reads this
    {
      && messages == t.base + Pushed(t.steps)
      && WellShaped(t.groups, true) && Pushed(t.steps) == [t.user] + Flatten(t.groups)
      && |t.steps| > 0 && t.steps[0] == Push(t.user) && Boundaries(t.steps) == BoundariesOf(config.durable, t.groups)
      && LoopCalls(config, world.elapsed, t.calls)
      && Traced(world, config, t.calls, t.groups, !pending)
      && Presented(world, config, |t.base|, t.groups, t.calls)
      && AllSent(messages, compactedSummary, messagesSinceCompaction, t.calls)
    }

    /** What holds of a turn that has ended. */
    ghost predicate Ended(t: Turn, world: World, result: Result<string, ChatError>)
      reads this
    {
      && messages == t.base + Pushed(t.steps)
      && TurnShape(Pushed(t.steps), t.user, t.groups, result)
      && |t.steps| > 0 && t.steps[0] == Push(t.user)
      && (result.Success? ==>
            && t.steps[|t.steps| - 1] == Push(AssistantMessage(result.value))
            && Boundaries(t.steps) == BoundariesOf(config.durable, t.groups))
      && CallsOk(config, world.elapsed, t.calls)
      && Traced(world, config, t.calls, t.groups, result.Success?)
      && Answered(world, t.calls, result)
      && Presented(world, config, |t.base|, t.groups, t.calls)
      && AllSent(messages, compactedSummary, messagesSinceCompaction, t.calls)
    }

    lemma StartBetween(base: seq<Message>, user: Message, world: World)
      requires messages == base + [user]
      ensures Between(Turn(base, user, [Push(user)], [], []), world, false)
    {
      PushedStep([], Push(user));
      BoundariesStep([], Push(user));
      EmptyTurn(world, config, messages, compactedSummary, messagesSinceCompaction);
      hide AllSent, LoopCalls, Flatten, Traced;
      assert [] + [Push(user)] == [Push(user)] && [user] + Flatten([]) == [user];
    }

    /** A turn that fails here leaves what there is. */
    lemma FailBetween(t: Turn, world: World, pending: bool)
      requires Between(t, world, pending) && |t.calls| <= config.maxIterations + 1
      ensures forall error :: Ended(t, world, Failure(error))
      ensures CallsOk(config, world.elapsed, t.calls)
    {
      assert WellShaped(t.groups, false);
      forall error ensures Ended(t, world, Failure(error)) {
        FailInGroup(t, world, error);
      }
    }

    lemma FailInGroup(t: Turn, world: World, error: ChatError)
      requires messages == t.base + Pushed(t.steps)
      requires WellShaped(t.groups, false) && Pushed(t.steps) == [t.user] + Flatten(t.groups)
      requires |t.steps| > 0 && t.steps[0] == Push(t.user)
      requires CallsOk(config, world.elapsed, t.calls) && AllSent(messages, compactedSummary, messagesSinceCompaction, t.calls)
      requires Presented(world, config, |t.base|, t.groups, t.calls)
      requires Traced(world, config, t.calls, t.groups, false) || Traced(world, config, t.calls, t.groups, true)
      ensures Ended(t, world, Failure(error))
    {
      hide RetriesAfter, Presented, Pushed, Flatten, AllSent, CallsOk, Faithful;
      assert [t.user] + Flatten(t.groups) + [] == [t.user] + Flatten(t.groups);
    }

    /** The final answer joins the transcript, in `messages` and in what the turn reports. */
    method Answer(steps: seq<AgentStep>, content: string, ghost t: Turn, world: World)
      returns (steps': seq<AgentStep>)
      requires steps == t.steps && CallsOk(config, world.elapsed, t.calls)
      requires messages == t.base + Pushed(t.steps)
      requires WellShaped(t.groups, true) && Pushed(t.steps) == [t.user] + Flatten(t.groups)
      requires |t.steps| > 0 && t.steps[0] == Push(t.user) && Boundaries(t.steps) == BoundariesOf(config.durable, t.groups)
      requires Traced(world, config, t.calls, t.groups, true) && Answered(world, t.calls, Success(content))
      requires Presented(world, config, |t.base|, t.groups, t.calls)
      requires AllSent(messages, compactedSummary, messagesSinceCompaction, t.calls)
      modifies this`messages
      ensures Ended(t.(steps := steps'), world, Success(content))
    {
      hide RetriesAfter, Presented, Pushed, Boundaries, BoundariesOf, Flatten, AllSent, CallsOk, WellShaped, Traced, Answered;
      BoundariesStep(steps, Push(AssistantMessage(content)));
      SentStays(messages, [AssistantMessage(content)], compactedSummary, messagesSinceCompaction, t.calls);
      PushedStep(steps, Push(AssistantMessage(content)));
      messages := messages + [AssistantMessage(content)];
      steps' := steps + [Push(AssistantMessage(content))];
    }

    /** A response without tool calls: validated, and then the answer, or kept for a retry. */
    method Conclude(world: World, iteration: nat, response: Response, retries: seq<Message>, steps: seq<AgentStep>, ghost t: Turn)
      returns (result: Option<Result<string, ChatError>>, retries': seq<Message>, steps': seq<AgentStep>)
      requires response.toolCalls.None?
      requires Between(t, world, false) && steps == t.steps && |t.calls| == iteration + 1 <= config.maxIterations
      requires t.calls[iteration].tools && t.calls[iteration].answer == Some(response)
      requires retries == RetriesAfter(world, config, t.calls[..iteration])
      modifies this`messages
      ensures result.None? ==> Between(t, world, false) && steps' == steps && retries' == RetriesAfter(world, config, t.calls)
      ensures result.Some? ==> Ended(t.(steps := steps'), world, result.value)
      ensures Undisturbed(world) && result.Some? ==> result.value.Success?
    {
      hide Presented, Boundaries, BoundariesOf, Ended, LoopCalls, CallsOk, AllSent, Flatten, Pushed, WellShaped, Traced;
      FailBetween(t, world, false);
      retries', steps' := retries, steps;
      var content := FinalText(response);
      if !world.recorded(iteration, Preparing) || (world.hasChart(content) && !world.recorded(iteration, Verdict)) {
        result := Some(Failure(Runtime));
        return;
      }
      if world.hasChart(content) && world.chartError(iteration, content).Some? {
        retries' := retries + [AssistantMessage(content), RetryInstruction(world.chartError(iteration, content).value)];
        result := None;
        return;
      }
      steps' := Answer(steps, content, t, world);
      result := Some(Success(content));
    }

    /** The group of a response with tool calls joins the transcript. */
    method Join(world: World, iteration: nat, response: Response, steps: seq<AgentStep>, ghost t: Turn)
      returns (error: Option<ChatError>, steps': seq<AgentStep>, ghost groups: seq<Group>)
      requires response.toolCalls.Some?
      requires Between(t, world, true) && steps == t.steps && |t.calls| == iteration + 1 <= config.maxIterations
      requires t.calls[iteration].tools && t.calls[iteration].answer == Some(response)
      requires Askers(t.calls) == CallsOf(t.groups) + [iteration]
      modifies this`messages
      ensures error.None? ==> Between(t.(steps := steps', groups := groups), world, false)
      ensures error.Some? ==> Ended(t.(steps := steps', groups := groups), world, Failure(error.value))
      ensures Undisturbed(world) ==> error.None?
    {
      hide RetriesAfter, Presented, Boundaries, BoundariesOf, GroupBoundaries, Ended, LoopCalls, CallsOk, AllSent, Flatten, Pushed, WellShaped, GroupMessages, Traced, KeptText;
      FailBetween(t, world, true);
      ghost var before := messages;
      var used;
      ghost var group;
      error, used, group := UseTools(world, iteration, response);
      SentStays(before, Pushed(used), compactedSummary, messagesSinceCompaction, t.calls);
      PushedConcat(steps, used);
      BoundariesConcat(steps, used);
      BoundariesOfStep(config.durable, t.groups, group);
      GroupAdded(t.groups, group);
      assert Faithful(world, config, t.calls, group);
      TracedGroup(world, config, t.calls, t.groups, group);
      PresentedJoined(world, config, |t.base|, t.groups, t.calls, group);
      steps', groups := steps + used, t.groups + [group];
      if error.Some? {
        FailInGroup(t.(steps := steps', groups := groups), world, error.value);
      }
    }

    /** A response with tool calls: their group joins the transcript, and a chart that came with
        the calls is the answer if it is valid. */
    method Continue(world: World, iteration: nat, response: Response, steps: seq<AgentStep>, ghost t: Turn)
      returns (result: Option<Result<string, ChatError>>, retries: seq<Message>, steps': seq<AgentStep>, ghost groups: seq<Group>)
      requires response.toolCalls.Some?
      requires Between(t, world, true) && steps == t.steps && |t.calls| == iteration + 1 <= config.maxIterations
      requires t.calls[iteration].tools && t.calls[iteration].answer == Some(response)
      requires Askers(t.calls) == CallsOf(t.groups) + [iteration]
      modifies this`messages
      ensures result.None? ==>
        Between(t.(steps := steps', groups := groups), world, false) && retries == RetriesAfter(world, config, t.calls)
      ensures result.Some? ==> Ended(t.(steps := steps', groups := groups), world, result.value)
      ensures Undisturbed(world) && result.Some? ==> result.value.Success?
    {
      hide Presented, Boundaries, BoundariesOf, Ended, LoopCalls, CallsOk, AllSent, Flatten, Pushed, WellShaped, Traced, Askers, CallsOf;
      retries := [];
      var error;
      error, steps', groups := Join(world, iteration, response, steps, t);
      if error.Some? {
        result := Some(Failure(error.value));
        return;
      }
      ghost var t' := t.(steps := steps', groups := groups);
      FailBetween(t', world, false);
      result := None;
      if world.hasChart(response.content) {
        if !world.recorded(iteration, Verdict) {
          result := Some(Failure(Runtime));
          return;
        }
        var verdict := world.chartError(iteration, response.content);
        if verdict.Some? {
          retries := (if config.durable then [AssistantMessage(response.content)] else []) + [RetryInstruction(verdict.value)];
          return;
        }
        if !world.recorded(iteration, Preparing) {
          result := Some(Failure(Runtime));
          return;
        }
        steps' := Answer(steps', response.content, t', world);
        result := Some(Success(response.content));
      }
    }

    /** A notice fires when the iteration has crossed a threshold that none fired for yet, and
        replaces the one before. */
    method UpdateNotice(iteration: nat, fired: nat, notice: Option<Message>) returns (fired': nat, notice': Option<Message>)
      requires fired == FiredBefore(iteration, config.maxIterations) && notice == NoticeBefore(iteration, config.maxIterations)
      ensures fired' == FiredBefore(iteration + 1, config.maxIterations)
      ensures notice' == NoticeBefore(iteration + 1, config.maxIterations) == NoticeAt(iteration, config.maxIterations)
    {
      hide NoticeAt, Crossed, Notice;
      fired', notice' := fired, notice;
      NoticeStep(iteration, config.maxIterations, fired, notice);
      var crossed := Crossed(iteration, config.maxIterations);
      if crossed > fired {
        fired' := crossed;
        notice' := Some(Notice(iteration, config.maxIterations, crossed == 2));
      }
    }

    /** One iteration of the loop, from its model call on. */
    method Iterate(world: World, iteration: nat, retries: seq<Message>, notice: Option<Message>, tokens: nat,
                   steps: seq<AgentStep>, calls: seq<ModelCall>, ghost t: Turn)
      returns (result: Option<Result<string, ChatError>>, retries': seq<Message>, steps': seq<AgentStep>, call: ModelCall,
               ghost groups: seq<Group>)
      requires Between(t, world, false) && steps == t.steps && calls == t.calls
      requires |calls| == iteration < config.maxIterations && tokens == Billed(calls)
      requires notice == NoticeAt(iteration, config.maxIterations) && retries == RetriesAfter(world, config, calls)
      requires CheckStopConditions(config.maxDuration, config.maxTotalTokens, world.elapsed(iteration), tokens).None?
      modifies this`messages, this`globalIteration
      ensures globalIteration == old(globalIteration) + 1
      ensures Billed(calls + [call]) == Billed(calls) + call.billed
      ensures result.None? ==>
        && Between(t.(steps := steps', groups := groups, calls := calls + [call]), world, false)
        && retries' == RetriesAfter(world, config, calls + [call])
      ensures result.Some? ==> Ended(t.(steps := steps', groups := groups, calls := calls + [call]), world, result.value)
      ensures Undisturbed(world) && result.Some? ==> result.value.Success?
    {
      hide RetriesAfter, Presented, Boundaries, BoundariesOf, Replied, Ended, LoopCalls, CallsOk, AllSent, Flatten, Pushed, WellShaped, NoticeAt, CheckStopConditions, Sent, Traced, Askers, CallsOf;
      retries', steps', groups := retries, steps, t.groups;
      var answer;
      answer, call := Ask(world, iteration, retries, notice, true, tokens);
      AskedCall(config, world.elapsed, calls, call);
      SentAdded(messages, compactedSummary, messagesSinceCompaction, calls, call);
      TracedAsked(world, config, calls, t.groups, call);
      ShownSoFar(t, world, call);
      ghost var t' := t.(calls := calls + [call]);
      assert t'.calls[..iteration] == calls;
      FailBetween(t', world, AsksTools(call));
      if answer.Failure? {
        result := Some(Failure(answer.error));
        return;
      }
      if world.cancelled(iteration, AfterCall) {
        result := Some(Failure(Cancelled));
        return;
      }
      var response := answer.value;
      if response.toolCalls.None? {
        result, retries', steps' := Conclude(world, iteration, response, retries, steps, t');
      } else {
        result, retries', steps', groups := Continue(world, iteration, response, steps, t');
      }
    }

    /** The last call, without tools, once a budget is used up. */
    method WrapUp(world: World, iteration: nat, retries: seq<Message>, tokens: nat,
                  steps: seq<AgentStep>, calls: seq<ModelCall>, ghost t: Turn)
      returns (result: Result<string, ChatError>, steps': seq<AgentStep>, calls': seq<ModelCall>)
      requires Between(t, world, false) && steps == t.steps && calls == t.calls
      requires |calls| == iteration <= config.maxIterations && tokens == Billed(calls)
      requires retries == RetriesAfter(world, config, calls)
      requires iteration == config.maxIterations
        || CheckStopConditions(config.maxDuration, config.maxTotalTokens, world.elapsed(iteration), tokens).Some?
      modifies this`messages, this`globalIteration
      ensures globalIteration == old(globalIteration) + |calls'| - |calls|
      ensures Ended(t.(steps := steps', calls := calls'), world, result)
      ensures Undisturbed(world) ==> result.Success?
    {
      hide RetriesAfter, Presented, Boundaries, BoundariesOf, Replied, Ended, LoopCalls, CallsOk, AllSent, Flatten, Pushed, WellShaped, CheckStopConditions, Sent, Traced;
      steps', calls' := steps, calls;
      FailBetween(t, world, false);
      if world.cancelled(iteration, BeforeWrapUp) {
        result := Failure(Cancelled);
        return;
      }
      if !world.recorded(iteration, Preparing) {
        result := Failure(Runtime);
        return;
      }
      var answer, call := Ask(world, iteration, retries, Some(WRAP_UP_INSTRUCTION), false, tokens);
      WrapUpCall(config, world.elapsed, calls, call);
      SentAdded(messages, compactedSummary, messagesSinceCompaction, calls, call);
      TracedAsked(world, config, calls, t.groups, call);
      ShownSoFar(t, world, call);
      calls' := calls + [call];
      ghost var t' := t.(calls := calls');
      FailAfterWrapUp(t', world);
      if answer.Failure? {
        result := Failure(WrapUpFailed);
        return;
      }
      var text := FinalText(answer.value);
      var content := text;
      if world.hasChart(text) {
        if !world.recorded(iteration, Verdict) {
          result := Failure(Runtime);
          return;
        }
        if world.chartError(iteration, text).Some? {
          content := world.stripped(text);
        }
      }
      steps' := Answer(steps, content, t', world);
      result := Success(content);
    }

    /** A call made now is shown the whole transcript. */
    lemma ShownSoFar(t: Turn, world: World, call: ModelCall)
      requires Between(t, world, false) && call.seen == |messages| && call.retries == RetriesAfter(world, config, t.calls)
      ensures Presented(world, config, |t.base|, t.groups, t.calls + [call])
    {
      hide RetriesAfter, Flatten, Pushed, LoopCalls, WellShaped, AllSent, Traced, Presented;
      GroupsOfCalls(world, config, t.calls, t.groups, true);
      PresentedAsked(world, config, |t.base|, t.groups, t.calls, call);
    }

    lemma FailAfterWrapUp(t: Turn, world: World)
      requires messages == t.base + Pushed(t.steps)
      requires WellShaped(t.groups, true) && Pushed(t.steps) == [t.user] + Flatten(t.groups)
      requires |t.steps| > 0 && t.steps[0] == Push(t.user)
      requires CallsOk(config, world.elapsed, t.calls) && AllSent(messages, compactedSummary, messagesSinceCompaction, t.calls)
      requires Traced(world, config, t.calls, t.groups, true) && Presented(world, config, |t.base|, t.groups, t.calls)
      ensures forall error :: Ended(t, world, Failure(error))
    {
      assert WellShaped(t.groups, false);
      forall error ensures Ended(t, world, Failure(error)) {
        FailInGroup(t, world, error);
      }
    }

    /** One turn: the transcript grows by the user's message, groups of tool calls with their
        results, and on success one final answer, whatever the model, the tools and the clock do.
        `groups` names the parts. */
    method Chat(world: World, user: Message)
      returns (result: Result<string, ChatError>, steps: seq<AgentStep>, calls: seq<ModelCall>, ghost groups: seq<Group>)
      modifies this`messages, this`globalIteration
      ensures Ended(Turn(old(messages), user, steps, groups, calls), world, result)
      ensures globalIteration == old(globalIteration) + |calls|
      ensures Undisturbed(world) ==> result.Success?
      ensures WithinBudget(config, world.elapsed, calls)
    {
      hide RetriesAfter, Presented, Boundaries, BoundariesOf, Undisturbed, WithinBudget, NoticeAt, CheckStopConditions, LoopCalls, CallsOk, AllSent, Crossed, WellShaped, Flatten, Between, Ended, Pushed,
        FiredBefore, NoticeBefore, Billed;
      ghost var base := messages;
      messages := messages + [user];
      steps := [Push(user)];
      calls := [];
      groups := [];
      StartNotices(config.maxIterations);
      NothingToRetry(world, config);
      StartBetween(base, user, world);
      var retries: seq<Message> := [];
      var notice := None;
      var fired := 0;
      var tokens := 0;
      var iteration := 0;
      while iteration < config.maxIterations
        invariant iteration <= config.maxIterations
        invariant Between(Turn(base, user, steps, groups, calls), world, false)
        invariant |calls| == iteration && tokens == Billed(calls) && retries == RetriesAfter(world, config, calls)
        invariant globalIteration == old(globalIteration) + |calls|
        invariant fired == FiredBefore(iteration, config.maxIterations) && notice == NoticeBefore(iteration, config.maxIterations)
      {
        ghost var t := Turn(base, user, steps, groups, calls);
        if world.cancelled(iteration, Top) {
          FailBetween(t, world, false);
          result := Failure(Cancelled);
          InBudget(t, world, result);
          Disturbed(world, iteration, Top);
          return;
        }
        if CheckStopConditions(config.maxDuration, config.maxTotalTokens, world.elapsed(iteration), tokens).Some? {
          break;
        }
        fired, notice := UpdateNotice(iteration, fired, notice);
        var ended, call;
        ended, retries, steps, call, groups := Iterate(world, iteration, retries, notice, tokens, steps, calls, t);
        calls := calls + [call];
        tokens := tokens + call.billed;
        if ended.Some? {
          result := ended.value;
          InBudget(Turn(base, user, steps, groups, calls), world, result);
          return;
        }
        iteration := iteration + 1;
      }
      ghost var t := Turn(base, user, steps, groups, calls);
      result, steps, calls := WrapUp(world, iteration, retries, tokens, steps, calls, t);
      InBudget(t.(steps := steps, calls := calls), world, result);
    }

    /** What a turn that has ended left in the transcript. */
    lemma TranscriptOf(t: Turn, world: World, result: Result<string, ChatError>)
      requires Ended(t, world, result)
      ensures messages == t.base + Pushed(t.steps) && TurnShape(Pushed(t.steps), t.user, t.groups, result)
      ensures t.steps != [] && t.steps[0] == Push(t.user)
      ensures result.Success? ==>
        && t.steps[|t.steps| - 1] == Push(AssistantMessage(result.value))
        && Boundaries(t.steps) == BoundariesOf(config.durable, t.groups)
      ensures Grounded(world, config, t.calls, t.groups, result)
    {
    }

    lemma InBudget(t: Turn, world: World, result: Result<string, ChatError>)
      requires Ended(t, world, result)
      ensures WithinBudget(config, world.elapsed, t.calls)
    {
      TurnStaysInBudget(config, world.elapsed, t.calls);
    }
  }

  lemma Disturbed(world: World, i: nat, point: Point)
    requires world.cancelled(i, point)
    ensures !Undisturbed(world)
  {
  }

  // ---- Steps of a turn ----

  lemma StartNotices(maxIterations: nat)
    ensures FiredBefore(0, maxIterations) == 0 && NoticeBefore(0, maxIterations) == None && Billed([]) == 0
  {
  }

  lemma PushedFirst(message: Message, boundary: bool)
    ensures Pushed([Push(message)] + if boundary then [Boundary] else []) == [message]
    ensures Boundaries([Push(message)] + if boundary then [Boundary] else []) == if boundary then 1 else 0
  {
    PushedStep([], Push(message));
    PushedStep([Push(message)], Boundary);
    BoundariesStep([], Push(message));
    BoundariesStep([Push(message)], Boundary);
  }

  lemma NoResults(g: Group)
    ensures Results(g, 0) == [] && Pushed([]) == [] && Boundaries([]) == 0
  {
  }

  lemma NothingToRetry(world: World, config: Config)
    ensures RetriesAfter(world, config, []) == []
  {
  }

  lemma EmptyTurn(world: World, config: Config, transcript: seq<Message>, summary: Option<string>, recentStart: nat)
    ensures Traced(world, config, [], [], true)
    ensures LoopCalls(config, world.elapsed, []) && AllSent(transcript, summary, recentStart, [])
    ensures WellShaped([], true) && Flatten([]) == []
  {
  }

  lemma GroupAdded(groups: seq<Group>, g: Group)
    requires WellShaped(groups, true) && |g.results| <= |g.calls|
    ensures WellShaped(groups + [g], false)
    ensures Complete(g) ==> WellShaped(groups + [g], true)
    ensures Flatten(groups + [g]) == Flatten(groups) + GroupMessages(g)
  {
    FlattenStep(groups, g);
    hide Flatten, GroupMessages;
    var groups' := groups + [g];
    assert groups'[|groups|] == g && forall i :: 0 <= i < |groups| ==> groups'[i] == groups[i];
  }

  lemma SentAdded(transcript: seq<Message>, summary: Option<string>, recentStart: nat, calls: seq<ModelCall>, call: ModelCall)
    requires AllSent(transcript, summary, recentStart, calls) && Sent(transcript, summary, recentStart, call)
    ensures AllSent(transcript, summary, recentStart, calls + [call])
  {
    hide Sent;
  }

  lemma AskedCall(config: Config, elapsed: nat -> nat, calls: seq<ModelCall>, call: ModelCall)
    requires LoopCalls(config, elapsed, calls) && |calls| < config.maxIterations
    requires call.tools && call.notice == NoticeAt(|calls|, config.maxIterations) && call.tokens == Billed(calls)
    requires CheckStopConditions(config.maxDuration, config.maxTotalTokens, elapsed(|calls|), call.tokens).None?
    ensures LoopCalls(config, elapsed, calls + [call]) && CallsOk(config, elapsed, calls + [call])
    ensures Billed(calls + [call]) == Billed(calls) + call.billed
  {
    AppendCall(config, elapsed, calls, call);
  }

  lemma WrapUpCall(config: Config, elapsed: nat -> nat, calls: seq<ModelCall>, call: ModelCall)
    requires LoopCalls(config, elapsed, calls) && |calls| <= config.maxIterations
    requires !call.tools && call.notice == Some(WRAP_UP_INSTRUCTION) && call.tokens == Billed(calls)
    requires |calls| == config.maxIterations
      || CheckStopConditions(config.maxDuration, config.maxTotalTokens, elapsed(|calls|), call.tokens).Some?
    ensures CallsOk(config, elapsed, calls + [call])
  {
    AppendCall(config, elapsed, calls, call);
  }

  // ---- What a turn means ----

  predicate IsTranscriptOf(message: Message) {
    message.role.AssistantRole? || message.role.ToolRole?
  }

  lemma {:induction false} ResultsAreOfTools(g: Group, n: nat)
    requires n <= |g.results| && n <= |g.calls|
    ensures |Results(g, n)| == n
    ensures forall i :: 0 <= i < n ==> Results(g, n)[i] == ToolResultMessage(g.calls[i].id, g.calls[i].name, g.results[i])
  {
    if n > 0 {
      ResultsAreOfTools(g, n - 1);
    }
  }

  lemma {:induction false} GroupsAreTranscript(groups: seq<Group>)
    ensures forall m :: m in Flatten(groups) ==> IsTranscriptOf(m) && m.messageId.None?
  {
    if groups != [] {
      var g := groups[|groups| - 1];
      GroupsAreTranscript(groups[..|groups| - 1]);
      ResultsAreOfTools(g, if |g.results| <= |g.calls| then |g.results| else |g.calls|);
    }
  }

  /** The user's own message is the only one of its kind in a turn: no notice, retry instruction
      or wrap-up instruction ever enters the transcript. */
  lemma OnlyUserMessageIsFirst(pushed: seq<Message>, user: Message, groups: seq<Group>, result: Result<string, ChatError>)
    requires TurnShape(pushed, user, groups, result)
    ensures |pushed| > 0 && pushed[0] == user
    ensures forall i :: 0 < i < |pushed| ==> IsTranscriptOf(pushed[i]) && pushed[i].messageId.None?
    ensures result.Success? ==> |pushed| > 1 && pushed[|pushed| - 1] == AssistantMessage(result.value)
  {
    GroupsAreTranscript(groups);
    var flat := Flatten(groups);
    assert forall i :: 0 < i < |pushed| ==> pushed[i] in flat || (result.Success? && pushed[i] == AssistantMessage(result.value));
  }

  /** A request never loses what was said since the last compaction, nor the system prompt. */
  lemma RequestKeepsRecent(messages: seq<Message>, summary: Option<string>, recentStart: nat)
    ensures var context := BuildLlmContext(messages, summary, recentStart);
      && (recentStart <= |messages| ==>
            |context| >= |messages| - recentStart
            && context[|context| - (|messages| - recentStart)..] == messages[recentStart..])
      && (messages != [] && messages[0].role.SystemRole? ==> context != [] && context[0] == messages[0])
  {
    if summary.Some? && recentStart <= |messages| {
      var context := BuildLlmContext(messages, summary, recentStart);
      assert recentStart == |messages| ==> messages[recentStart..] == [];
      assert |context| >= |messages| - recentStart;
    }
  }
}
