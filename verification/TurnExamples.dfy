/** Turns that show what may be lost: the identity a user's row was announced under, and an answer
    of white space. */
module TurnExamples {
  import opened JsonText
  import opened Wrappers
  import opened Agent
  import opened ChatRows
  import opened Writing
  import opened Adapter
  import opened TurnWrites
  import opened TurnReloads

  /** A model that answers as it is told, and surroundings where nothing fails. */
  function Calm(complete: (nat, seq<Message>, bool) -> Result<Response, ChatError>): World {
    World(_ => 0, (_, _) => false, complete, (_, _, _) => Success(""), (_, _) => true, _ => false, (_, _) => None, s => s)
  }

  const CONFIG: Config := Config(2, None, None, false)

  const NOTHING_USED: Usage := Usage(0, 0, 0, 0)

  const CALLS_TOOL: Response :=
    Response("", "tool_use", NOTHING_USED, Some([ToolCall("t", "n", Json(""), None)]), None)

  const SAYS_OK: Response := Response("ok", "end_turn", NOTHING_USED, None, None)

  const SAYS_NOTHING: Response := Response("", "max_tokens", NOTHING_USED, None, None)

  lemma {:induction false} AskerIsListed(calls: seq<ModelCall>, i: nat)
    requires i < |calls| && AsksTools(calls[i])
    ensures i in Askers(calls)
  {
    if i < |calls| - 1 {
      AskerIsListed(calls[..|calls| - 1], i);
    }
  }

  /** When the first answer calls tools, a turn that ends with an answer has a group. */
  lemma FirstAnswerMakesGroup(world: World, config: Config, calls: seq<ModelCall>, groups: seq<Group>, result: Result<string, ChatError>)
    requires Grounded(world, config, calls, groups, result) && result.Success?
    requires config.maxIterations > 0 && config.maxDuration.None? && config.maxTotalTokens.None?
    requires forall messages :: var reply := world.complete(0, messages, true); reply.Success? && reply.value.toolCalls.Some?
    ensures groups != []
  {
    hide Answered;
    assert calls != [] by {
      LastCallAnswers(world, calls, result);
    }
    assert CallOk(config, world.elapsed, 0, calls[0]);
    assert Replied(world, 0, calls[0]);
    AskerIsListed(calls, 0);
  }

  lemma LastCallAnswers(world: World, calls: seq<ModelCall>, result: Result<string, ChatError>)
    requires Answered(world, calls, result) && result.Success?
    ensures calls != []
  {
  }

  lemma CalmIsUndisturbed(complete: (nat, seq<Message>, bool) -> Result<Response, ChatError>)
    requires forall i, messages, tools :: complete(i, messages, tools).Success?
    ensures Undisturbed(Calm(complete))
  {
  }

  lemma EmptyTable(user: UserPersistence)
    requires user.AdapterPersists?
    ensures TableOk([], 0) && Writable([], user, AdapterInserts(None))
  {
  }

  lemma TurnParts(a: Account, rows: seq<Row>, serial: nat, turn: seq<Message>, messages: seq<Message>, from: nat,
                  user: UserPersistence, assistant: AssistantPersistence, b: nat, k: nat)
    requires TurnStored(a, rows, serial, turn, messages, from, user, assistant, b, k)
    ensures IsTurn(turn, from) && Tagged(messages, from, turn, user.TagId(), assistant.TagId()) && from < |turn| == |messages|
    ensures b <= |messages| && turn[from].role.UserRole?
    ensures a.before == [] && assistant.PreinsertedId().None? ==> rows == a.added
  {
    hide Added, TableOk, LastAssistant, Persistables;
  }

  /** One tool call, and every write succeeds: the user's row, announced as "u", has another
      identity. */
  method ChosenIdIsLost() returns (rows: seq<Row>)
    ensures rows != [] && rows[0].body.role.UserRole? && rows[0].id != Given("u")
  {
    hide TurnStored, Written, Played, Grounded, TableOk, Writable, Undisturbed, IsTurn, Tagged, TurnShape, During, Pass, FailedAt,
      Reload, Calm;
    var user, assistant := AdapterPersists(Some("u")), AdapterInserts(None);
    var complete: (nat, seq<Message>, bool) -> Result<Response, ChatError> := (i, _, _) => Success(if i == 0 then CALLS_TOOL else SAYS_OK);
    var writeOk: nat -> bool := _ => true;
    var world := Calm(complete);
    CalmIsUndisturbed(complete);
    EmptyTable(user);
    var agent := new CustomAgent(CONFIG, [], None, 0);
    var adapter := new ChatAgentAdapter(agent, [], 0);
    var result, persisted;
    ghost var answer, turn, steps, groups, calls, account, b, k;
    ghost var t := adapter.Stored();
    result, persisted, answer, turn, steps, groups, calls, account, b, k :=
      adapter.Chat(world, "hi", None, None, None, user, assistant, writeOk);
    rows := adapter.rows;
    CalmAnswers(complete);
    FirstAnswerMakesGroup(world, CONFIG, calls, groups, answer);
    ghost var t', messages, from := adapter.Stored(), adapter.agent.messages, adapter.messagesLoadedCount;
    TurnParts(account, t'.rows, t'.serial, turn, messages, from, user, assistant, b, k);
    PersistedIffWritesSucceed(t, t', turn, messages, from, steps, false, groups, answer, user, assistant, writeOk, b, k, persisted);
    UserRowHasChosenId(account, t, t', turn, messages, from, steps, groups, answer, user, assistant, writeOk, b, k, persisted);
  }

  lemma CalmAnswers(complete: (nat, seq<Message>, bool) -> Result<Response, ChatError>)
    ensures Calm(complete).complete == complete
  {
  }

  lemma NothingIsAnswered(complete: (nat, seq<Message>, bool) -> Result<Response, ChatError>, calls: seq<ModelCall>, groups: seq<Group>,
                          answer: Result<string, ChatError>)
    requires Grounded(Calm(complete), CONFIG, calls, groups, answer) && answer.Success?
    requires forall i, messages, tools :: complete(i, messages, tools) == Success(SAYS_NOTHING)
    ensures answer == Success("")
  {
    LastCallAnswers(Calm(complete), calls, answer);
    assert Replied(Calm(complete), |calls| - 1, calls[|calls| - 1]);
  }

  lemma BlankIsNotRead(a: Account, rows: seq<Row>, serial: nat, turn: seq<Message>, messages: seq<Message>, from: nat, b: nat,
                       message: Message, groups: seq<Group>)
    requires TurnStored(a, rows, serial, turn, messages, from, AdapterPersists(None), AdapterInserts(None), b, |turn|)
    requires a.before == [] && turn[..from] == [] && ChatRows.WellFormed(message) && message.role.UserRole?
    requires TurnShape(turn[from..], message, groups, Success(""))
    ensures messages != [] && messages[|messages| - 1] == AssistantMessage("")
    ensures Reload(rows, None) != SeenAll(messages)
  {
    hide Accounts, IsTurn, TurnShape, Persistables, LastAssistant, Reload, SeenAll;
    assert turn[from..] == turn && from == 0;
    EndsWithAnswer(turn, message, groups, "");
    SameWithoutTags(messages, turn);
    StoredTurnReloads(a, rows, serial, turn, messages, from, AdapterPersists(None), AdapterInserts(None), b, message, groups, Success(""),
                      [], [], []);
    NothingToRead();
    assert [] + SeenAll(turn) == SeenAll(turn);
  }

  lemma NothingToRead()
    ensures Reload([], None) == []
  {
  }

  lemma SameWithoutTags(messages: seq<Message>, turn: seq<Message>)
    requires Tagged(messages, 0, turn, None, None)
    ensures messages == turn
  {
    hide LastAssistant;
    forall i | 0 <= i < |messages| ensures messages[i] == turn[i] {
      assert messages[i].(messageId := None) == turn[i] && messages[i].messageId.None?;
    }
  }

  lemma EndsWithAnswer(turn: seq<Message>, message: Message, groups: seq<Group>, answer: string)
    requires TurnShape(turn, message, groups, Success(answer))
    ensures turn != [] && turn[|turn| - 1] == AssistantMessage(answer)
  {
    hide Flatten;
  }

  /** An answer without text that ends for lack of tokens: the turn succeeds with it, everything is
      stored, and a later turn does not read it. */
  method BlankAnswerIsLost() returns (result: Result<string, ChatError>, persisted: bool, seen: seq<Message>, reloaded: seq<Message>)
    ensures result == Success("") && persisted
    ensures seen != [] && seen[|seen| - 1] == AssistantMessage("")
    ensures reloaded != SeenAll(seen)
  {
    hide TurnStored, Written, Played, Grounded, TableOk, Writable, Undisturbed, IsTurn, Tagged, TurnShape, During, Pass, FailedAt,
      Reload, Calm, SeenAll;
    var user, assistant := AdapterPersists(None), AdapterInserts(None);
    var complete: (nat, seq<Message>, bool) -> Result<Response, ChatError> := (_, _, _) => Success(SAYS_NOTHING);
    var writeOk: nat -> bool := _ => true;
    var world := Calm(complete);
    CalmIsUndisturbed(complete);
    EmptyTable(user);
    var agent := new CustomAgent(CONFIG, [], None, 0);
    var adapter := new ChatAgentAdapter(agent, [], 0);
    ghost var answer, turn, steps, groups, calls, account, b, k;
    ghost var t := adapter.Stored();
    result, persisted, answer, turn, steps, groups, calls, account, b, k :=
      adapter.Chat(world, "hi", None, None, None, user, assistant, writeOk);
    NothingIsAnswered(complete, calls, groups, answer);
    ghost var t', messages, from := adapter.Stored(), adapter.agent.messages, adapter.messagesLoadedCount;
    TurnParts(account, t'.rows, t'.serial, turn, messages, from, user, assistant, b, k);
    PersistedIffWritesSucceed(t, t', turn, messages, from, steps, false, groups, answer, user, assistant, writeOk, b, k, persisted);
    NothingToRead();
    BlankIsNotRead(account, t'.rows, t'.serial, turn, messages, from, b, UserMessage(MetadataPrefix(None, None) + "hi", None), groups);
    seen, reloaded := adapter.agent.messages, Reload(adapter.rows, None);
  }
}
