/** The record that ends a run: what it projects, and when it can be written at all. */
module Endings {
  import opened JsonText
  import opened Wrappers
  import opened Protocol
  import opened Lifecycle
  import opened LifecycleJournal

  /** The record that completes a run makes the journal project the very answer that the lifecycle
      plan projects: same message, same text, however it was split, same status. */
  lemma CompletionProjectsAnswer(conversation: ConversationId, run: RunId, s: RunSnapshot, now: i64, content: string, ids: Ids)
    requires MakePlan(EndCommand(conversation, run, Completed, TerminalPlan(s, Completed, now, content).terminalProjection.value, ids),
                      Some(Running)).Success?
    ensures var p := TerminalPlan(s, Completed, now, content).terminalProjection;
      MakePlan(EndCommand(conversation, run, Completed, p.value, ids), Some(Running)).value.projection == p
  {
    hide Validate;
  }

  // ---- Endings that are planned but cannot be written ----

  /** The bytes of an ending's record around its detail body. */
  function EndOverhead(conversation: ConversationId, run: RunId, state: RunState, messageId: MessageId, preview: string, ids: Ids): nat {
    93 + 1 + StringSize(conversation) + StringSize(run) + IdFor(ids, "terminal").Size() + 66 + 34
    + (match state case Completed => 48 + StringSize(messageId) case Failed => 25 case _ => 30)
    + 22 + StringSize(preview) + IdFor(ids, "detail").Size()
    + 2
  }

  /** Whether the record of an ending can be written depends on its escaped size, which the plan
      does not look at: with well-formed ids, a planned ending with a long content is valid exactly
      when the content, escaped, fits beside the rest of the record. Every other one is valid. */
  lemma PlannedEndingIsValid(conversation: ConversationId, run: RunId, state: RunState, p: Projection, ids: Ids)
    requires state.IsTerminal() && Utf8Len(p.content) <= MAX_DETAIL_BYTES
    requires ValidIdentity(conversation) && ValidIdentity(run) && ValidIdentity(p.messageId)
    requires ValidId(IdFor(ids, "terminal")) && ValidId(IdFor(ids, "detail"))
    ensures Validate(EndCommand(conversation, run, state, p, ids)).Success? <==>
      || state.Cancelled?
      || |p.content| <= 8000
      || EndOverhead(conversation, run, state, p.messageId, p.content[..8000], ids) + EscapedLen(p.content)
           <= MAX_DETAIL_BYTES + MAX_EVENT_BYTES
  {
    var c := EndCommand(conversation, run, state, p, ids);
    EndRecordShape(conversation, run, state, p, ids);
    EndRecordSize(conversation, run, state, p, ids);
    hide EndCommand, EscapedLen, Utf8Len, CommandSize, PayloadSize;
    assert Utf8Len(p.content) <= MAX_DETAIL_BYTES;
  }

  lemma EndRecordShape(conversation: ConversationId, run: RunId, state: RunState, p: Projection, ids: Ids)
    requires state.IsTerminal()
    requires ValidIdentity(conversation) && ValidIdentity(run) && ValidIdentity(p.messageId)
    requires ValidId(IdFor(ids, "terminal")) && ValidId(IdFor(ids, "detail"))
    ensures var c := EndCommand(conversation, run, state, p, ids);
      && c.version == VERSION && c.conversationId == conversation && c.runId == run
      && ValidId(c.eventId) && ValidId(c.idempotencyKey)
      && c.payload.Public? && PayloadIdentitiesValid(c.payload)
      && PayloadDetail(c.payload).Some? == c.detail.Some? == (!state.Cancelled? && |p.content| > 8000)
      && (c.detail.Some? ==> c.detail.value == p.content && ValidId(PayloadDetail(c.payload).value))
  {
    hide EscapedLen, Utf8Len, PublicSize;
  }

  lemma EndRecordSize(conversation: ConversationId, run: RunId, state: RunState, p: Projection, ids: Ids)
    requires state.IsTerminal()
    requires ValidIdentity(conversation) && ValidIdentity(run) && ValidIdentity(p.messageId)
    requires ValidId(IdFor(ids, "terminal")) && ValidId(IdFor(ids, "detail"))
    ensures var c := EndCommand(conversation, run, state, p, ids);
      && PayloadSize(c.payload) <= MAX_EVENT_BYTES
      && (state.Cancelled? || |p.content| <= 8000 ==> CommandSize(c) <= MAX_DETAIL_BYTES + MAX_EVENT_BYTES)
      && (!state.Cancelled? && |p.content| > 8000 ==>
            CommandSize(c)
              == EndOverhead(conversation, run, state, p.messageId, p.content[..8000], ids) + EscapedLen(p.content))
  {
    hide EscapedLen, Utf8Len;
    IdentitySize(conversation);
    IdentitySize(run);
    IdentitySize(p.messageId);
    PreviewSize(p.content, ids);
    IdSizeBound(IdFor(ids, "terminal"));
    IdSizeBound(IdFor(ids, "detail"));
    assert Decimal(1) == [Digit(1)];
  }

  lemma IdentitySize(id: string)
    requires ValidIdentity(id)
    ensures StringSize(id) <= 2 + 6 * MAX_IDENTITY_BYTES
  {
    EscapeGrowth(id);
  }

  lemma PreviewSize(content: string, ids: Ids)
    ensures EscapedLen(EndingText(content, ids).preview) <= 48000
  {
    EscapeGrowth(EndingText(content, ids).preview);
  }

  /** A content of control characters within the planned limit: the plan is accepted, and no
      journal accepts the record of it. */
  lemma PlannedEndingCanBeUnwritable(s: RunSnapshot, lease: Lease, now: i64, log: Log, conversation: ConversationId, run: RunId, ids: Ids)
    requires Validates(s, lease, now) && !s.cancellationRequested
    ensures var content := seq(MAX_DETAIL_BYTES, _ => '\U{0001}');
      var plan := PlanFinalize(s, lease, now, Completed, content);
      && plan.Success?
      && WriteEnd(log, conversation, run, Completed, plan.value.terminalProjection.value, ids).None?
  {
    var content := seq(MAX_DETAIL_BYTES, _ => '\U{0001}');
    EscapeGrowthReached(MAX_DETAIL_BYTES);
    var p := PlanFinalize(s, lease, now, Completed, content).value.terminalProjection.value;
    var c := EndCommand(conversation, run, Completed, p, ids);
    hide EscapedLen, Utf8Len, SettleTools;
    assert c.detail == Some(content);
    assert CommandSize(c) > MAX_DETAIL_BYTES + MAX_EVENT_BYTES;
  }
}
