/** Pure lifecycle policy of a leased run: submission, claim, heartbeat, cancellation and the
    four ways a run ends, each planned from a snapshot of the run. */
module Lifecycle {
  import opened JsonText
  import opened Wrappers
  import opened Protocol

  datatype ActorIdentity = ActorIdentity(actorId: string, source: string)

  datatype SubmitCommand = SubmitCommand(
    submitted: AppendCommand,
    assistantMessageId: MessageId,
    requestId: string,
    context: Json,
    actor: ActorIdentity,
    submittedAt: i64,
    newConversation: bool)

  datatype SubmissionPlan = SubmissionPlan(runId: RunId, duplicate: bool)

  datatype Lease = Lease(owner: string, fence: i64, expiresAt: i64)

  datatype RunSnapshot = RunSnapshot(
    state: RunState,
    lease: Option<Lease>,
    cancellationRequested: bool,
    assistantMessageId: MessageId,
    fence: i64,
    queuedAt: i64,
    startedAt: Option<i64>,
    terminalAt: Option<i64>)

  datatype LifecyclePlan = LifecyclePlan(snapshot: RunSnapshot, terminalProjection: Option<Projection>, changed: bool)

  datatype LifecycleError = Policy(policy: PolicyError) | NotClaimable | ConversationBusy | StaleLease | InvalidLease

  // ---- Submission ----

  /** The text a submission exposes, whether or not it was moved to a detail. */
  function Body(c: AppendCommand): string
    requires IsSubmission(c)
  {
    FullText(c.payload.public.text, c.detail)
  }

  /** Two submissions of the same thing. */
  predicate SameSubmission(a: SubmitCommand, b: SubmitCommand)
    requires IsSubmission(a.submitted) && IsSubmission(b.submitted)
  {
    && a.requestId == b.requestId
    && a.submitted.conversationId == b.submitted.conversationId
    && a.actor == b.actor
    && a.context == b.context
    && Body(a.submitted) == Body(b.submitted)
    && a.newConversation == b.newConversation
  }

  function PlanSubmission(c: SubmitCommand, existing: Option<SubmitCommand>): Result<SubmissionPlan, LifecycleError> {
    match Validate(c.submitted)
    case Failure(error) => Failure(Policy(error))
    case Success(_) =>
      if !ValidIdentity(c.requestId) || !ValidIdentity(c.assistantMessageId)
        || !ValidIdentity(c.actor.actorId) || !ValidIdentity(c.actor.source)
      then Failure(Policy(InvalidIdentity))
      else if !IsSubmission(c.submitted) then Failure(Policy(InvalidSubmission))
      else if Utf8Len(c.context.text) > MAX_DETAIL_BYTES then Failure(Policy(TooLarge))
      else
        match existing
        case None => Success(SubmissionPlan(c.submitted.runId, false))
        case Some(saved) =>
          if !IsSubmission(saved.submitted) then Failure(Policy(InvalidSubmission))
          else if !SameSubmission(c, saved) then Failure(Policy(IdempotencyConflict))
          else Success(SubmissionPlan(saved.submitted.runId, true))
  }

  function NewSnapshot(c: SubmitCommand): RunSnapshot {
    RunSnapshot(Queued, None, false, c.assistantMessageId, 0, c.submittedAt, None, None)
  }

  // ---- Leases ----

  function CheckedAdd(a: i64, b: i64): Option<i64> {
    if -0x8000_0000_0000_0000 <= a + b <= MAX_I64 then Some(a + b) else None
  }

  function Expiry(now: i64, ttl: i64): Result<i64, LifecycleError> {
    if ttl <= 0 || CheckedAdd(now, ttl).None? then Failure(InvalidLease) else Success(CheckedAdd(now, ttl).value)
  }

  function PlanClaim(s: RunSnapshot, owner: string, now: i64, ttl: i64, conversationActive: bool): Result<RunSnapshot, LifecycleError> {
    if !ValidIdentity(owner) then Failure(Policy(InvalidIdentity))
    else
      var expiresAt :- Expiry(now, ttl);
      if !s.state.Queued? || s.cancellationRequested then Failure(NotClaimable)
      else if conversationActive then Failure(ConversationBusy)
      else if s.fence == MAX_I64 || s.fence + 1 <= 0 then Failure(InvalidLease)
      else
        Success(s.(state := Running, fence := s.fence + 1, lease := Some(Lease(owner, s.fence + 1, expiresAt)),
                   startedAt := Some(now)))
  }

  function ValidateOwnership(s: RunSnapshot, lease: Lease, now: i64): Result<(), LifecycleError> {
    if s.state.Running? && s.lease.Some?
      && s.lease.value.owner == lease.owner
      && s.lease.value.fence == lease.fence
      && s.lease.value.fence == s.fence
      && s.lease.value.expiresAt > now
    then Success(())
    else Failure(StaleLease)
  }

  function PlanHeartbeat(s: RunSnapshot, lease: Lease, now: i64, ttl: i64): Result<RunSnapshot, LifecycleError> {
    var _ :- ValidateOwnership(s, lease, now);
    var expiresAt :- Expiry(now, ttl);
    Success(
      if s.lease.Some? && s.lease.value.expiresAt < expiresAt
      then s.(lease := Some(s.lease.value.(expiresAt := expiresAt)))
      else s)
  }

  // ---- Endings ----

  function Unchanged(s: RunSnapshot): LifecyclePlan {
    LifecyclePlan(s, None, false)
  }

  function TerminalPlan(s: RunSnapshot, state: RunState, now: i64, content: string): LifecyclePlan {
    LifecyclePlan(
      s.(state := state, lease := None, terminalAt := Some(now)),
      Some(Projection(s.assistantMessageId, "assistant", content, StatusOf(state))),
      true)
  }

  function StatusOf(state: RunState): string {
    match state
    case Completed => "complete"
    case Failed => "error"
    case _ => state.AsStr()
  }

  function PlanCancel(s: RunSnapshot, now: i64): LifecyclePlan {
    if s.state.IsTerminal() then Unchanged(s)
    else
      var next := s.(cancellationRequested := true);
      if s.state.Queued? then TerminalPlan(next, Cancelled, now, "Cancelled")
      else LifecyclePlan(next, None, !s.cancellationRequested)
  }

  function PlanFinalize(s: RunSnapshot, lease: Lease, now: i64, state: RunState, content: string): Result<LifecyclePlan, LifecycleError> {
    var _ :- ValidateOwnership(s, lease, now);
    if !state.IsTerminal() || state.Interrupted? then Failure(Policy(InvalidState))
    else if Utf8Len(content) > MAX_DETAIL_BYTES then Failure(Policy(TooLarge))
    else if s.cancellationRequested then Success(TerminalPlan(s, Cancelled, now, "Cancelled"))
    else Success(TerminalPlan(s, state, now, content))
  }

  function PlanInterruptQueued(s: RunSnapshot, now: i64, reason: string): Result<LifecyclePlan, LifecycleError> {
    if !s.state.Queued? then Success(Unchanged(s))
    else if Utf8Len(reason) > MAX_DETAIL_BYTES then Failure(Policy(TooLarge))
    else Success(TerminalPlan(s, Interrupted, now, reason))
  }

  function PlanExpire(s: RunSnapshot, now: i64): Result<LifecyclePlan, LifecycleError> {
    if !s.state.Running? then Success(Unchanged(s))
    else if s.lease.None? then Failure(InvalidLease)
    else if s.lease.value.expiresAt > now then Success(Unchanged(s))
    else if s.cancellationRequested then Success(TerminalPlan(s, Cancelled, now, "Cancelled"))
    else Success(TerminalPlan(s, Interrupted, now, "Interrupted"))
  }

  // ---- One run under any operations ----

  datatype Action =
    | Claim(owner: string, now: i64, ttl: i64)
    | Heartbeat(lease: Lease, now: i64, ttl: i64)
    | Cancel(now: i64)
    | Finish(lease: Lease, now: i64, state: RunState, content: string)
    | InterruptQueued(now: i64, reason: string)
    | Expire(now: i64)

  /** What an operation leaves behind: the new snapshot and the projection it writes. A refused
      operation leaves everything as it was. */
  function Step(s: RunSnapshot, a: Action, conversationActive: bool): (RunSnapshot, Option<Projection>) {
    match a
    case Claim(owner, now, ttl) =>
      (match PlanClaim(s, owner, now, ttl, conversationActive) case Success(next) => (next, None) case Failure(_) => (s, None))
    case Heartbeat(lease, now, ttl) =>
      (match PlanHeartbeat(s, lease, now, ttl) case Success(next) => (next, None) case Failure(_) => (s, None))
    case Cancel(now) => var plan := PlanCancel(s, now); (plan.snapshot, plan.terminalProjection)
    case Finish(lease, now, state, content) => Planned(s, PlanFinalize(s, lease, now, state, content))
    case InterruptQueued(now, reason) => Planned(s, PlanInterruptQueued(s, now, reason))
    case Expire(now) => Planned(s, PlanExpire(s, now))
  }

  function Planned(s: RunSnapshot, plan: Result<LifecyclePlan, LifecycleError>): (RunSnapshot, Option<Projection>) {
    match plan
    case Success(p) => (p.snapshot, p.terminalProjection)
    case Failure(_) => (s, None)
  }

  /** What holds of every snapshot a run can reach. The fence counts the claims: none or one. */
  predicate RunOk(s: RunSnapshot) {
    && (s.state.Running? <==> s.lease.Some?)
    && (s.lease.Some? ==> s.lease.value.fence == s.fence == 1 && ValidIdentity(s.lease.value.owner))
    && 0 <= s.fence <= 1
    && (s.state.Queued? ==> s.fence == 0)
    && (s.startedAt.Some? <==> s.fence == 1)
    && (s.state.IsTerminal() <==> s.terminalAt.Some?)
    && (s.cancellationRequested ==> s.state.Running? || s.state.Cancelled?)
  }

  lemma NewRunIsOk(c: SubmitCommand)
    ensures RunOk(NewSnapshot(c))
  {
  }

  /** What one operation may do to a run, whoever asks for it and when. */
  lemma StepKeepsRun(s: RunSnapshot, a: Action, active: bool)
    requires RunOk(s)
    ensures var (next, projection) := Step(s, a, active);
      && RunOk(next)
      && s.fence <= next.fence
      && next.assistantMessageId == s.assistantMessageId && next.queuedAt == s.queuedAt
      && (s.state.IsTerminal() ==> next == s)
      && (next.fence > s.fence <==> s.state.Queued? && next.state.Running?)
      && (s.state.Queued? && next.state.Running? ==> a.Claim? && !active)
      && (next.state.Running? ==> s.state.Queued? || s.state.Running?)
      && (next.state.Queued? ==> next == s)
      && (s.cancellationRequested ==> next.cancellationRequested)
      && (projection.Some? <==> next.state.IsTerminal() && !s.state.IsTerminal())
      && (projection.Some? ==>
            && projection.value.messageId == s.assistantMessageId
            && projection.value.role == "assistant"
            && projection.value.status == StatusOf(next.state)
            && next.terminalAt == Some(a.now)
            && (next.cancellationRequested ==> next.state.Cancelled? && projection.value.content == "Cancelled")
            && (!next.cancellationRequested ==>
                  (a.Finish? && next.state == a.state && projection.value.content == a.content)
                  || (a.InterruptQueued? && next.state.Interrupted? && projection.value.content == a.reason)
                  || (a.Expire? && next.state.Interrupted? && projection.value.content == "Interrupted")))
  {
  }

  // ---- What each operation comes to ----

  /** A run as it ended, and what is shown of it. */
  predicate EndsAs(s: RunSnapshot, next: RunSnapshot, projection: Option<Projection>, now: i64, state: RunState, status: string,
                   content: string)
  {
    && next == s.(state := state, lease := None, terminalAt := Some(now), cancellationRequested := next.cancellationRequested)
    && projection == Some(Projection(s.assistantMessageId, "assistant", content, status))
  }

  /** Cancelling a queued run ends it at once; a running one keeps its lease, and its next ending
      will be the cancellation. */
  lemma CancelTakesEffect(s: RunSnapshot, now: i64, active: bool)
    requires RunOk(s)
    ensures var (next, projection) := Step(s, Cancel(now), active);
      && (s.state.Running? ==> next == s.(cancellationRequested := true) && projection.None?)
      && (s.state.Queued? ==>
            EndsAs(s, next, projection, now, Cancelled, "cancelled", "Cancelled") && next.cancellationRequested)
      && (!s.state.Running? && !s.state.Queued? ==> next == s && projection.None?)
  {
  }

  /** Whoever holds the run ends it in the state and with the content it reports, unless its
      cancellation was requested; anyone else, and any other report, changes nothing. */
  lemma FinishTakesEffect(s: RunSnapshot, lease: Lease, now: i64, state: RunState, content: string, active: bool)
    requires RunOk(s)
    ensures var (next, projection) := Step(s, Finish(lease, now, state, content), active);
      var owned := s.state.Running? && s.lease.value.owner == lease.owner && s.lease.value.fence == lease.fence
                   && now < s.lease.value.expiresAt;
      var reported := (state.Completed? || state.Failed? || state.Cancelled?) && Utf8Len(content) <= 2 * 1024 * 1024;
      && (owned && reported && s.cancellationRequested ==>
            EndsAs(s, next, projection, now, Cancelled, "cancelled", "Cancelled") && next.cancellationRequested)
      && (owned && reported && !s.cancellationRequested ==>
            && !next.cancellationRequested
            && EndsAs(s, next, projection, now, state,
                      if state.Completed? then "complete" else if state.Failed? then "error" else "cancelled", content))
      && (!(owned && reported) ==> next == s && projection.None?)
  {
  }

  /** Only a queued run is interrupted on request, with the reason given. */
  lemma InterruptTakesEffect(s: RunSnapshot, now: i64, reason: string, active: bool)
    requires RunOk(s)
    ensures var (next, projection) := Step(s, InterruptQueued(now, reason), active);
      && (s.state.Queued? && Utf8Len(reason) <= 2 * 1024 * 1024 ==>
            EndsAs(s, next, projection, now, Interrupted, "interrupted", reason) && !next.cancellationRequested)
      && (!s.state.Queued? || Utf8Len(reason) > 2 * 1024 * 1024 ==> next == s && projection.None?)
  {
  }

  /** Expiry ends exactly the running runs whose lease is over. */
  lemma ExpireTakesEffect(s: RunSnapshot, now: i64, active: bool)
    requires RunOk(s)
    ensures var (next, projection) := Step(s, Expire(now), active);
      && (s.state.Running? && s.lease.value.expiresAt <= now ==>
            && next.cancellationRequested == s.cancellationRequested
            && (if s.cancellationRequested then EndsAs(s, next, projection, now, Cancelled, "cancelled", "Cancelled")
                else EndsAs(s, next, projection, now, Interrupted, "interrupted", "Interrupted")))
      && (!s.state.Running? || now < s.lease.value.expiresAt ==> next == s && projection.None?)
  {
  }

  /** A claim takes exactly a queued run of an idle conversation, for an owner with a well-formed
      name and a positive duration that fits the clock. */
  lemma ClaimTakesEffect(s: RunSnapshot, owner: string, now: i64, ttl: i64, active: bool)
    requires RunOk(s)
    ensures var (next, projection) := Step(s, Claim(owner, now, ttl), active);
      var taken := s.state.Queued? && !active && 0 < Utf8Len(owner) <= 128 && 0 < ttl && now + ttl <= MAX_I64;
      && projection.None?
      && (taken ==> next == s.(state := Running, fence := 1, lease := Some(Lease(owner, 1, now + ttl)), startedAt := Some(now)))
      && (!taken ==> next == s)
  {
  }

  /** The holder of a run makes its lease last the duration from now on, unless it lasts longer. */
  lemma HeartbeatTakesEffect(s: RunSnapshot, lease: Lease, now: i64, ttl: i64, active: bool)
    requires RunOk(s)
    ensures var (next, projection) := Step(s, Heartbeat(lease, now, ttl), active);
      var owned := s.state.Running? && s.lease.value.owner == lease.owner && s.lease.value.fence == lease.fence
                   && now < s.lease.value.expiresAt;
      && projection.None?
      && (owned && 0 < ttl && now + ttl <= MAX_I64 && s.lease.value.expiresAt < now + ttl ==>
            next == s.(lease := Some(s.lease.value.(expiresAt := now + ttl))))
      && (!(owned && 0 < ttl && now + ttl <= MAX_I64 && s.lease.value.expiresAt < now + ttl) ==> next == s)
  {
  }

  /** What is asked of a submission, whoever submits what; a retry must be the same in everything
      but the ids and times that are generated for it. */
  lemma SubmissionIsPlanned(c: SubmitCommand, existing: Option<SubmitCommand>)
    requires existing.Some? ==> existing.value.submitted.payload.Public? && existing.value.submitted.payload.public.Submitted?
    ensures var formed :=
        && Validate(c.submitted).Success? && c.submitted.payload.Public? && c.submitted.payload.public.Submitted?
        && 0 < Utf8Len(c.requestId) <= 128 && 0 < Utf8Len(c.assistantMessageId) <= 128
        && 0 < Utf8Len(c.actor.actorId) <= 128 && 0 < Utf8Len(c.actor.source) <= 128
        && Utf8Len(c.context.text) <= 2 * 1024 * 1024;
      && (formed && existing.None? ==> PlanSubmission(c, existing) == Success(SubmissionPlan(c.submitted.runId, false)))
      && (formed && existing.Some? ==>
            PlanSubmission(c, existing)
              == if SameRequest(c, existing.value) then Success(SubmissionPlan(existing.value.submitted.runId, true))
                 else Failure(Policy(IdempotencyConflict)))
      && (!formed ==> PlanSubmission(c, existing).Failure?)
  {
    hide Validate, Utf8Len;
  }

  /** Two requests for the same thing, field by field. */
  predicate SameRequest(a: SubmitCommand, b: SubmitCommand)
    requires IsSubmission(a.submitted) && IsSubmission(b.submitted)
  {
    var p, q := a.submitted.payload.public, b.submitted.payload.public;
    && a.requestId == b.requestId && a.submitted.conversationId == b.submitted.conversationId
    && a.actor.actorId == b.actor.actorId && a.actor.source == b.actor.source
    && a.context == b.context && a.newConversation == b.newConversation
    && (match a.submitted.detail case Some(text) => text case None => p.text.preview)
         == (match b.submitted.detail case Some(text) => text case None => q.text.preview)
  }

  lemma SameFieldByField(a: SubmitCommand, b: SubmitCommand)
    requires IsSubmission(a.submitted) && IsSubmission(b.submitted)
    ensures SameRequest(a, b) <==> SameSubmission(a, b)
  {
  }

  /** A refusal names its reason, the first in this order that applies. */
  lemma RefusalsNameTheirReason(s: RunSnapshot, owner: string, lease: Lease, now: i64, ttl: i64, active: bool, state: RunState, content: string)
    requires RunOk(s)
    ensures var owned := s.state.Running? && s.lease.value.owner == lease.owner && s.lease.value.fence == lease.fence
                         && now < s.lease.value.expiresAt;
      var named, lasts := 0 < Utf8Len(owner) <= 128, 0 < ttl && now + ttl <= MAX_I64;
      var ending, fits := state.Completed? || state.Failed? || state.Cancelled?, Utf8Len(content) <= 2 * 1024 * 1024;
      && (PlanClaim(s, owner, now, ttl, active) == Failure(Policy(InvalidIdentity)) <==> !named)
      && (PlanClaim(s, owner, now, ttl, active) == Failure(InvalidLease) <==> named && !lasts)
      && (PlanClaim(s, owner, now, ttl, active) == Failure(NotClaimable) <==> named && lasts && !s.state.Queued?)
      && (PlanClaim(s, owner, now, ttl, active) == Failure(ConversationBusy) <==> named && lasts && s.state.Queued? && active)
      && (PlanHeartbeat(s, lease, now, ttl) == Failure(StaleLease) <==> !owned)
      && (PlanHeartbeat(s, lease, now, ttl) == Failure(InvalidLease) <==> owned && !lasts)
      && (PlanFinalize(s, lease, now, state, content) == Failure(StaleLease) <==> !owned)
      && (PlanFinalize(s, lease, now, state, content) == Failure(Policy(InvalidState)) <==> owned && !ending)
      && (PlanFinalize(s, lease, now, state, content) == Failure(Policy(TooLarge)) <==> owned && ending && !fits)
      && (PlanInterruptQueued(s, now, content) == Failure(Policy(TooLarge)) <==> s.state.Queued? && !fits)
  {
    hide Utf8Len;
  }

  /** A plan reports a change exactly when it makes one. */
  lemma PlansReportChanges(s: RunSnapshot, lease: Lease, now: i64, state: RunState, content: string)
    requires RunOk(s)
    ensures PlanCancel(s, now).changed <==> PlanCancel(s, now).snapshot != s
    ensures PlanExpire(s, now).Success? && (PlanExpire(s, now).value.changed <==> PlanExpire(s, now).value.snapshot != s)
    ensures var plan := PlanFinalize(s, lease, now, state, content);
      plan.Success? ==> plan.value.changed && plan.value.snapshot != s
    ensures var plan := PlanInterruptQueued(s, now, content);
      plan.Success? ==> (plan.value.changed <==> plan.value.snapshot != s)
  {
    hide Utf8Len;
  }

  // ---- Ownership ----

  predicate Validates(s: RunSnapshot, lease: Lease, now: i64) {
    ValidateOwnership(s, lease, now).Success?
  }

  /** What makes a lease validate, for any snapshot whatever. */
  lemma OwnershipMeans(s: RunSnapshot, lease: Lease, now: i64)
    ensures Validates(s, lease, now) <==>
      && s.state == Running && s.lease.Some?
      && lease.owner == s.lease.value.owner
      && lease.fence == s.lease.value.fence && s.lease.value.fence == s.fence
      && now < s.lease.value.expiresAt
  {
  }

  /** What a claim asks of any snapshot whatever: the fence has a successor, and that is positive. */
  lemma ClaimMeans(s: RunSnapshot, owner: string, now: i64, ttl: i64, active: bool)
    ensures PlanClaim(s, owner, now, ttl, active).Success? <==>
      && 0 < Utf8Len(owner) <= 128 && 0 < ttl && now + ttl <= MAX_I64
      && s.state == Queued && !s.cancellationRequested && !active
      && 0 <= s.fence < MAX_I64
  {
    hide Utf8Len;
  }

  /** A claim gives its owner the run until the lease expires, and nobody else. */
  lemma ClaimGivesOwnership(s: RunSnapshot, owner: string, now: i64, ttl: i64, active: bool, lease: Lease, t: i64)
    requires RunOk(s) && PlanClaim(s, owner, now, ttl, active).Success?
    ensures var next := PlanClaim(s, owner, now, ttl, active).value;
      Validates(next, lease, t) <==> lease.owner == owner && lease.fence == next.fence && t < now + ttl
  {
  }

  /** A heartbeat makes the lease last at least its duration from now, never shortens it, and
      changes neither the owner nor the fence. */
  lemma HeartbeatExtendsOwnership(s: RunSnapshot, lease: Lease, now: i64, ttl: i64, other: Lease, t: i64)
    requires PlanHeartbeat(s, lease, now, ttl).Success?
    ensures var next := PlanHeartbeat(s, lease, now, ttl).value;
      && (Validates(next, other, t) <==>
            other.owner == lease.owner && other.fence == lease.fence && (Validates(s, other, t) || t < now + ttl))
      && next.(lease := s.lease) == s
  {
  }

  /** At any time a running run either has a lease that validates or can be ended by expiry, not
      both, and expiry never misses a lease. */
  lemma OwnedOrExpired(s: RunSnapshot, now: i64)
    requires RunOk(s)
    ensures PlanExpire(s, now).Success?
    ensures s.state.Running? ==>
      (Validates(s, s.lease.value, now) <==> !PlanExpire(s, now).value.changed)
    ensures !s.state.Running? ==> PlanExpire(s, now).value == Unchanged(s)
    ensures PlanExpire(s, now).value.changed ==> forall lease :: !Validates(s, lease, now)
  {
  }

  /** A lease that does not validate for a started run is dead: no operation at that time or
      later makes it validate again. */
  lemma DeadLeaseStaysDead(s: RunSnapshot, a: Action, active: bool, lease: Lease, now: i64)
    requires RunOk(s) && !s.state.Queued? && !Validates(s, lease, now) && now <= a.now
    ensures var next := Step(s, a, active).0;
      !next.state.Queued? && forall t: i64 :: now <= t ==> !Validates(next, lease, t)
  {
  }
}
