/** The runs of a workspace: many conversations, each with a queue of runs, acted on by any number
    of submitters and competing owners in any order. */
module Workspace {
  import opened JsonText
  import opened Wrappers
  import opened Protocol
  import opened Lifecycle

  datatype RunRow = RunRow(conversation: ConversationId, snapshot: RunSnapshot)

  /** The actor and the request identity that a retried submission is recognized by. */
  datatype RequestKey = RequestKey(actorId: string, requestId: string)

  /** `claims` lists the runs that were claimed, `projections` the terminal projections written,
      both in order. */
  datatype State = State(
    runs: map<RunId, RunRow>,
    requests: map<RequestKey, SubmitCommand>,
    claims: seq<RunId>,
    projections: seq<(RunId, Projection)>)

  datatype Event =
    | Submit(command: SubmitCommand)
    | Act(run: RunId, action: Action)

  // ---- The queue of a conversation ----

  /** The order of run ids, by code points. */
  predicate Less(a: string, b: string) {
    b != [] && (a == [] || a[0] < b[0] || (a[0] == b[0] && Less(a[1..], b[1..])))
  }

  /** Run a is ahead of run b in a queue. */
  predicate Ahead(w: State, a: RunId, b: RunId)
    requires a in w.runs && b in w.runs
  {
    var s, t := w.runs[a].snapshot, w.runs[b].snapshot;
    s.queuedAt < t.queuedAt || (s.queuedAt == t.queuedAt && Less(a, b))
  }

  /** What stands in the way of claiming a run: a running one of its conversation, or a queued one
      ahead of it. */
  predicate Blocks(w: State, other: RunId, run: RunId)
    requires run in w.runs
  {
    && other in w.runs
    && w.runs[other].conversation == w.runs[run].conversation
    && (w.runs[other].snapshot.state.Running? || (w.runs[other].snapshot.state.Queued? && Ahead(w, other, run)))
  }

  predicate ConversationActive(w: State, run: RunId)
    requires run in w.runs
  {
    exists other :: other in w.runs && Blocks(w, other, run)
  }

  // ---- Steps ----

  function KeyOf(c: SubmitCommand): RequestKey {
    RequestKey(c.actor.actorId, c.requestId)
  }

  function Existing(w: State, c: SubmitCommand): Option<SubmitCommand> {
    if KeyOf(c) in w.requests then Some(w.requests[KeyOf(c)]) else None
  }

  /** The answer to a submission. Run ids are generated: one that is taken is refused. */
  function Answer(w: State, c: SubmitCommand): Result<SubmissionPlan, LifecycleError> {
    var plan :- PlanSubmission(c, Existing(w, c));
    if !plan.duplicate && plan.runId in w.runs then Failure(Policy(InvalidSubmission)) else Success(plan)
  }

  function Next(w: State, e: Event): State {
    match e
    case Submit(c) =>
      var answer := Answer(w, c);
      if answer.Failure? || answer.value.duplicate then w
      else
        w.(runs := w.runs[c.submitted.runId := RunRow(c.submitted.conversationId, NewSnapshot(c))],
           requests := w.requests[KeyOf(c) := c])
    case Act(run, action) =>
      if run !in w.runs then w
      else
        var (next, projection) := Step(w.runs[run].snapshot, action, ConversationActive(w, run));
        w.(runs := w.runs[run := w.runs[run].(snapshot := next)],
           claims := if next.fence > w.runs[run].snapshot.fence then w.claims + [run] else w.claims,
           projections := if projection.Some? then w.projections + [(run, projection.value)] else w.projections)
  }

  function Run(w: State, events: seq<Event>): State
    decreases |events|
  {
    if events == [] then w else Run(Next(w, events[0]), events[1..])
  }

  const EMPTY: State := State(map[], map[], [], [])

  // ---- Invariant ----

  ghost predicate AtMostOneRunning(w: State) {
    forall a, b :: a in w.runs && b in w.runs && a != b
      && w.runs[a].snapshot.state.Running? && w.runs[b].snapshot.state.Running?
      ==> w.runs[a].conversation != w.runs[b].conversation
  }

  /** The claimed runs, each once. */
  ghost predicate ClaimsOk(w: State) {
    && (forall i :: 0 <= i < |w.claims| ==> w.claims[i] in w.runs)
    && (forall r :: r in w.runs ==> (r in w.claims <==> w.runs[r].snapshot.fence == 1))
    && (forall i, j :: 0 <= i < j < |w.claims| ==> w.claims[i] != w.claims[j])
  }

  predicate ProjectionOk(s: RunSnapshot, p: Projection) {
    && p.messageId == s.assistantMessageId
    && p.role == "assistant"
    && p.status == StatusOf(s.state)
    && (s.cancellationRequested ==> p.content == "Cancelled")
  }

  /** The projections are those of ended runs, as they ended. */
  ghost predicate ProjectionsSound(w: State) {
    forall i :: 0 <= i < |w.projections| ==>
      && w.projections[i].0 in w.runs
      && w.runs[w.projections[i].0].snapshot.state.IsTerminal()
      && ProjectionOk(w.runs[w.projections[i].0].snapshot, w.projections[i].1)
  }

  ghost predicate HasProjection(w: State, run: RunId) {
    exists i :: 0 <= i < |w.projections| && w.projections[i].0 == run
  }

  /** Every ended run has its projection, and only one. */
  ghost predicate ProjectionsOk(w: State) {
    && ProjectionsSound(w)
    && (forall r :: r in w.runs && w.runs[r].snapshot.state.IsTerminal() ==> HasProjection(w, r))
    && (forall i, j :: 0 <= i < j < |w.projections| ==> w.projections[i].0 != w.projections[j].0)
  }

  /** Every recorded request has its own run. */
  ghost predicate RequestsOk(w: State) {
    && (forall k :: k in w.requests ==>
          && KeyOf(w.requests[k]) == k
          && IsSubmission(w.requests[k].submitted)
          && w.requests[k].submitted.runId in w.runs)
    && (forall k, l :: k in w.requests && l in w.requests && k != l ==>
          w.requests[k].submitted.runId != w.requests[l].submitted.runId)
  }

  ghost predicate Inv(w: State) {
    && (forall r :: r in w.runs ==> RunOk(w.runs[r].snapshot))
    && AtMostOneRunning(w)
    && ClaimsOk(w)
    && ProjectionsOk(w)
    && RequestsOk(w)
  }

  // ---- Every step keeps the invariant ----

  /** A submission that changes anything adds one queued run under one new request. */
  lemma SubmitAdds(w: State, c: SubmitCommand)
    ensures var next := Next(w, Submit(c));
      next != w ==>
        && c.submitted.runId !in w.runs && KeyOf(c) !in w.requests && IsSubmission(c.submitted)
        && next == w.(runs := w.runs[c.submitted.runId := RunRow(c.submitted.conversationId, NewSnapshot(c))],
                      requests := w.requests[KeyOf(c) := c])
  {
    hide Validate, SameSubmission;
  }

  lemma AddKeepsInv(w: State, c: SubmitCommand)
    requires Inv(w) && c.submitted.runId !in w.runs && KeyOf(c) !in w.requests && IsSubmission(c.submitted)
    ensures Inv(w.(runs := w.runs[c.submitted.runId := RunRow(c.submitted.conversationId, NewSnapshot(c))],
                   requests := w.requests[KeyOf(c) := c]))
  {
    var row := RunRow(c.submitted.conversationId, NewSnapshot(c));
    NewRunIsOk(c);
    AddKeepsRuns(w, c.submitted.runId, row, w.requests[KeyOf(c) := c]);
    hide RunOk, IsSubmission, NewSnapshot;
  }

  lemma AddKeepsRuns(w: State, run: RunId, row: RunRow, requests: map<RequestKey, SubmitCommand>)
    requires Inv(w) && run !in w.runs && row.snapshot.state.Queued? && row.snapshot.fence == 0
    ensures var next := w.(runs := w.runs[run := row], requests := requests);
      AtMostOneRunning(next) && ClaimsOk(next) && ProjectionsOk(next)
  {
    hide RunOk, RequestsOk, ProjectionOk;
    var next := w.(runs := w.runs[run := row], requests := requests);
    assert forall r :: HasProjection(next, r) <==> HasProjection(w, r);
  }

  lemma SubmitKeepsInv(w: State, c: SubmitCommand)
    requires Inv(w)
    ensures Inv(Next(w, Submit(c)))
  {
    hide Inv, Next;
    SubmitAdds(w, c);
    if Next(w, Submit(c)) != w {
      AddKeepsInv(w, c);
    }
  }

  lemma ActKeepsRunning(w: State, run: RunId, action: Action)
    requires Inv(w) && run in w.runs
    ensures AtMostOneRunning(Next(w, Act(run, action)))
  {
    hide Step, RunOk;
    StepKeepsRun(w.runs[run].snapshot, action, ConversationActive(w, run));
    var next := Next(w, Act(run, action));
    if next.runs[run].snapshot.state.Running? && w.runs[run].snapshot.state.Queued? {
      forall other | other in w.runs && other != run && w.runs[other].snapshot.state.Running?
        ensures w.runs[other].conversation != w.runs[run].conversation
      {
        assert !Blocks(w, other, run);
      }
    }
  }

  lemma ActKeepsClaims(w: State, run: RunId, action: Action)
    requires Inv(w) && run in w.runs
    ensures ClaimsOk(Next(w, Act(run, action)))
  {
    hide Step, ConversationActive, RequestsOk, AtMostOneRunning, ProjectionsOk;
    StepKeepsRun(w.runs[run].snapshot, action, ConversationActive(w, run));
  }

  /** A run that has not ended has no projection yet. */
  lemma NoProjectionYet(w: State, run: RunId)
    requires ProjectionsSound(w) && run in w.runs && !w.runs[run].snapshot.state.IsTerminal()
    ensures forall i :: 0 <= i < |w.projections| ==> w.projections[i].0 != run
  {
  }

  /** A run changes without ending, or had ended before. */
  lemma ChangeKeepsProjections(w: State, run: RunId, next: RunSnapshot, claims: seq<RunId>)
    requires ProjectionsOk(w) && run in w.runs
    requires w.runs[run].snapshot.state.IsTerminal() ==> next == w.runs[run].snapshot
    requires !w.runs[run].snapshot.state.IsTerminal() ==> !next.state.IsTerminal()
    ensures ProjectionsOk(w.(runs := w.runs[run := w.runs[run].(snapshot := next)], claims := claims))
  {
    hide ProjectionOk;
    var w' := w.(runs := w.runs[run := w.runs[run].(snapshot := next)], claims := claims);
    assert forall r :: HasProjection(w', r) <==> HasProjection(w, r);
    if !w.runs[run].snapshot.state.IsTerminal() {
      NoProjectionYet(w, run);
    }
  }

  /** A run ends and its projection is written. */
  lemma EndKeepsProjections(w: State, run: RunId, next: RunSnapshot, claims: seq<RunId>, p: Projection)
    requires ProjectionsOk(w) && run in w.runs
    requires !w.runs[run].snapshot.state.IsTerminal() && next.state.IsTerminal() && ProjectionOk(next, p)
    ensures ProjectionsOk(w.(runs := w.runs[run := w.runs[run].(snapshot := next)], claims := claims,
                             projections := w.projections + [(run, p)]))
  {
    hide ProjectionOk;
    NoProjectionYet(w, run);
    var w' := w.(runs := w.runs[run := w.runs[run].(snapshot := next)], claims := claims, projections := w.projections + [(run, p)]);
    assert w'.projections[|w.projections|].0 == run;
    forall r | HasProjection(w, r) ensures HasProjection(w', r) {
      var i :| 0 <= i < |w.projections| && w.projections[i].0 == r;
      assert w'.projections[i].0 == r;
    }
  }

  lemma ActKeepsProjections(w: State, run: RunId, action: Action)
    requires Inv(w) && run in w.runs
    ensures ProjectionsOk(Next(w, Act(run, action)))
  {
    hide Step, ConversationActive, RunOk, ProjectionsOk, AtMostOneRunning, ClaimsOk, RequestsOk;
    var row := w.runs[run];
    StepKeepsRun(row.snapshot, action, ConversationActive(w, run));
    var (next, projection) := Step(row.snapshot, action, ConversationActive(w, run));
    var claims := if next.fence > row.snapshot.fence then w.claims + [run] else w.claims;
    if projection.Some? {
      EndKeepsProjections(w, run, next, claims, projection.value);
    } else {
      ChangeKeepsProjections(w, run, next, claims);
    }
  }

  lemma ActKeepsInv(w: State, run: RunId, action: Action)
    requires Inv(w) && run in w.runs
    ensures Inv(Next(w, Act(run, action)))
  {
    hide Step, ConversationActive, RunOk, AtMostOneRunning, ClaimsOk, ProjectionsOk;
    StepKeepsRun(w.runs[run].snapshot, action, ConversationActive(w, run));
    ActKeepsRunning(w, run, action);
    ActKeepsClaims(w, run, action);
    ActKeepsProjections(w, run, action);
  }

  lemma NextKeepsInv(w: State, e: Event)
    requires Inv(w)
    ensures Inv(Next(w, e))
  {
    match e
    case Submit(c) => SubmitKeepsInv(w, c);
    case Act(run, action) =>
      if run in w.runs {
        ActKeepsInv(w, run, action);
      }
  }

  lemma {:induction false} RunKeepsInv(w: State, events: seq<Event>)
    requires Inv(w)
    ensures Inv(Run(w, events))
    decreases |events|
  {
    hide Inv;
    if events != [] {
      NextKeepsInv(w, events[0]);
      RunKeepsInv(Next(w, events[0]), events[1..]);
    }
  }

  // ---- Main results: safety ----

  /** In every reachable workspace, whatever was submitted, claimed, cancelled, finished and
      expired in whatever order: a run is running exactly when it has a lease, under the fence of
      its snapshot; no conversation runs two; no run was claimed twice; a requested cancellation
      leaves a run only running or cancelled; and every ended run has exactly one terminal
      projection, of its own ending, while no other run has any. */
  lemma ReachableWorkspace(events: seq<Event>)
    ensures var w := Run(EMPTY, events);
      && (forall r {:trigger w.runs[r]} :: r in w.runs ==>
            var s := w.runs[r].snapshot;
            && (s.state.Running? <==> s.lease.Some?)
            && (s.lease.Some? ==> s.lease.value.fence == s.fence)
            && (s.cancellationRequested ==> s.state.Running? || s.state.Cancelled?)
            && (s.state.IsTerminal() <==> HasProjection(w, r)))
      && AtMostOneRunning(w)
      && (forall i, j :: 0 <= i < j < |w.claims| ==> w.claims[i] != w.claims[j])
      && (forall i, j :: 0 <= i < j < |w.projections| ==> w.projections[i].0 != w.projections[j].0)
      && ProjectionsSound(w)
  {
    RunKeepsInv(EMPTY, events);
    hide ProjectionOk, Run;
  }

  /** What never changes about a run, and what changes only one way. */
  predicate Forward(a: RunRow, b: RunRow) {
    && a.conversation == b.conversation
    && a.snapshot.assistantMessageId == b.snapshot.assistantMessageId
    && a.snapshot.fence <= b.snapshot.fence
    && (a.snapshot.cancellationRequested ==> b.snapshot.cancellationRequested)
    && (b.snapshot.state.Queued? ==> a.snapshot == b.snapshot)
    && (a.snapshot.state.IsTerminal() ==> a.snapshot == b.snapshot)
  }

  lemma NextMovesForward(w: State, e: Event, run: RunId)
    requires Inv(w) && run in w.runs
    ensures run in Next(w, e).runs && Forward(w.runs[run], Next(w, e).runs[run])
    ensures w.claims <= Next(w, e).claims && w.projections <= Next(w, e).projections
  {
    if e.Act? && e.run in w.runs {
      hide Step, ConversationActive;
      StepKeepsRun(w.runs[e.run].snapshot, e.action, ConversationActive(w, e.run));
    } else if e.Submit? {
      hide Next, Inv;
      SubmitAdds(w, e.command);
    }
  }

  /** Over any further events fences never decrease, requested cancellations stand, ended runs
      stay as they ended, and nothing written is taken back. */
  lemma {:induction false} RunsMoveForward(w: State, events: seq<Event>, run: RunId)
    requires Inv(w) && run in w.runs
    ensures run in Run(w, events).runs && Forward(w.runs[run], Run(w, events).runs[run])
    ensures w.claims <= Run(w, events).claims && w.projections <= Run(w, events).projections
    decreases |events|
  {
    hide Inv, Next;
    if events != [] {
      NextKeepsInv(w, events[0]);
      NextMovesForward(w, events[0], run);
      RunsMoveForward(Next(w, events[0]), events[1..], run);
    }
  }

  /** Once its cancellation is requested a run can only end cancelled, and says so. */
  lemma CancellationDominates(events: seq<Event>, later: seq<Event>, run: RunId)
    requires run in Run(EMPTY, events).runs && Run(EMPTY, events).runs[run].snapshot.cancellationRequested
    ensures var w := Run(Run(EMPTY, events), later);
      && run in w.runs
      && w.runs[run].snapshot.cancellationRequested
      && (w.runs[run].snapshot.state.Running? || w.runs[run].snapshot.state.Cancelled?)
      && forall i :: 0 <= i < |w.projections| && w.projections[i].0 == run ==>
           w.projections[i].1.status == "cancelled" && w.projections[i].1.content == "Cancelled"
  {
    RunKeepsInv(EMPTY, events);
    var w := Run(EMPTY, events);
    RunsMoveForward(w, later, run);
    RunKeepsInv(w, later);
    hide Run, Inv;
    CancelledRun(Run(w, later), run);
  }

  lemma CancelledRun(w: State, run: RunId)
    requires Inv(w) && run in w.runs && w.runs[run].snapshot.cancellationRequested
    ensures w.runs[run].snapshot.state.Running? || w.runs[run].snapshot.state.Cancelled?
    ensures forall i :: 0 <= i < |w.projections| && w.projections[i].0 == run ==>
      w.projections[i].1.status == "cancelled" && w.projections[i].1.content == "Cancelled"
  {
    hide AtMostOneRunning, ClaimsOk, RequestsOk, HasProjection;
    assert RunOk(w.runs[run].snapshot);
    assert StatusOf(Cancelled) == "cancelled";
  }

  /** From a cancellation on, a run that had not ended is cancelled or still running, whatever its
      holder reports. */
  lemma CancelledForGood(w: State, run: RunId, now: i64, later: seq<Event>)
    requires Inv(w) && run in w.runs && (w.runs[run].snapshot.state.Queued? || w.runs[run].snapshot.state.Running?)
    ensures var w' := Run(Next(w, Act(run, Cancel(now))), later);
      && run in w'.runs && w'.runs[run].snapshot.cancellationRequested
      && (w'.runs[run].snapshot.state.Cancelled? || (w.runs[run].snapshot.state.Running? && w'.runs[run].snapshot.state.Running?))
      && forall i :: 0 <= i < |w'.projections| && w'.projections[i].0 == run ==>
           w'.projections[i].1.status == "cancelled" && w'.projections[i].1.content == "Cancelled"
  {
    hide Inv, Run, Step, ConversationActive;
    var next := Next(w, Act(run, Cancel(now)));
    SnapshotIsOk(w, run);
    CancelTakesEffect(w.runs[run].snapshot, now, ConversationActive(w, run));
    NextKeepsInv(w, Act(run, Cancel(now)));
    RunsMoveForward(next, later, run);
    RunKeepsInv(next, later);
    CancelledRun(Run(next, later), run);
  }

  lemma SnapshotIsOk(w: State, run: RunId)
    requires Inv(w) && run in w.runs
    ensures RunOk(w.runs[run].snapshot)
  {
  }

  /** A run that was claimed before is never claimed again, and its fence is still the first. */
  lemma ClaimedAtMostOnce(events: seq<Event>, later: seq<Event>, run: RunId)
    requires run in Run(EMPTY, events).claims
    ensures var w := Run(Run(EMPTY, events), later);
      && run in w.runs && w.runs[run].snapshot.fence == 1
      && forall i, j :: 0 <= i < |w.claims| && 0 <= j < |w.claims| && w.claims[i] == run && w.claims[j] == run ==> i == j
  {
    RunKeepsInv(EMPTY, events);
    var w := Run(EMPTY, events);
    RunsMoveForward(w, later, run);
    RunKeepsInv(w, later);
    hide Run, Step;
  }

  // ---- Main results: leases in time ----

  function TimeOf(e: Event): int {
    match e
    case Submit(c) => MAX_I64
    case Act(_, action) => action.now
  }

  /** Every operation reads a clock that has reached `now`. */
  predicate NotBefore(events: seq<Event>, now: i64) {
    forall i :: 0 <= i < |events| ==> now <= TimeOf(events[i])
  }

  predicate Dead(w: State, run: RunId, lease: Lease, now: i64) {
    run in w.runs && !w.runs[run].snapshot.state.Queued? && !Validates(w.runs[run].snapshot, lease, now)
  }

  lemma NextKeepsDead(w: State, e: Event, run: RunId, lease: Lease, now: i64)
    requires Inv(w) && Dead(w, run, lease, now) && now <= TimeOf(e)
    ensures Dead(Next(w, e), run, lease, now)
  {
    if e.Submit? {
      hide Next;
      SubmitAdds(w, e.command);
    } else if e.run == run {
      DeadLeaseStaysDead(w.runs[run].snapshot, e.action, ConversationActive(w, run), lease, now);
    }
  }

  /** Under a clock that does not go back, a lease that has stopped validating never validates
      again: whatever happens, no heartbeat renews it and nothing is finalized under it. */
  lemma {:induction false} DeadLeaseNeverRevives(w: State, events: seq<Event>, run: RunId, lease: Lease, now: i64, t: i64)
    requires Inv(w) && Dead(w, run, lease, now) && NotBefore(events, now) && now <= t
    ensures Dead(Run(w, events), run, lease, now)
    ensures forall ttl: i64 :: PlanHeartbeat(Run(w, events).runs[run].snapshot, lease, t, ttl) == Failure(StaleLease)
    ensures forall state, content ::
      PlanFinalize(Run(w, events).runs[run].snapshot, lease, t, state, content) == Failure(StaleLease)
    decreases |events|
  {
    hide Next, Inv;
    if events != [] {
      NextKeepsInv(w, events[0]);
      NextKeepsDead(w, events[0], run, lease, now);
      DeadLeaseNeverRevives(Next(w, events[0]), events[1..], run, lease, now, t);
    }
  }

  // ---- Main results: submissions ----

  lemma {:induction false} RequestsStay(w: State, events: seq<Event>, key: RequestKey)
    requires key in w.requests
    ensures key in Run(w, events).requests && Run(w, events).requests[key] == w.requests[key]
    decreases |events|
  {
    hide Step;
    if events != [] {
      var next := Next(w, events[0]);
      if events[0].Submit? {
        hide Next;
        SubmitAdds(w, events[0].command);
      }
      RequestsStay(next, events[1..], key);
    }
  }

  /** A well-formed submission under a fresh request of its actor and a fresh run id is accepted
      and queues its run, and nothing else is. */
  lemma FreshSubmission(w: State, c: SubmitCommand)
    requires forall k :: k in w.requests ==> !(k.actorId == c.actor.actorId && k.requestId == c.requestId)
    ensures var formed :=
        && Validate(c.submitted).Success? && c.submitted.payload.Public? && c.submitted.payload.public.Submitted?
        && 0 < Utf8Len(c.requestId) <= 128 && 0 < Utf8Len(c.assistantMessageId) <= 128
        && 0 < Utf8Len(c.actor.actorId) <= 128 && 0 < Utf8Len(c.actor.source) <= 128
        && Utf8Len(c.context.text) <= 2 * 1024 * 1024;
      var w' := Next(w, Submit(c));
      && (formed && c.submitted.runId !in w.runs ==>
            && Answer(w, c) == Success(SubmissionPlan(c.submitted.runId, false))
            && w'.runs == w.runs[c.submitted.runId := RunRow(c.submitted.conversationId,
                 RunSnapshot(Queued, None, false, c.assistantMessageId, 0, c.submittedAt, None, None))]
            && w'.requests == w.requests[RequestKey(c.actor.actorId, c.requestId) := c]
            && w'.claims == w.claims && w'.projections == w.projections)
      && (!formed || c.submitted.runId in w.runs ==> Answer(w, c).Failure? && w' == w)
  {
    hide Validate, Utf8Len;
    SubmissionIsPlanned(c, Existing(w, c));
  }

  /** A submission accepted once is recognized ever after: retried under the same request by the
      same actor it names the same run and changes nothing, whatever ids and times were generated
      for the retry, and anything else under that request is a conflict. */
  lemma RetriedSubmission(w: State, c: SubmitCommand, events: seq<Event>, retry: SubmitCommand)
    requires Inv(w) && Answer(w, c).Success?
    requires retry.actor.actorId == c.actor.actorId && retry.requestId == c.requestId && PlanSubmission(retry, None).Success?
    ensures IsSubmission(c.submitted) && IsSubmission(retry.submitted)
    ensures var later := Run(Next(w, Submit(c)), events);
      && Next(later, Submit(retry)) == later
      && Answer(later, retry) ==
           if SameRequest(retry, c) then Success(SubmissionPlan(Answer(w, c).value.runId, true))
           else Failure(Policy(IdempotencyConflict))
  {
    hide Validate, Body, Run, SameRequest, Utf8Len;
    var next := Next(w, Submit(c));
    assert KeyOf(c) in next.requests;
    RequestsStay(next, events, KeyOf(c));
    if IsSubmission(c.submitted) && IsSubmission(retry.submitted) {
      SameFieldByField(retry, c);
    }
  }

  // ---- Main results: the queue ----

  lemma {:induction false} LessIsStrictOrder(a: string, b: string, c: string)
    ensures !Less(a, a)
    ensures Less(a, b) && Less(b, c) ==> Less(a, c)
    ensures a == b || Less(a, b) || Less(b, a)
    decreases |a| + |b| + |c|
  {
    if a != [] && b != [] {
      if c != [] {
        LessIsStrictOrder(a[1..], b[1..], c[1..]);
      } else {
        LessIsStrictOrder(a[1..], b[1..], c);
      }
      if a[1..] == b[1..] && a[0] == b[0] {
        assert a == [a[0]] + a[1..] && b == [b[0]] + b[1..];
      }
    } else if a != [] {
      LessIsStrictOrder(a[1..], b, c);
    }
  }

  /** Run ids are compared at the first character in which they differ, and a proper prefix comes
      first. */
  lemma {:induction false} LessIsByFirstDifference(a: string, b: string, k: nat)
    requires k <= |a| && k <= |b| && a[..k] == b[..k] && (k == |a| || k == |b| || a[k] != b[k])
    ensures Less(a, b) <==> k < |b| && (k == |a| || a[k] < b[k])
  {
    if k > 0 {
      assert a[..k][0] == a[0] && b[..k][0] == b[0];
      assert a[1..][..k - 1] == a[..k][1..] && b[1..][..k - 1] == b[..k][1..];
      LessIsByFirstDifference(a[1..], b[1..], k - 1);
    }
  }

  lemma AheadIsStrictOrder(w: State, a: RunId, b: RunId, c: RunId)
    requires a in w.runs && b in w.runs && c in w.runs
    ensures !Ahead(w, a, a)
    ensures Ahead(w, a, b) && Ahead(w, b, c) ==> Ahead(w, a, c)
    ensures a == b || Ahead(w, a, b) || Ahead(w, b, a)
  {
    hide Less;
    LessIsStrictOrder(a, b, c);
  }

  lemma {:induction false} HeadOf(w: State, candidates: set<RunId>) returns (head: RunId)
    requires candidates != {} && candidates <= w.runs.Keys
    ensures head in candidates && forall r :: r in candidates ==> !Ahead(w, r, head)
    decreases |candidates|
  {
    var some :| some in candidates;
    var rest := candidates - {some};
    if rest == {} {
      head := some;
      assert forall r :: r in candidates ==> r == some || r in rest;
      AheadIsStrictOrder(w, some, some, some);
    } else {
      var first := HeadOf(w, rest);
      head := if Ahead(w, some, first) then some else first;
      forall r | r in candidates ensures !Ahead(w, r, head) {
        AheadIsStrictOrder(w, r, some, first);
        assert r == some || r in rest;
      }
    }
  }

  /** A conversation with queued runs and none running is never stuck: the head of its queue can
      be claimed by any owner with a usable lease duration. */
  lemma QueueHeadIsClaimable(w: State, queued: RunId, owner: string, now: i64, ttl: i64) returns (head: RunId)
    requires Inv(w) && queued in w.runs && w.runs[queued].snapshot.state.Queued?
    requires forall r :: r in w.runs && w.runs[r].conversation == w.runs[queued].conversation ==> !w.runs[r].snapshot.state.Running?
    requires ValidIdentity(owner) && Expiry(now, ttl).Success?
    ensures head in w.runs && w.runs[head].conversation == w.runs[queued].conversation
    ensures Next(w, Act(head, Claim(owner, now, ttl))).runs[head].snapshot.state.Running?
  {
    var candidates := set r | r in w.runs && w.runs[r].conversation == w.runs[queued].conversation && w.runs[r].snapshot.state.Queued?;
    assert queued in candidates;
    head := HeadOf(w, candidates);
    assert RunOk(w.runs[head].snapshot);
    assert !ConversationActive(w, head);
    assert PlanClaim(w.runs[head].snapshot, owner, now, ttl, false).Success?;
  }

  /** Runs are claimed in queue order: of two queued runs of a conversation none is claimed while
      the other was queued earlier, or at the same time under a smaller id; nor while one runs. */
  lemma ClaimsFollowTheQueue(w: State, run: RunId, action: Action, other: RunId)
    requires Inv(w) && run in w.runs && other in w.runs && other != run
    requires Next(w, Act(run, action)).claims != w.claims
    requires w.runs[other].conversation == w.runs[run].conversation
    ensures !w.runs[other].snapshot.state.Running?
    ensures w.runs[other].snapshot.state.Queued? ==>
      var a, b := w.runs[run].snapshot.queuedAt, w.runs[other].snapshot.queuedAt;
      a < b || (a == b && Less(run, other))
  {
    hide Less, Step;
    StepKeepsRun(w.runs[run].snapshot, action, ConversationActive(w, run));
    assert !Blocks(w, other, run);
    LessIsStrictOrder(run, other, run);
  }
}
