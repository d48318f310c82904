/** Server journal, network and client together. The journal grows and loses its oldest records;
    the server answers any request; the network loses, repeats and reorders answers. The client
    writes a staged page to its projection in one transaction and acknowledges it in another
    step, either may be delayed or fail, and it may start a new subscription anywhere at any
    time. */
module Delivery {
  import opened Wrappers
  import opened Protocol
  import opened Journal
  import opened Replay
  import opened Paging

  /** An answer on its way, with the identity of the request it answers. */
  datatype Answer = Answer(identity: ReadIdentity, page: Page)

  /** `sent` holds every answer ever given, and the network may deliver any of them at any time.
      `staged` holds the page behind each token. `applied` is the client's projection: what was
      added since the cursor `origin` it was started at; `transacted` once the staged page is in
      it. */
  datatype World = World(
    log: seq<AppendCommand>,
    first: nat,
    sent: seq<Answer>,
    client: CursorState,
    staged: map<StageToken, Page>,
    origin: i64,
    transacted: bool,
    applied: seq<PublicEvent>)
  {
    /** How far the projection is: it runs ahead of the cursor between a transaction and its
        acknowledgement. */
    function Position(): i64 {
      if transacted && client.pending.Some? then client.pending.value.throughCursor else client.cursor
    }
  }

  datatype Event =
    | Append(command: AppendCommand)
    | Prune(first: nat)
    | Serve(identity: ReadIdentity, after: i64, through: Option<i64>, limit: nat, bytes: nat)
    | Receive(answer: nat)
    | Transact(token: StageToken)
    | Acknowledge(token: StageToken)
    | FailToApply(token: StageToken)
    | Resubscribe(identity: ReadIdentity, cursor: i64)

  function UpTo(events: seq<PublicEvent>, cursor: int): seq<PublicEvent> {
    if events == [] then []
    else if events[|events| - 1].sequence <= cursor then events
    else UpTo(events[..|events| - 1], cursor)
  }

  function AppendTo(log: seq<AppendCommand>, c: AppendCommand): (log': seq<AppendCommand>)
    ensures log' == log || (log' == log + [c] && |log| < MAX_I64)
  {
    match Commit(log, c)
    case Success((log', _)) => log'
    case Failure(_) => log
  }

  /** A projection transaction adds the staged page, once. Its outcome decides whether the token
      is acknowledged or given up; tokens of earlier attempts may be presented at any time. A new
      subscription at a cursor the projection has passed goes on from the projection of that
      cursor; anywhere else it starts an empty one there. */
  function Next(filter: Filter, w: World, e: Event): (next: World)
    requires |w.log| <= MAX_I64
    ensures |next.log| <= MAX_I64
  {
    match e
    case Append(command) => w.(log := AppendTo(w.log, command))
    case Prune(first) => if w.first <= first then w.(first := first) else w
    case Serve(identity, after, through, limit, bytes) =>
      (match ReadReplayResult(w.log, w.first, filter, after, through, limit, bytes)
       case Success(page) => w.(sent := w.sent + [Answer(identity, page)])
       case Failure(_) => w)
    case Receive(i) =>
      if i >= |w.sent| then w
      else
        var (client, token) := StageNext(w.client, w.sent[i].identity, w.sent[i].page);
        if token.None? then w.(client := client)
        else w.(client := client, staged := w.staged[token.value := w.sent[i].page])
    case Transact(token) =>
      if w.client.pending != Some(token) || w.transacted || token !in w.staged then w
      else w.(applied := w.applied + w.staged[token].events, transacted := true)
    case Acknowledge(token) =>
      if w.client.pending == Some(token) && !w.transacted then w
      else
        var (client, accepted) := AppliedNext(w.client, token);
        w.(client := client, transacted := w.transacted && !accepted)
    case FailToApply(token) =>
      if w.client.pending == Some(token) && w.transacted then w else w.(client := FailedNext(w.client, token).0)
    case Resubscribe(identity, cursor) =>
      var client := ReplaceNext(w.client, identity, cursor);
      if w.origin <= cursor <= w.Position() then w.(client := client, transacted := false, applied := UpTo(w.applied, cursor))
      else w.(client := client, transacted := false, origin := cursor, applied := [])
  }

  /** The visible events between two cursors; nothing where the journal does not reach. */
  function Between(log: seq<AppendCommand>, filter: Filter, from: int, until: int): seq<PublicEvent>
    requires |log| <= MAX_I64
  {
    if 0 <= from <= until <= |log| then VisibleRange(log, filter, from, until) else []
  }

  ghost predicate SentOk(log: seq<AppendCommand>, filter: Filter, sent: seq<Answer>)
    requires |log| <= MAX_I64
  {
    forall i :: 0 <= i < |sent| ==> Faithful(log, filter, sent[i].page)
  }

  ghost predicate StagedOk(log: seq<AppendCommand>, filter: Filter, staged: map<StageToken, Page>)
    requires |log| <= MAX_I64
  {
    forall t :: t in staged ==>
      && Faithful(log, filter, staged[t])
      && t.fromCursor == staged[t].fromCursor
      && t.throughCursor == staged[t].throughCursor
  }

  ghost predicate ClientInv(w: World) {
    && (w.transacted ==> w.client.pending.Some?)
    && (w.client.pending.Some? ==>
          && w.client.pending.value in w.staged
          && w.client.pending.value.fromCursor == w.client.cursor
          && 0 <= w.client.cursor <= w.client.pending.value.throughCursor <= |w.log|)
    && w.origin <= w.client.cursor
    && ((0 <= w.origin && w.client.cursor <= |w.log|) || w.origin == w.client.cursor)
  }

  ghost predicate Inv(filter: Filter, w: World) {
    && Built(w.log) && |w.log| <= MAX_I64
    && SentOk(w.log, filter, w.sent)
    && StagedOk(w.log, filter, w.staged)
    && ClientInv(w)
    && w.applied == Between(w.log, filter, w.origin, w.Position())
  }

  function Run(filter: Filter, w: World, events: seq<Event>): (last: World)
    requires |w.log| <= MAX_I64
    ensures |last.log| <= MAX_I64
    decreases |events|
  {
    if events == [] then w else Run(filter, Next(filter, w, events[0]), events[1..])
  }

  // ---- Every step keeps the invariant ----

  lemma FaithfulStable(log: seq<AppendCommand>, log': seq<AppendCommand>, filter: Filter, page: Page)
    requires log <= log' && |log'| <= MAX_I64 && Faithful(log, filter, page)
    ensures Faithful(log', filter, page)
  {
    VisibleRangeStable(log, log', filter, page.fromCursor, page.throughCursor);
  }

  lemma BetweenStable(log: seq<AppendCommand>, log': seq<AppendCommand>, filter: Filter, from: int, until: int)
    requires log <= log' && |log'| <= MAX_I64 && ((0 <= from && until <= |log|) || from == until)
    ensures Between(log', filter, from, until) == Between(log, filter, from, until)
  {
    if 0 <= from <= until <= |log| {
      VisibleRangeStable(log, log', filter, from, until);
    } else if 0 <= from <= until <= |log'| {
      VisibleRangeEmpty(log', filter, from);
    }
  }

  lemma AppendKeepsInv(filter: Filter, w: World, command: AppendCommand)
    requires Inv(filter, w)
    ensures Inv(filter, Next(filter, w, Append(command)))
  {
    CommitKeepsBuilt(w.log, command);
    var log' := AppendTo(w.log, command);
    hide Built, Between, AppendTo, SentOk, StagedOk;
    PagesStable(w.log, log', filter, w.sent, w.staged);
    BetweenStable(w.log, log', filter, w.origin, w.Position());
  }

  lemma PagesStable(log: seq<AppendCommand>, log': seq<AppendCommand>, filter: Filter, sent: seq<Answer>, staged: map<StageToken, Page>)
    requires log <= log' && |log'| <= MAX_I64 && SentOk(log, filter, sent) && StagedOk(log, filter, staged)
    ensures SentOk(log', filter, sent) && StagedOk(log', filter, staged)
  {
    hide Faithful;
    forall i | 0 <= i < |sent| ensures Faithful(log', filter, sent[i].page) {
      FaithfulStable(log, log', filter, sent[i].page);
    }
    forall t | t in staged ensures Faithful(log', filter, staged[t]) {
      FaithfulStable(log, log', filter, staged[t]);
    }
  }

  lemma ServedIsFaithful(filter: Filter, w: World, e: Event)
    requires Built(w.log) && |w.log| <= MAX_I64 && e.Serve?
    ensures var r := ReadReplayResult(w.log, w.first, filter, e.after, e.through, e.limit, e.bytes);
      r.Success? ==> Faithful(w.log, filter, r.value)
  {
    hide Built, Faithful, ReadReplayResult, WellFormed, Longest, Shows;
    ReadReplayAnswers(w.log, w.first, filter, e.after, e.through, e.limit, e.bytes);
  }

  lemma SentJoins(log: seq<AppendCommand>, filter: Filter, sent: seq<Answer>, answer: Answer)
    requires |log| <= MAX_I64 && SentOk(log, filter, sent) && Faithful(log, filter, answer.page)
    ensures SentOk(log, filter, sent + [answer])
  {
    hide Faithful;
  }

  lemma ServeKeepsInv(filter: Filter, w: World, e: Event)
    requires Inv(filter, w) && e.Serve?
    ensures Inv(filter, Next(filter, w, e))
  {
    hide Built, Faithful, Between, ReadReplayResult, SentOk, StagedOk;
    var r := ReadReplayResult(w.log, w.first, filter, e.after, e.through, e.limit, e.bytes);
    if r.Success? {
      ServedIsFaithful(filter, w, e);
      SentJoins(w.log, filter, w.sent, Answer(e.identity, r.value));
    }
  }

  lemma ReceiveKeepsInv(filter: Filter, w: World, i: nat)
    requires Inv(filter, w)
    ensures Inv(filter, Next(filter, w, Receive(i)))
  {
    hide Built, Between, SentOk, StagedOk, Stageable;
    if i < |w.sent| && Next(filter, w, Receive(i)) != w {
      SentPage(w.log, filter, w.sent, i);
      FaithfulWithin(w.log, filter, w.sent[i].page);
      StagedStart(w.client, w.sent[i].identity, w.sent[i].page);
      StagedJoins(w.log, filter, w.staged, StageNext(w.client, w.sent[i].identity, w.sent[i].page).1.value, w.sent[i].page);
    }
  }

  lemma SentPage(log: seq<AppendCommand>, filter: Filter, sent: seq<Answer>, i: nat)
    requires |log| <= MAX_I64 && SentOk(log, filter, sent) && i < |sent|
    ensures Faithful(log, filter, sent[i].page)
  {
  }

  /** A page is staged where the client stands. */
  lemma StagedStart(s: CursorState, identity: ReadIdentity, page: Page)
    ensures Stageable(s, identity, page) ==> s.pending.None? && page.fromCursor == s.cursor
  {
  }

  lemma StagedJoins(log: seq<AppendCommand>, filter: Filter, staged: map<StageToken, Page>, token: StageToken, page: Page)
    requires |log| <= MAX_I64 && StagedOk(log, filter, staged) && Faithful(log, filter, page)
    requires token.fromCursor == page.fromCursor && token.throughCursor == page.throughCursor
    ensures StagedOk(log, filter, staged[token := page])
  {
    hide Faithful;
  }

  lemma FaithfulWithin(log: seq<AppendCommand>, filter: Filter, page: Page)
    requires |log| <= MAX_I64 && Faithful(log, filter, page)
    ensures 0 <= page.fromCursor <= page.throughCursor <= |log|
    ensures page.events == Between(log, filter, page.fromCursor, page.throughCursor)
  {
  }

  /** The page behind the staged token starts where the projection ends. */
  lemma TransactKeepsInv(filter: Filter, w: World, token: StageToken)
    requires Inv(filter, w)
    ensures Inv(filter, Next(filter, w, Transact(token)))
  {
    if Next(filter, w, Transact(token)) != w {
      FaithfulWithin(w.log, filter, w.staged[token]);
      BetweenSplit(w.log, filter, w.origin, token.fromCursor, token.throughCursor);
    }
    hide Built, Between, Faithful;
  }

  lemma BetweenSplit(log: seq<AppendCommand>, filter: Filter, from: int, mid: int, until: int)
    requires |log| <= MAX_I64 && from <= mid <= until <= |log| && 0 <= mid && (0 <= from || from == mid)
    ensures Between(log, filter, from, until) == Between(log, filter, from, mid) + Between(log, filter, mid, until)
  {
    VisibleRangeSplit(log, filter, from, mid, until);
  }

  lemma AcknowledgeKeepsInv(filter: Filter, w: World, token: StageToken)
    requires Inv(filter, w)
    ensures Inv(filter, Next(filter, w, Acknowledge(token)))
  {
    hide Built, Between, Faithful;
  }

  lemma {:induction false} UpToIsRange(log: seq<AppendCommand>, filter: Filter, from: nat, cursor: nat, reached: nat)
    requires from <= cursor <= reached <= |log| <= MAX_I64
    ensures UpTo(VisibleRange(log, filter, from, reached), cursor) == VisibleRange(log, filter, from, cursor)
    decreases reached
  {
    var events := VisibleRange(log, filter, from, reached);
    if cursor < reached {
      UpToIsRange(log, filter, from, cursor, reached - 1);
      var before, last := VisibleRange(log, filter, from, reached - 1), EventAt(log, filter, reached - 1);
      if last.Some? {
        assert events == before + [last.value] && events[..|events| - 1] == before;
      } else {
        assert events == before;
      }
    } else {
      VisibleRangeSound(log, filter, from, reached, events);
    }
  }

  lemma UpToIsBetween(log: seq<AppendCommand>, filter: Filter, from: int, cursor: int, reached: int)
    requires |log| <= MAX_I64 && from <= cursor <= reached
    requires (0 <= from && reached <= |log|) || from == reached
    ensures UpTo(Between(log, filter, from, reached), cursor) == Between(log, filter, from, cursor)
    ensures Between(log, filter, cursor, cursor) == []
  {
    if 0 <= from && reached <= |log| {
      UpToIsRange(log, filter, from, cursor, reached);
    }
    if 0 <= cursor <= |log| {
      VisibleRangeEmpty(log, filter, cursor);
    }
  }

  lemma ResubscribeKeepsInv(filter: Filter, w: World, identity: ReadIdentity, cursor: i64)
    requires Inv(filter, w)
    ensures Inv(filter, Next(filter, w, Resubscribe(identity, cursor)))
  {
    hide Built, Faithful, Between, UpTo;
    if w.origin <= cursor <= w.Position() {
      UpToIsBetween(w.log, filter, w.origin, cursor, w.Position());
    } else {
      UpToIsBetween(w.log, filter, cursor, cursor, cursor);
    }
  }

  lemma NextKeepsInv(filter: Filter, w: World, e: Event)
    requires Inv(filter, w)
    ensures Inv(filter, Next(filter, w, e))
  {
    hide Inv;
    match e
    case Append(command) => AppendKeepsInv(filter, w, command);
    case Prune(first) => PruneKeepsInv(filter, w, first);
    case Serve(_, _, _, _, _) => ServeKeepsInv(filter, w, e);
    case Receive(i) => ReceiveKeepsInv(filter, w, i);
    case Transact(token) => TransactKeepsInv(filter, w, token);
    case Acknowledge(token) => AcknowledgeKeepsInv(filter, w, token);
    case FailToApply(token) => FailKeepsInv(filter, w, token);
    case Resubscribe(identity, cursor) => ResubscribeKeepsInv(filter, w, identity, cursor);
  }

  lemma PruneKeepsInv(filter: Filter, w: World, first: nat)
    requires Inv(filter, w)
    ensures Inv(filter, Next(filter, w, Prune(first)))
  {
    hide Built, Faithful, Between;
  }

  lemma FailKeepsInv(filter: Filter, w: World, token: StageToken)
    requires Inv(filter, w)
    ensures Inv(filter, Next(filter, w, FailToApply(token)))
  {
    hide Built, Faithful, Between;
  }

  lemma {:induction false} RunKeepsInv(filter: Filter, w: World, events: seq<Event>)
    requires Inv(filter, w)
    ensures Inv(filter, Run(filter, w, events))
    decreases |events|
  {
    hide Inv;
    if events != [] {
      NextKeepsInv(filter, w, events[0]);
      RunKeepsInv(filter, Next(filter, w, events[0]), events[1..]);
    }
  }

  // ---- Main results ----

  function Start(log: seq<AppendCommand>, identity: ReadIdentity): World {
    World(log, 1, [], NewCursor(identity, 0), map[], 0, false, [])
  }

  /** However the journal grows and is pruned, whatever is asked for and answered, whatever the
      network does to the answers, and wherever new subscriptions start: the projection is exactly
      the visible journal from the cursor it was started at up to its position, every event once
      and in order, and from the very first if no subscription starts where the projection has not
      been. The cursor never claims more than the projection has. */
  lemma ExactlyOnceDelivery(filter: Filter, log: seq<AppendCommand>, identity: ReadIdentity, events: seq<Event>)
    requires Built(log) && |log| <= MAX_I64
    ensures var w := Run(filter, Start(log, identity), events);
      && |w.log| <= MAX_I64 && w.origin <= w.client.cursor <= w.Position()
      && w.applied == Between(w.log, filter, w.origin, w.Position())
      && Shows(w.log, filter, w.origin, w.Position(), w.applied)
      && (Returns(filter, Start(log, identity), events) ==> w.origin == 0)
      && (w.origin < w.Position() ==> 0 <= w.origin && w.Position() <= |w.log|)
  {
    StartInv(filter, log, identity);
    RunKeepsInv(filter, Start(log, identity), events);
    var w := Run(filter, Start(log, identity), events);
    if Returns(filter, Start(log, identity), events) {
      ReturningKeepsOrigin(filter, Start(log, identity), events);
    }
    hide Built, EventAt, Faithful, Run, Returns, Shows;
    ProjectionIsExact(filter, w);
  }

  /** An idle client whose next record is still in the journal. */
  predicate CanCatchUp(w: World) {
    w.client.pending.None? && 0 <= w.client.cursor <= |w.log| && (w.client.cursor == |w.log| || w.first <= w.client.cursor + 1)
  }

  lemma StartInv(filter: Filter, log: seq<AppendCommand>, identity: ReadIdentity)
    requires Built(log) && |log| <= MAX_I64
    ensures Inv(filter, Start(log, identity)) && CanCatchUp(Start(log, identity))
  {
    VisibleRangeEmpty(log, filter, 0);
  }

  lemma ProjectionIsExact(filter: Filter, w: World)
    requires Inv(filter, w)
    ensures w.origin < w.Position() ==> 0 <= w.origin && w.Position() <= |w.log|
    ensures Shows(w.log, filter, w.origin, w.Position(), w.applied)
  {
    hide Built, VisibleRange, EventAt, Faithful;
    if 0 <= w.origin && w.Position() <= |w.log| {
      VisibleRangeShows(w.log, filter, w.origin, w.Position());
    }
  }

  /** Every new subscription starts where the projection has been. */
  predicate Returns(filter: Filter, w: World, events: seq<Event>)
    requires |w.log| <= MAX_I64
    decreases |events|
  {
    events == []
    || ((events[0].Resubscribe? ==> w.origin <= events[0].cursor <= w.Position()) && Returns(filter, Next(filter, w, events[0]), events[1..]))
  }

  /** A subscription elsewhere is the only thing that ever costs a client its projection: without
      one it holds every visible event from where it once started. */
  lemma {:induction false} ReturningKeepsOrigin(filter: Filter, w: World, events: seq<Event>)
    requires |w.log| <= MAX_I64 && Returns(filter, w, events)
    ensures Run(filter, w, events).origin == w.origin
    decreases |events|
  {
    if events != [] {
      KeepsOrigin(filter, w, events[0]);
      hide Next;
      ReturningKeepsOrigin(filter, Next(filter, w, events[0]), events[1..]);
    }
  }

  lemma KeepsOrigin(filter: Filter, w: World, e: Event)
    requires |w.log| <= MAX_I64
    ensures Next(filter, w, e).origin
      == if e.Resubscribe? && !(w.origin <= e.cursor <= w.Position()) then e.cursor else w.origin
  {
    hide ReadReplayResult, AppendTo, StageNext, UpTo;
  }
}
