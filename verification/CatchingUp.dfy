/** That delivery is possible: from every reachable world some run brings a client up to date. */
module CatchingUp {
  import opened Wrappers
  import opened Protocol
  import opened Journal
  import opened Replay
  import opened Paging
  import opened Delivery

  // ---- Runs of exchanges ----

  lemma {:induction false} RunConcat(filter: Filter, w: World, a: seq<Event>, b: seq<Event>)
    requires |w.log| <= MAX_I64
    ensures Run(filter, w, a + b) == Run(filter, Run(filter, w, a), b)
    decreases |a|
  {
    if a == [] {
      assert a + b == b;
    } else {
      assert (a + b)[1..] == a[1..] + b;
      RunConcat(filter, Next(filter, w, a[0]), a[1..], b);
    }
  }

  lemma RunFour(filter: Filter, w: World, a: Event, b: Event, c: Event, d: Event)
    requires |w.log| <= MAX_I64
    ensures Run(filter, w, [a, b, c, d]) == Next(filter, Next(filter, Next(filter, Next(filter, w, a), b), c), d)
  {
    hide Next;
    assert [a, b, c, d][1..] == [b, c, d] && [b, c, d][1..] == [c, d] && [c, d][1..] == [d] && [d][1..] == [];
    var w1 := Next(filter, w, a);
    var w2 := Next(filter, w1, b);
    var w3 := Next(filter, w2, c);
    assert Run(filter, w3, [d]) == Next(filter, w3, d);
    assert Run(filter, w2, [c, d]) == Run(filter, w3, [d]);
    assert Run(filter, w1, [b, c, d]) == Run(filter, w2, [c, d]);
  }

  lemma ServeAnswers(filter: Filter, w: World, limit: nat, bytes: nat) returns (page: Page)
    requires Inv(filter, w) && CanCatchUp(w) && LimitsOk(limit, bytes)
    ensures Next(filter, w, Serve(w.client.identity, w.client.cursor, None, limit, bytes))
      == w.(sent := w.sent + [Answer(w.client.identity, page)])
    ensures page.fromCursor == w.client.cursor && page.throughCursor <= |w.log|
    ensures w.client.cursor < |w.log| ==> w.client.cursor < page.throughCursor
    ensures WellFormed(page) && |page.events| <= MAX_REPLAY_EVENTS
  {
    ReadReplayAnswers(w.log, w.first, filter, w.client.cursor, None, limit, bytes);
    hide Built, VisibleRange, ReadReplayResult, WellFormed, Longest, Shows;
    page := ReadReplayResult(w.log, w.first, filter, w.client.cursor, None, limit, bytes).value;
  }

  /** A fresh answer is staged, written and acknowledged. */
  lemma AnswerIsApplied(filter: Filter, w: World, page: Page) returns (token: StageToken)
    requires |w.log| <= MAX_I64 && w.sent != [] && !w.transacted
    requires w.sent[|w.sent| - 1] == Answer(w.client.identity, page)
    requires Stageable(w.client, w.client.identity, page) && w.client.attempt < MAX_U64
    ensures var w' := Next(filter, Next(filter, Next(filter, w, Receive(|w.sent| - 1)), Transact(token)), Acknowledge(token));
      && w'.log == w.log && w'.first == w.first && w'.origin == w.origin
      && w'.client == CursorState(w.client.identity, page.throughCursor, None, w.client.attempt + 1)
  {
    hide Faithful, VisibleRange, ReadReplayResult, PageSize, EventsInRange, StrictlyIncreasing;
    token := StageToken(w.client.identity, w.client.attempt + 1, page.fromCursor, page.throughCursor);
    var received := Next(filter, w, Receive(|w.sent| - 1));
    assert received.client == w.client.(attempt := w.client.attempt + 1, pending := Some(token));
    assert received.log == w.log && received.first == w.first && token in received.staged;
    var written := Next(filter, received, Transact(token));
    assert written.client == received.client && written.transacted && written.log == w.log;
  }

  /** One undisturbed exchange, ask, receive, write and acknowledge, moves the client forward. */
  lemma Exchange(filter: Filter, w: World, limit: nat, bytes: nat) returns (events: seq<Event>)
    requires Inv(filter, w) && CanCatchUp(w) && LimitsOk(limit, bytes) && w.client.attempt < MAX_U64
    ensures var w' := Run(filter, w, events);
      && w'.log == w.log && w'.first == w.first && w'.origin == w.origin
      && w'.client.pending.None? && w'.client.attempt == w.client.attempt + 1
      && w.client.cursor <= w'.client.cursor <= |w.log|
      && (w.client.cursor < |w.log| ==> w.client.cursor < w'.client.cursor)
  {
    var page := ServeAnswers(filter, w, limit, bytes);
    WellFormedIsStaged(w.client, page);
    assert !w.transacted;
    hide Built, Faithful, VisibleRange, ReadReplayResult, WellFormed, Stageable, Inv, Run, Next;
    var serve := Serve(w.client.identity, w.client.cursor, None, limit, bytes);
    var served := Next(filter, w, serve);
    var token := AnswerIsApplied(filter, served, page);
    events := [serve, Receive(|served.sent| - 1), Transact(token), Acknowledge(token)];
    RunFour(filter, w, serve, Receive(|served.sent| - 1), Transact(token), Acknowledge(token));
  }

  /** From every reachable world with an idle client whose next record is still there, some run
      of at most one exchange for every record left delivers the whole journal. */
  lemma {:induction false} CatchUp(filter: Filter, w: World, limit: nat, bytes: nat) returns (events: seq<Event>)
    requires Inv(filter, w) && CanCatchUp(w) && LimitsOk(limit, bytes)
    requires w.client.attempt + |w.log| - w.client.cursor <= MAX_U64
    ensures var w' := Run(filter, w, events);
      && w'.log == w.log
      && w'.client.cursor == |w.log| && w'.origin == w.origin
      && w'.applied == Between(w.log, filter, w.origin, |w.log|)
    decreases |w.log| - w.client.cursor
  {
    if w.client.cursor == |w.log| {
      events := [];
    } else {
      var first := Exchange(filter, w, limit, bytes);
      RunKeepsInv(filter, w, first);
      var rest := CatchUp(filter, Run(filter, w, first), limit, bytes);
      RunConcat(filter, w, first, rest);
      events := first + rest;
    }
  }

  // ---- The steps around the reading protocol ----

  /** What the steps outside the reading protocol do: records join the journal when it takes them,
      old ones are lost, and a page that was not written is given up, so that its token is dead and
      the cursor stands. */
  lemma OtherSteps(filter: Filter, w: World, c: AppendCommand, first: nat)
    requires |w.log| <= MAX_I64
    ensures Next(filter, w, Append(c)) == w.(log := if Appended(w.log, c) then w.log + [c] else w.log)
    ensures Next(filter, w, Prune(first)) == w.(first := if first < w.first then w.first else first)
    ensures w.client.pending.Some? && w.client.pending.value.identity == w.client.identity && !w.transacted ==>
      Next(filter, w, FailToApply(w.client.pending.value)) == w.(client := w.client.(pending := None))
    ensures w.client.pending.Some? && w.transacted ==> Next(filter, w, FailToApply(w.client.pending.value)) == w
  {
    hide Commit, ReadReplayResult, AppendTo, Appended;
    AppendedOrNot(w.log, c);
  }

  lemma AppendedOrNot(log: seq<AppendCommand>, c: AppendCommand)
    ensures AppendTo(log, c) == if Appended(log, c) then log + [c] else log
  {
    hide Validate, MakePlan, StateOf;
  }
}
