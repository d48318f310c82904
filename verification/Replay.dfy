/** Bounded durable reads: pages built by scanning records under a byte limit, the client's
    acknowledged cursor, and its watermark-tagged projection of a run. */
module Replay {
  import opened JsonText
  import opened Wrappers
  import opened Protocol

  datatype ReadIdentity = ReadIdentity(connectionGeneration: string, requestGeneration: u64)
  datatype CursorReset = Invalid | Pruned

  function ValidateCursor(after: i64, watermark: i64, firstRetained: Option<i64>): Result<(), CursorReset> {
    if after < 0 || after > watermark then Failure(Invalid)
    else if after < watermark && (firstRetained.None? || after + 1 < firstRetained.value) then Failure(Pruned)
    else Success(())
  }

  // ---- Pages ----

  datatype Page = Page(
    version: u16,
    fromCursor: i64,
    throughCursor: i64,
    highWatermark: i64,
    hasMore: bool,
    events: seq<PublicEvent>)

  /** The serialized size of a list of events, without and with its brackets. */
  function BodySize(events: seq<PublicEvent>): nat {
    if events == [] then 0
    else
      var n := |events| - 1;
      BodySize(events[..n]) + (if n > 0 then 1 else 0) + EventSize(events[n])
  }

  function ArraySize(events: seq<PublicEvent>): nat {
    2 + BodySize(events)
  }

  lemma BodySizeAppend(events: seq<PublicEvent>, e: PublicEvent)
    ensures BodySize(events + [e]) == BodySize(events) + (if events != [] then 1 else 0) + EventSize(e)
  {
    assert (events + [e])[..|events|] == events;
  }

  function PageSize(page: Page): nat {
    85 // {"version":,"from_cursor":,"through_cursor":,"high_watermark":,"has_more":,"events":}
    + IntegerSize(page.version) + IntegerSize(page.fromCursor) + IntegerSize(page.throughCursor)
    + IntegerSize(page.highWatermark) + BoolSize(page.hasMore) + ArraySize(page.events)
  }

  function Min(a: nat, b: nat): nat {
    if a < b then a else b
  }

  function NewPage(from: i64, watermark: i64): Page {
    Page(VERSION, from, from, watermark, from < watermark, [])
  }

  predicate FitsAfter(page: Page, event: PublicEvent, byteLimit: nat) {
    ArraySize(page.events + [event]) <= Min(byteLimit, MAX_REPLAY_BYTES)
  }

  /** The page after examining one record of a sparse projection, and what the scan returned. */
  function ScanSnapshotNext(page: Page, sequence: i64, visible: Option<PublicEvent>, byteLimit: nat)
    : (Page, Result<bool, CursorReset>)
  {
    if sequence <= page.throughCursor || sequence > page.highWatermark then (page, Failure(Pruned))
    else if visible.Some? && (visible.value.sequence != sequence || visible.value.version != VERSION) then
      (page, Failure(Invalid))
    else if visible.Some? && !FitsAfter(page, visible.value, byteLimit) then (page, Success(false))
    else
      (page.(throughCursor := sequence, hasMore := sequence < page.highWatermark,
             events := page.events + if visible.Some? then [visible.value] else []),
       Success(true))
  }

  /** The same for the journal itself, where the next record is the next sequence. */
  function ScanNext(page: Page, sequence: i64, visible: Option<PublicEvent>, byteLimit: nat)
    : (Page, Result<bool, CursorReset>)
  {
    if page.throughCursor == MAX_I64 then (page, Failure(Invalid))
    else if sequence != page.throughCursor + 1 then (page, Failure(Pruned))
    else ScanSnapshotNext(page, sequence, visible, byteLimit)
  }

  class CursorPage {
    var version: u16
    var fromCursor: i64
    var throughCursor: i64
    var highWatermark: i64
    var hasMore: bool
    var events: seq<PublicEvent>

    function View(): Page
      reads this
    {
      Page(version, fromCursor, throughCursor, highWatermark, hasMore, events)
    }

    constructor (from: i64, watermark: i64)
      ensures View() == NewPage(from, watermark)
    {
      version := VERSION;
      fromCursor := from;
      throughCursor := from;
      highWatermark := watermark;
      hasMore := from < watermark;
      events := [];
    }

    /** Only the next sequence is examined; one further on is a gap, and never passed over. */
    method Scan(sequence: i64, visible: Option<PublicEvent>, byteLimit: nat) returns (r: Result<bool, CursorReset>)
      modifies this
      ensures throughCursor == if r == Success(true) then old(throughCursor) + 1 else old(throughCursor)
      ensures r == Success(true) ==> throughCursor == sequence
      ensures r != Success(true) ==> View() == old(View())
      ensures (View(), r) == ScanNext(old(View()), sequence, visible, byteLimit)
    {
      if throughCursor == MAX_I64 {
        return Failure(Invalid);
      }
      if sequence != throughCursor + 1 {
        return Failure(Pruned);
      }
      r := ScanSnapshot(sequence, visible, byteLimit);
    }

    method ScanSnapshot(sequence: i64, visible: Option<PublicEvent>, byteLimit: nat) returns (r: Result<bool, CursorReset>)
      modifies this
      ensures (View(), r) == ScanSnapshotNext(old(View()), sequence, visible, byteLimit)
    {
      hide EventSize, BodySize;
      if sequence <= throughCursor || sequence > highWatermark {
        return Failure(Pruned);
      }
      if visible.Some? {
        var event := visible.value;
        if event.sequence != sequence || event.version != VERSION {
          return Failure(Invalid);
        }
        var bytes := EventSize(event);
        var used := ArraySize(events);
        var separator := if events != [] then 1 else 0;
        BodySizeAppend(events, event);
        if used + bytes + separator > Min(byteLimit, MAX_REPLAY_BYTES) {
          return Success(false);
        }
        events := events + [event];
      } else {
        assert events + [] == events;
      }
      throughCursor := sequence;
      hasMore := sequence < highWatermark;
      r := Success(true);
    }
  }

  // ---- What every scanned page keeps ----

  predicate Ascending(events: seq<PublicEvent>, from: int, to: int) {
    && (forall i :: 0 <= i < |events| ==> from < events[i].sequence <= to && events[i].version == VERSION)
    && (forall i, j :: 0 <= i < j < |events| ==> events[i].sequence < events[j].sequence)
  }

  predicate WellFormed(page: Page) {
    && page.version == VERSION
    && page.fromCursor <= page.throughCursor <= page.highWatermark
    && page.hasMore == (page.throughCursor < page.highWatermark)
    && Ascending(page.events, page.fromCursor, page.throughCursor)
    && (page.events == [] || ArraySize(page.events) <= MAX_REPLAY_BYTES)
  }

  datatype ScanCall = ScanCall(adjacent: bool, sequence: i64, visible: Option<PublicEvent>, byteLimit: nat)

  function ScanRun(page: Page, calls: seq<ScanCall>): Page
    decreases |calls|
  {
    if calls == [] then page
    else
      var c := calls[0];
      var next := if c.adjacent then ScanNext(page, c.sequence, c.visible, c.byteLimit).0
                  else ScanSnapshotNext(page, c.sequence, c.visible, c.byteLimit).0;
      ScanRun(next, calls[1..])
  }

  lemma ScanKeepsWellFormed(page: Page, sequence: i64, visible: Option<PublicEvent>, byteLimit: nat)
    requires WellFormed(page)
    ensures WellFormed(ScanSnapshotNext(page, sequence, visible, byteLimit).0)
  {
    hide EventSize, BodySize;
    assert page.events + [] == page.events;
  }

  lemma {:induction false} ScanRunKeepsWellFormed(page: Page, calls: seq<ScanCall>)
    requires WellFormed(page)
    ensures WellFormed(ScanRun(page, calls))
    ensures ScanRun(page, calls).fromCursor == page.fromCursor
    ensures ScanRun(page, calls).highWatermark == page.highWatermark
    ensures page.throughCursor <= ScanRun(page, calls).throughCursor
    decreases |calls|
  {
    if calls != [] {
      var c := calls[0];
      ScanKeepsWellFormed(page, c.sequence, c.visible, c.byteLimit);
      var next := if c.adjacent then ScanNext(page, c.sequence, c.visible, c.byteLimit).0
                  else ScanSnapshotNext(page, c.sequence, c.visible, c.byteLimit).0;
      ScanRunKeepsWellFormed(next, calls[1..]);
    }
  }

  /** The calls that were answered with an advance, in order. */
  function Advanced(page: Page, calls: seq<ScanCall>): seq<ScanCall>
    decreases |calls|
  {
    if calls == [] then []
    else
      var c := calls[0];
      var (next, r) := if c.adjacent then ScanNext(page, c.sequence, c.visible, c.byteLimit)
                       else ScanSnapshotNext(page, c.sequence, c.visible, c.byteLimit);
      (if r == Success(true) then [c] else []) + Advanced(next, calls[1..])
  }

  function VisibleOf(calls: seq<ScanCall>): seq<PublicEvent> {
    if calls == [] then [] else (if calls[0].visible.Some? then [calls[0].visible.value] else []) + VisibleOf(calls[1..])
  }

  /** The calls of consecutive sequences after a cursor. */
  predicate Gapless(calls: seq<ScanCall>, cursor: int) {
    forall i :: 0 <= i < |calls| ==> calls[i].sequence == cursor + 1 + i
  }

  lemma GaplessFirst(c: ScanCall, rest: seq<ScanCall>, cursor: int)
    ensures Gapless([] + rest, cursor) <==> Gapless(rest, cursor)
    ensures c.sequence == cursor + 1 && Gapless(rest, cursor + 1) ==> Gapless([c] + rest, cursor)
  {
    assert [] + rest == rest;
  }

  predicate AllAdjacent(calls: seq<ScanCall>) {
    forall c :: c in calls ==> c.adjacent
  }

  /** Whatever records are offered, in whatever order and with whatever gaps: the ones a page of
      the journal advances over are the next sequences, without a gap and each once, and its
      events are the visible ones among them. */
  lemma {:induction false} AdjacentScansAreGapless(page: Page, calls: seq<ScanCall>)
    requires AllAdjacent(calls)
    ensures var took, page' := Advanced(page, calls), ScanRun(page, calls);
      && page'.throughCursor == page.throughCursor + |took|
      && Gapless(took, page.throughCursor)
      && page'.events == page.events + VisibleOf(took)
    decreases |calls|
  {
    if calls == [] {
      assert page.events + [] == page.events;
    } else {
      hide AllAdjacent, ScanNext, Advanced, ScanRun, VisibleOf, Gapless;
      var c := calls[0];
      var (next, r) := ScanNext(page, c.sequence, c.visible, c.byteLimit);
      RestIsAdjacent(calls);
      AdvancedStep(page, calls);
      AdjacentScansAreGapless(next, calls[1..]);
      var rest := Advanced(next, calls[1..]);
      ScanAdvances(page, c);
      GaplessFirst(c, rest, page.throughCursor);
      EventsJoin(page.events, Shown(page, c), VisibleOf(rest));
    }
  }

  lemma RestIsAdjacent(calls: seq<ScanCall>)
    requires AllAdjacent(calls) && calls != []
    ensures calls[0].adjacent && AllAdjacent(calls[1..])
  {
  }

  lemma EventsJoin(a: seq<PublicEvent>, b: seq<PublicEvent>, c: seq<PublicEvent>)
    ensures a + b + c == a + (b + c)
  {
  }

  /** The event that a call adds to a page. */
  function Shown(page: Page, c: ScanCall): seq<PublicEvent> {
    if ScanNext(page, c.sequence, c.visible, c.byteLimit).1 == Success(true) && c.visible.Some? then [c.visible.value] else []
  }

  lemma AdvancedStep(page: Page, calls: seq<ScanCall>)
    requires calls != [] && calls[0].adjacent
    ensures var c := calls[0];
      var (next, r) := ScanNext(page, c.sequence, c.visible, c.byteLimit);
      && ScanRun(page, calls) == ScanRun(next, calls[1..])
      && Advanced(page, calls) == (if r == Success(true) then [c] else []) + Advanced(next, calls[1..])
      && VisibleOf(Advanced(page, calls)) == Shown(page, c) + VisibleOf(Advanced(next, calls[1..]))
  {
    hide ScanNext, ScanSnapshotNext;
    var c := calls[0];
    var rest := Advanced(ScanNext(page, c.sequence, c.visible, c.byteLimit).0, calls[1..]);
    assert ([c] + rest)[1..] == rest && [] + rest == rest;
  }

  lemma ScanAdvances(page: Page, c: ScanCall)
    ensures var (next, r) := ScanNext(page, c.sequence, c.visible, c.byteLimit);
      && next.events == page.events + Shown(page, c)
      && (r == Success(true) ==> c.sequence == page.throughCursor + 1 == next.throughCursor)
      && (r != Success(true) ==> next == page)
  {
    assert page.events + [] == page.events;
  }

  // ---- The client's cursor ----

  datatype StageToken = StageToken(identity: ReadIdentity, attempt: u64, fromCursor: i64, throughCursor: i64)
  datatype CursorState = CursorState(identity: ReadIdentity, cursor: i64, pending: Option<StageToken>, attempt: u64)

  function NewCursor(identity: ReadIdentity, cursor: i64): CursorState {
    CursorState(identity, cursor, None, 0)
  }

  predicate EventsInRange(page: Page) {
    forall i :: 0 <= i < |page.events| ==>
      page.events[i].version == VERSION && page.fromCursor < page.events[i].sequence <= page.throughCursor
  }

  predicate StrictlyIncreasing(events: seq<PublicEvent>) {
    forall i :: 0 < i < |events| ==> events[i - 1].sequence < events[i].sequence
  }

  /** Every test a page must pass to be staged. */
  predicate Stageable(s: CursorState, identity: ReadIdentity, page: Page) {
    && identity == s.identity
    && page.version == VERSION
    && page.hasMore == (page.throughCursor < page.highWatermark)
    && EventsInRange(page)
    && StrictlyIncreasing(page.events)
    && s.pending.None?
    && page.fromCursor == s.cursor
    && s.cursor <= page.throughCursor <= page.highWatermark
    && |page.events| <= MAX_REPLAY_EVENTS
    && PageSize(page) <= MAX_REPLAY_BYTES + 65536
  }

  function StageNext(s: CursorState, identity: ReadIdentity, page: Page): (CursorState, Option<StageToken>) {
    if !Stageable(s, identity, page) || s.attempt == MAX_U64 then (s, None)
    else
      var token := StageToken(identity, s.attempt + 1, page.fromCursor, page.throughCursor);
      (s.(attempt := s.attempt + 1, pending := Some(token)), Some(token))
  }

  function AppliedNext(s: CursorState, token: StageToken): (CursorState, bool) {
    if s.pending != Some(token) || token.identity != s.identity || token.fromCursor != s.cursor then (s, false)
    else (s.(cursor := token.throughCursor, pending := None), true)
  }

  function FailedNext(s: CursorState, token: StageToken): (CursorState, bool) {
    if s.pending != Some(token) || token.identity != s.identity then (s, false) else (s.(pending := None), true)
  }

  function ReplaceNext(s: CursorState, identity: ReadIdentity, cursor: i64): CursorState {
    s.(identity := identity, cursor := cursor, pending := None)
  }

  class ReadProjectionCursor {
    var identity: ReadIdentity
    var cursor: i64
    var pending: Option<StageToken>
    var attempt: u64

    function State(): CursorState
      reads this
    {
      CursorState(identity, cursor, pending, attempt)
    }

    constructor (identity: ReadIdentity, cursor: i64)
      ensures State() == NewCursor(identity, cursor)
    {
      this.identity := identity;
      this.cursor := cursor;
      pending := None;
      attempt := 0;
    }

    /** Stages a page that passes every test, under a token never issued before; the cursor waits
        for its application. */
    method Stage(identity: ReadIdentity, page: Page) returns (r: Option<StageToken>)
      modifies this
      ensures r.Some? <==> Stageable(old(State()), identity, page) && old(attempt) < MAX_U64
      ensures cursor == old(cursor) && old(attempt) <= attempt
      ensures r.Some? ==> pending == r && r.value.attempt > old(attempt) && r.value.throughCursor == page.throughCursor
      ensures r.None? ==> State() == old(State())
      ensures (State(), r) == StageNext(old(State()), identity, page)
    {
      hide PageSize, EventsInRange, StrictlyIncreasing;
      if identity != this.identity
        || page.version != VERSION
        || page.hasMore != (page.throughCursor < page.highWatermark)
        || !EventsInRange(page)
        || !StrictlyIncreasing(page.events)
        || pending.Some?
        || page.fromCursor != cursor
        || page.throughCursor < cursor
        || page.throughCursor > page.highWatermark
        || |page.events| > MAX_REPLAY_EVENTS
        || PageSize(page) > MAX_REPLAY_BYTES + 65536
      {
        return None;
      }
      if attempt == MAX_U64 {
        return None;
      }
      attempt := attempt + 1;
      var token := StageToken(identity, attempt, page.fromCursor, page.throughCursor);
      pending := Some(token);
      r := Some(token);
    }

    /** Only the staged token, at the position it was staged at, moves the cursor, to the end of
        its page. */
    method Applied(token: StageToken) returns (r: bool)
      modifies this
      ensures r <==> old(pending) == Some(token) && token.identity == old(identity) && token.fromCursor == old(cursor)
      ensures r ==> cursor == token.throughCursor && pending.None?
      ensures !r ==> State() == old(State())
      ensures (State(), r) == AppliedNext(old(State()), token)
    {
      if pending != Some(token) || token.identity != identity || token.fromCursor != cursor {
        return false;
      }
      cursor := token.throughCursor;
      pending := None;
      r := true;
    }

    /** Frees the slot for the same page again; the cursor stays. */
    method ApplicationFailed(token: StageToken) returns (r: bool)
      modifies this
      ensures r <==> old(pending) == Some(token) && token.identity == old(identity)
      ensures cursor == old(cursor) && (r ==> pending.None?)
      ensures !r ==> State() == old(State())
      ensures (State(), r) == FailedNext(old(State()), token)
    {
      if pending != Some(token) || token.identity != identity {
        return false;
      }
      pending := None;
      r := true;
    }

    /** A new subscription: what was staged is dropped, and the attempts go on counting. */
    method Replace(identity: ReadIdentity, cursor: i64)
      modifies this
      ensures pending.None? && attempt == old(attempt) && this.cursor == cursor
      ensures State() == ReplaceNext(old(State()), identity, cursor)
    {
      this.identity := identity;
      this.cursor := cursor;
      pending := None;
    }
  }

  /** A page is staged exactly when it answers this subscription, starts where the cursor stands with
      nothing else staged, is ordered and complete in itself, and is within its limits. */
  lemma StagedExactly(s: CursorState, identity: ReadIdentity, page: Page)
    ensures StageNext(s, identity, page).1.Some? <==>
      && identity.connectionGeneration == s.identity.connectionGeneration
      && identity.requestGeneration == s.identity.requestGeneration
      && s.pending.None? && page.fromCursor == s.cursor
      && page.version == 1 && page.fromCursor <= page.throughCursor <= page.highWatermark
      && (page.hasMore <==> page.throughCursor < page.highWatermark)
      && (forall i :: 0 <= i < |page.events| ==>
            page.events[i].version == 1 && page.fromCursor < page.events[i].sequence <= page.throughCursor)
      && (forall i :: 0 <= i < |page.events| - 1 ==> page.events[i].sequence < page.events[i + 1].sequence)
      && |page.events| <= 100 && PageSize(page) <= 1024 * 1024 + 65536
      && s.attempt < 0xFFFF_FFFF_FFFF_FFFF
    ensures StageNext(s, identity, page).1.None? ==> StageNext(s, identity, page).0 == s
  {
    hide PageSize;
    if StrictlyIncreasing(page.events) {
      forall i | 0 <= i < |page.events| - 1 ensures page.events[i].sequence < page.events[i + 1].sequence {
        assert page.events[i + 1 - 1].sequence < page.events[i + 1].sequence;
      }
    }
  }

  /** What comes of a staged page. No other token touches it. Applied, it moves the cursor to its
      end, and its token is used up; failed, it leaves the cursor, and the page can be staged
      again, under another token. A new subscription drops it, even one of the same identity at
      the same cursor. */
  lemma StagedPageOutcomes(s: CursorState, identity: ReadIdentity, page: Page, other: StageToken, cursor: i64)
    requires StageNext(s, identity, page).1.Some?
    ensures var (staged, token) := StageNext(s, identity, page);
      && staged.cursor == s.cursor
      && (other != token.value ==> AppliedNext(staged, other) == (staged, false) && FailedNext(staged, other) == (staged, false))
      && (var (after, ok) := AppliedNext(staged, token.value);
          ok && after.cursor == page.throughCursor && after.identity == s.identity && !AppliedNext(after, token.value).1)
      && (var (after, ok) := FailedNext(staged, token.value);
          && ok && after.cursor == s.cursor && Stageable(after, identity, page) && !AppliedNext(after, token.value).1
          && (after.attempt < MAX_U64 ==>
                var again := StageNext(after, identity, page).1; again.Some? && again.value != token.value))
      && !AppliedNext(ReplaceNext(staged, identity, cursor), token.value).1
  {
    hide EventsInRange, StrictlyIncreasing, PageSize;
  }

  // ---- Token discipline ----

  datatype CursorOp =
    | StageOp(identity: ReadIdentity, page: Page)
    | AppliedOp(token: StageToken)
    | FailedOp(token: StageToken)
    | ReplaceOp(identity: ReadIdentity, cursor: i64)

  /** A cursor with the tokens it has issued and the ones it has consumed, oldest first. */
  datatype CursorTrace = CursorTrace(state: CursorState, issued: seq<StageToken>, consumed: seq<StageToken>)

  function TraceNext(t: CursorTrace, op: CursorOp): CursorTrace {
    match op
    case StageOp(identity, page) =>
      var (state, token) := StageNext(t.state, identity, page);
      CursorTrace(state, if token.Some? then t.issued + [token.value] else t.issued, t.consumed)
    case AppliedOp(token) =>
      var (state, accepted) := AppliedNext(t.state, token);
      CursorTrace(state, t.issued, if accepted then t.consumed + [token] else t.consumed)
    case FailedOp(token) =>
      var (state, accepted) := FailedNext(t.state, token);
      CursorTrace(state, t.issued, if accepted then t.consumed + [token] else t.consumed)
    case ReplaceOp(identity, cursor) => t.(state := ReplaceNext(t.state, identity, cursor))
  }

  function TraceRun(t: CursorTrace, ops: seq<CursorOp>): CursorTrace
    decreases |ops|
  {
    if ops == [] then t else TraceRun(TraceNext(t, ops[0]), ops[1..])
  }

  predicate TraceInv(t: CursorTrace) {
    && (forall i :: 0 <= i < |t.issued| ==> t.issued[i].attempt <= t.state.attempt)
    && (forall i, j :: 0 <= i < j < |t.issued| ==> t.issued[i].attempt < t.issued[j].attempt)
    && (forall i, j :: 0 <= i < j < |t.consumed| ==> t.consumed[i] != t.consumed[j])
    && (forall token :: token in t.consumed ==> token in t.issued)
    && (t.state.pending.Some? ==>
          && t.state.pending.value in t.issued
          && t.state.pending.value !in t.consumed
          && t.state.pending.value.fromCursor <= t.state.pending.value.throughCursor)
  }

  lemma TraceNextKeepsInv(t: CursorTrace, op: CursorOp)
    requires TraceInv(t)
    ensures TraceInv(TraceNext(t, op))
    ensures !op.ReplaceOp? ==> t.state.cursor <= TraceNext(t, op).state.cursor
    ensures t.issued <= TraceNext(t, op).issued && t.consumed <= TraceNext(t, op).consumed
  {
    hide PageSize, EventsInRange, StrictlyIncreasing;
  }

  /** Over any operations, with any tokens presented: issued tokens are all distinct, also
      across a replacement by an equal identity, each is consumed at most once, and only a
      replacement moves the cursor back. */
  lemma {:induction false} TokenDiscipline(t: CursorTrace, ops: seq<CursorOp>)
    requires TraceInv(t)
    ensures var t' := TraceRun(t, ops);
      && TraceInv(t')
      && (forall i, j :: 0 <= i < j < |t'.issued| ==> t'.issued[i] != t'.issued[j])
      && (forall i, j :: 0 <= i < j < |t'.consumed| ==> t'.consumed[i] != t'.consumed[j])
      && ((forall op :: op in ops ==> !op.ReplaceOp?) ==> t.state.cursor <= t'.state.cursor)
    decreases |ops|
  {
    if ops != [] {
      TraceNextKeepsInv(t, ops[0]);
      TokenDiscipline(TraceNext(t, ops[0]), ops[1..]);
    }
  }

  /** An issued token that no longer stands staged. */
  predicate Dead(t: CursorTrace, token: StageToken) {
    token in t.issued && t.state.pending != Some(token)
  }

  lemma DeadTokenIsRefused(t: CursorTrace, op: CursorOp, token: StageToken)
    requires TraceInv(t) && Dead(t, token)
    ensures Dead(TraceNext(t, op), token)
    ensures token in TraceNext(t, op).consumed <==> token in t.consumed
    ensures AppliedNext(t.state, token) == (t.state, false) && FailedNext(t.state, token) == (t.state, false)
  {
    hide Stageable;
  }

  /** A token that was applied, failed, or replaced by a new subscription is dead for good, also
      when the new subscription has an equal identity: a late application under it is refused and
      moves nothing. */
  lemma {:induction false} DeadTokensStayDead(t: CursorTrace, ops: seq<CursorOp>, token: StageToken)
    requires TraceInv(t) && Dead(t, token)
    ensures var t' := TraceRun(t, ops);
      && Dead(t', token)
      && (token in t'.consumed <==> token in t.consumed)
      && AppliedNext(t'.state, token) == (t'.state, false)
    decreases |ops|
  {
    if ops != [] {
      TraceNextKeepsInv(t, ops[0]);
      DeadTokenIsRefused(t, ops[0], token);
      DeadTokensStayDead(TraceNext(t, ops[0]), ops[1..], token);
    }
  }

  /** Applying, failing and replacing kill the token. */
  lemma TokensDie(t: CursorTrace, op: CursorOp, token: StageToken)
    requires TraceInv(t) && t.state.pending == Some(token)
    requires op.ReplaceOp? || TraceNext(t, op).consumed != t.consumed
    ensures Dead(TraceNext(t, op), token)
  {
    hide Stageable;
  }

  // ---- Agreement of the two sides ----

  /** A page scanned from an accepted cursor, with no more events than a page may carry, is
      staged by an idle cursor that stands where the page starts. */
  lemma ScannedPageIsStaged(watermark: i64, first: Option<i64>, calls: seq<ScanCall>, s: CursorState)
    requires ValidateCursor(s.cursor, watermark, first).Success?
    requires |ScanRun(NewPage(s.cursor, watermark), calls).events| <= MAX_REPLAY_EVENTS
    requires s.pending.None? && s.attempt < MAX_U64
    ensures var page := ScanRun(NewPage(s.cursor, watermark), calls);
      && Stageable(s, s.identity, page)
      && StageNext(s, s.identity, page).1.Some?
  {
    var start := NewPage(s.cursor, watermark);
    ScanRunKeepsWellFormed(start, calls);
    WellFormedIsStaged(s, ScanRun(start, calls));
  }

  lemma WellFormedIsStaged(s: CursorState, page: Page)
    requires WellFormed(page) && |page.events| <= MAX_REPLAY_EVENTS
    requires s.pending.None? && s.cursor == page.fromCursor
    ensures Stageable(s, s.identity, page)
  {
    IntegerWidths(page.version, page.fromCursor);
    IntegerWidths(page.version, page.throughCursor);
    IntegerWidths(page.version, page.highWatermark);
  }
}
