/** The reading side of the conversation store: which events a reader may see, and the pages it
    is given of them under an event limit and a byte limit. */
module Paging {
  import opened JsonText
  import opened Wrappers
  import opened Protocol
  import opened Journal
  import opened Replay

  type Filter = Option<RunId>

  // ---- What a reader may see ----

  predicate Visible(c: AppendCommand, filter: Filter) {
    c.payload.Public? && (filter.None? || filter.value == c.runId)
  }

  /** The event that record n of the journal (sequence n + 1) is to a reader, if it is one. */
  function EventAt(log: seq<AppendCommand>, filter: Filter, n: nat): (event: Option<PublicEvent>)
    requires n < |log| <= MAX_I64
    ensures event.Some? ==> event.value.sequence == n + 1 && event.value.version == VERSION
  {
    var c := log[n];
    if Visible(c, filter)
    then Some(PublicEvent(VERSION, c.conversationId, c.runId, c.eventId, n + 1, c.payload.public))
    else None
  }

  /** The visible events with from < sequence <= until, in order. */
  function VisibleRange(log: seq<AppendCommand>, filter: Filter, from: nat, until: nat): seq<PublicEvent>
    requires until <= |log| <= MAX_I64
    decreases until
  {
    if until <= from then []
    else
      VisibleRange(log, filter, from, until - 1)
      + (match EventAt(log, filter, until - 1) case Some(e) => [e] case None => [])
  }

  lemma {:induction false} VisibleRangeSplit(log: seq<AppendCommand>, filter: Filter, from: nat, mid: nat, until: nat)
    requires from <= mid <= until <= |log| <= MAX_I64
    ensures VisibleRange(log, filter, from, until) == VisibleRange(log, filter, from, mid) + VisibleRange(log, filter, mid, until)
    decreases until
  {
    if mid < until {
      VisibleRangeSplit(log, filter, from, mid, until - 1);
    }
  }

  /** Later commits change nothing a reader has already seen. */
  lemma {:induction false} VisibleRangeStable(log: seq<AppendCommand>, log': seq<AppendCommand>, filter: Filter, from: nat, until: nat)
    requires log <= log' && until <= |log| && |log'| <= MAX_I64
    ensures VisibleRange(log', filter, from, until) == VisibleRange(log, filter, from, until)
    decreases until
  {
    if from < until {
      VisibleRangeStable(log, log', filter, from, until - 1);
      assert log'[until - 1] == log[until - 1];
    }
  }

  predicate IsEventOf(log: seq<AppendCommand>, filter: Filter, e: PublicEvent)
    requires |log| <= MAX_I64
  {
    0 < e.sequence <= |log| && EventAt(log, filter, e.sequence - 1) == Some(e)
  }

  /** The range has only events of its sequences, each once, in order. */
  lemma {:induction false} VisibleRangeSound(log: seq<AppendCommand>, filter: Filter, from: nat, until: nat, events: seq<PublicEvent>)
    requires until <= |log| <= MAX_I64 && events == VisibleRange(log, filter, from, until)
    ensures forall i :: 0 <= i < |events| ==> from < events[i].sequence <= until && IsEventOf(log, filter, events[i])
    ensures forall i, j :: 0 <= i < j < |events| ==> events[i].sequence < events[j].sequence
    decreases until
  {
    if from < until {
      var before, last := VisibleRange(log, filter, from, until - 1), EventAt(log, filter, until - 1);
      VisibleRangeSound(log, filter, from, until - 1, before);
      assert events == before + if last.Some? then [last.value] else [];
    }
  }

  /** The range has every visible event of its sequences. */
  lemma {:induction false} VisibleRangeComplete(log: seq<AppendCommand>, filter: Filter, from: nat, until: nat, n: nat)
    requires from <= n < until <= |log| <= MAX_I64 && EventAt(log, filter, n).Some?
    ensures EventAt(log, filter, n).value in VisibleRange(log, filter, from, until)
    decreases until
  {
    if n < until - 1 {
      VisibleRangeComplete(log, filter, from, until - 1, n);
    }
  }

  /** An event is its record, field by field, and of the run that was asked for. */
  predicate IsRecord(c: AppendCommand, filter: Filter, e: PublicEvent) {
    && c.payload == Public(e.payload)
    && e.runId == c.runId && e.conversationId == c.conversationId && e.eventId == c.eventId
    && (filter.Some? ==> e.runId == filter.value)
  }

  /** The events show the journal between two sequences: each is its record, in order and once, and
      no public record of the run, or of any run when none was asked for, is left out. */
  ghost predicate Shows(log: seq<AppendCommand>, filter: Filter, from: int, until: int, events: seq<PublicEvent>) {
    && (forall i :: 0 <= i < |events| ==>
          && 0 <= from < events[i].sequence <= until <= |log|
          && IsRecord(log[events[i].sequence - 1], filter, events[i]))
    && (forall i, j :: 0 <= i < j < |events| ==> events[i].sequence < events[j].sequence)
    && (forall n :: 0 <= from <= n < until <= |log| && log[n].payload.Public? && (filter.None? || filter.value == log[n].runId) ==>
          exists i :: 0 <= i < |events| && events[i].sequence == n + 1)
  }

  lemma EventIsRecord(log: seq<AppendCommand>, filter: Filter, e: PublicEvent)
    requires |log| <= MAX_I64 && IsEventOf(log, filter, e)
    ensures IsRecord(log[e.sequence - 1], filter, e)
  {
  }

  lemma {:induction false} ShowsAll(log: seq<AppendCommand>, filter: Filter, from: nat, until: nat, n: nat) returns (i: nat)
    requires from <= n < until <= |log| <= MAX_I64
    requires log[n].payload.Public? && (filter.None? || filter.value == log[n].runId)
    ensures var events := VisibleRange(log, filter, from, until); i < |events| && events[i].sequence == n + 1
  {
    VisibleRangeComplete(log, filter, from, until, n);
    var events, e := VisibleRange(log, filter, from, until), EventAt(log, filter, n).value;
    hide VisibleRange, Visible;
    i :| 0 <= i < |events| && events[i] == e;
  }

  lemma VisibleRangeShows(log: seq<AppendCommand>, filter: Filter, from: nat, until: nat)
    requires until <= |log| <= MAX_I64
    ensures Shows(log, filter, from, until, VisibleRange(log, filter, from, until))
  {
    hide VisibleRange, EventAt, IsRecord, IsEventOf;
    var events := VisibleRange(log, filter, from, until);
    VisibleRangeSound(log, filter, from, until, events);
    forall i | 0 <= i < |events| ensures 0 < events[i].sequence <= |log| && IsRecord(log[events[i].sequence - 1], filter, events[i]) {
      EventIsRecord(log, filter, events[i]);
    }
    forall n | from <= n < until && log[n].payload.Public? && (filter.None? || filter.value == log[n].runId)
      ensures exists i :: 0 <= i < |events| && events[i].sequence == n + 1
    {
      var i := ShowsAll(log, filter, from, until, n);
    }
  }

  lemma EventIsWriterValid(log: seq<AppendCommand>, filter: Filter, n: nat)
    requires Built(log) && n < |log| <= MAX_I64
    ensures EventAt(log, filter, n).Some? ==> WriterValid(EventAt(log, filter, n).value)
  {
    BuiltRecord(log, n);
  }

  /** No journal outgrows its sequence numbers. */
  lemma BuiltFits(log: seq<AppendCommand>)
    requires Built(log)
    ensures |log| <= MAX_I64
  {
    if log != [] {
      BuiltRecord(log, |log| - 1);
    }
  }

  // ---- The rows of one page ----

  datatype Row = Row(sequence: i64, visible: Option<PublicEvent>)

  /** The first `limit` rows after `after`: every record of the journal, or for a snapshot the
      public ones only. */
  function Rows(log: seq<AppendCommand>, filter: Filter, after: nat, watermark: nat, limit: nat, snapshot: bool): (rows: seq<Row>)
    requires watermark <= |log| <= MAX_I64
    ensures |rows| <= limit
    decreases watermark - after
  {
    if after >= watermark || limit == 0 then []
    else if snapshot && !log[after].payload.Public? then Rows(log, filter, after + 1, watermark, limit, snapshot)
    else [Row(after + 1, EventAt(log, filter, after))] + Rows(log, filter, after + 1, watermark, limit - 1, snapshot)
  }

  /** The number of records in a range that take a row. */
  function Examined(log: seq<AppendCommand>, from: nat, until: nat, snapshot: bool): nat
    requires until <= |log|
    decreases until - from
  {
    if from >= until then 0
    else (if snapshot && !log[from].payload.Public? then 0 else 1) + Examined(log, from + 1, until, snapshot)
  }

  lemma {:induction false} ExaminedSplit(log: seq<AppendCommand>, from: nat, mid: nat, until: nat, snapshot: bool)
    requires from <= mid <= until <= |log|
    ensures Examined(log, from, until, snapshot) == Examined(log, from, mid, snapshot) + Examined(log, mid, until, snapshot)
    decreases until - from
  {
    if from < mid {
      ExaminedSplit(log, from + 1, mid, until, snapshot);
    }
  }

  /** What is visible takes a row. */
  lemma {:induction false} VisibleTakesRows(log: seq<AppendCommand>, filter: Filter, from: nat, until: nat, snapshot: bool)
    requires from <= until <= |log| <= MAX_I64
    ensures |VisibleRange(log, filter, from, until)| <= Examined(log, from, until, snapshot)
    decreases until
  {
    if from < until {
      VisibleTakesRows(log, filter, from, until - 1, snapshot);
      ExaminedSplit(log, from, until - 1, until, snapshot);
    }
  }

  /** The rows of a page start with the next row, and skip nothing visible before it. */
  lemma {:induction false} RowsStep(log: seq<AppendCommand>, filter: Filter, after: nat, watermark: nat, limit: nat, snapshot: bool)
    requires after <= watermark <= |log| <= MAX_I64
    ensures var rows := Rows(log, filter, after, watermark, limit, snapshot);
      if rows == [] then
        limit > 0 ==>
          && VisibleRange(log, filter, after, watermark) == []
          && Examined(log, after, watermark, snapshot) == 0
          && (!snapshot ==> after == watermark)
      else
        && after < rows[0].sequence <= watermark
        && (!snapshot ==> rows[0].sequence == after + 1)
        && rows[0].visible == EventAt(log, filter, rows[0].sequence - 1)
        && VisibleRange(log, filter, after, rows[0].sequence - 1) == []
        && Examined(log, after, rows[0].sequence, snapshot) == 1
        && rows[1..] == Rows(log, filter, rows[0].sequence, watermark, limit - 1, snapshot)
    decreases watermark - after
  {
    if after < watermark && limit > 0 && snapshot && !log[after].payload.Public? {
      RowsStep(log, filter, after + 1, watermark, limit, snapshot);
      var rows := Rows(log, filter, after, watermark, limit, snapshot);
      var until := if rows == [] then watermark else rows[0].sequence - 1;
      VisibleRangeSplit(log, filter, after, after + 1, until);
    }
  }

  datatype ReadError = InvalidReplay | Reset(reason: CursorReset)

  predicate LimitsOk(limit: nat, bytes: nat) {
    0 < limit <= MAX_REPLAY_EVENTS && MIN_REPLAY_BYTES <= bytes <= MAX_REPLAY_BYTES
  }

  function ScanRow(page: Page, row: Row, bytes: nat, snapshot: bool): (Page, Result<bool, CursorReset>) {
    if snapshot then ScanSnapshotNext(page, row.sequence, row.visible, bytes)
    else ScanNext(page, row.sequence, row.visible, bytes)
  }

  /** The page after scanning rows until one does not fit, and whether one did not. */
  function ScanRows(page: Page, rows: seq<Row>, bytes: nat, snapshot: bool): Result<(Page, bool), ReadError>
    decreases |rows|
  {
    if rows == [] then Success((page, false))
    else
      var (next, included) := ScanRow(page, rows[0], bytes, snapshot);
      match included
      case Failure(reason) => Failure(Reset(reason))
      case Success(false) => Success((next, true))
      case Success(true) => ScanRows(next, rows[1..], bytes, snapshot)
  }

  /** One page of a store that still has the journal from sequence `first` on, and every public
      record in its projection. */
  function ReadPage(log: seq<AppendCommand>, first: nat, filter: Filter, after: nat, watermark: nat,
                    limit: nat, bytes: nat, snapshot: bool): Result<Page, ReadError>
    requires after <= watermark <= |log| <= MAX_I64
  {
    var start := if snapshot || first <= after + 1 then after else first - 1;
    var rows := Rows(log, filter, start, watermark, limit, snapshot);
    var (page, stopped) :- ScanRows(NewPage(after, watermark), rows, bytes, snapshot);
    if !snapshot && rows == [] && after < watermark then Failure(Reset(Pruned))
    else if stopped && page.throughCursor == after then Failure(InvalidReplay)
    else if snapshot && |rows| < limit && !stopped then Success(page.(throughCursor := watermark, hasMore := false))
    else Success(page)
  }

  function FirstRetained(log: seq<AppendCommand>, first: nat): Option<i64>
    requires |log| <= MAX_I64
  {
    if first <= |log| then Some(first) else None
  }

  /** The answer to a read after a cursor. A fixed watermark pages a snapshot, otherwise the
      journal up to its end is read. */
  function ReadReplayResult(log: seq<AppendCommand>, first: nat, filter: Filter, after: i64, through: Option<i64>,
                            limit: nat, bytes: nat): Result<Page, ReadError>
    requires |log| <= MAX_I64
  {
    var watermark: int := if through.Some? then through.value else |log|;
    if !LimitsOk(limit, bytes) then Failure(InvalidReplay)
    else if watermark < 0 || watermark > |log| || after > watermark then Failure(Reset(Invalid))
    else
      match if through.None? then ValidateCursor(after, watermark, FirstRetained(log, first))
            else if after < 0 then Failure(Invalid) else Success(())
      case Failure(reason) => Failure(Reset(reason))
      case Success(_) => ReadPage(log, first, filter, after, watermark, limit, bytes, through.Some?)
  }

  method ReadReplay(log: seq<AppendCommand>, first: nat, filter: Filter, after: i64, through: Option<i64>,
                    limit: nat, bytes: nat) returns (r: Result<Page, ReadError>)
    requires |log| <= MAX_I64
    ensures r == ReadReplayResult(log, first, filter, after, through, limit, bytes)
  {
    hide ScanNext, ScanSnapshotNext, Rows, LimitsOk;
    if !LimitsOk(limit, bytes) {
      return Failure(InvalidReplay);
    }
    var watermark := if through.Some? then through.value else |log|;
    if watermark < 0 || watermark > |log| || after > watermark {
      return Failure(Reset(Invalid));
    }
    if through.None? {
      var valid := ValidateCursor(after, watermark, FirstRetained(log, first));
      if valid.Failure? {
        return Failure(Reset(valid.error));
      }
    } else if after < 0 {
      return Failure(Reset(Invalid));
    }
    var snapshot := through.Some?;
    var start := if snapshot || first <= after + 1 then after else first - 1;
    var rows := Rows(log, filter, start, watermark, limit, snapshot);
    var page := new CursorPage(after, watermark);
    var stopped := false;
    var i := 0;
    while i < |rows| && !stopped
      invariant i <= |rows|
      invariant ScanRows(NewPage(after, watermark), rows, bytes, snapshot)
        == if stopped then Success((page.View(), true)) else ScanRows(page.View(), rows[i..], bytes, snapshot)
      decreases |rows| - i, !stopped
    {
      assert rows[i..][0] == rows[i] && rows[i..][1..] == rows[i + 1..];
      var included;
      if snapshot {
        included := page.ScanSnapshot(rows[i].sequence, rows[i].visible, bytes);
      } else {
        included := page.Scan(rows[i].sequence, rows[i].visible, bytes);
      }
      if included.Failure? {
        return Failure(Reset(included.error));
      }
      if !included.value {
        stopped := true;
      } else {
        i := i + 1;
      }
    }
    assert !stopped ==> rows[i..] == [];
    if !snapshot && rows == [] && after < watermark {
      return Failure(Reset(Pruned));
    }
    if stopped && page.throughCursor == after {
      return Failure(InvalidReplay);
    }
    if snapshot && |rows| < limit && !stopped {
      page.throughCursor := watermark;
      page.hasMore := false;
    }
    r := Success(page.View());
  }

  // ---- What the pages are ----

  /** A page says what the journal holds between its two cursors. */
  predicate Faithful(log: seq<AppendCommand>, filter: Filter, page: Page)
    requires |log| <= MAX_I64
  {
    && 0 <= page.fromCursor <= page.throughCursor <= page.highWatermark <= |log|
    && page.events == VisibleRange(log, filter, page.fromCursor, page.throughCursor)
  }

  predicate Fits(events: seq<PublicEvent>, bytes: nat) {
    events == [] || ArraySize(events) <= bytes
  }

  /** A page under construction. */
  predicate Scanning(log: seq<AppendCommand>, filter: Filter, page: Page, bytes: nat)
    requires |log| <= MAX_I64
  {
    Faithful(log, filter, page) && WellFormed(page) && Fits(page.events, bytes)
  }

  lemma EmptyPageTakesEvent(log: seq<AppendCommand>, filter: Filter, page: Page, n: nat, bytes: nat)
    requires Built(log) && n < |log| <= MAX_I64 && page.events == [] && MIN_REPLAY_BYTES <= bytes
    ensures var visible := EventAt(log, filter, n); visible.Some? ==> FitsAfter(page, visible.value, bytes)
  {
    var visible := EventAt(log, filter, n);
    if visible.Some? {
      var e := visible.value;
      EventIsWriterValid(log, filter, n);
      MinReplayBytesHoldsOneEvent(e);
      BodySizeAppend([], e);
      assert page.events + [e] == [] + [e];
    }
  }

  lemma TakenFits(page: Page, sequence: i64, visible: Option<PublicEvent>, bytes: nat)
    requires Fits(page.events, bytes)
    ensures Fits(ScanSnapshotNext(page, sequence, visible, bytes).0.events, bytes)
  {
    hide EventSize, BodySize;
    assert page.events + [] == page.events;
  }

  /** The next record worth a row is taken, unless its event does not fit a page that has some. */
  lemma ScanRecordOk(log: seq<AppendCommand>, filter: Filter, page: Page, sequence: nat, bytes: nat)
    requires Built(log) && |log| <= MAX_I64
    requires Scanning(log, filter, page, bytes) && MIN_REPLAY_BYTES <= bytes
    requires page.throughCursor < sequence <= page.highWatermark
    requires VisibleRange(log, filter, page.throughCursor, sequence - 1) == []
    ensures var visible := EventAt(log, filter, sequence - 1);
      var (next, included) := ScanSnapshotNext(page, sequence, visible, bytes);
      && included.Success?
      && (included.value ==>
            && Scanning(log, filter, next, bytes)
            && next.throughCursor == sequence
            && next.fromCursor == page.fromCursor && next.highWatermark == page.highWatermark)
      && (!included.value ==>
            next == page && page.events != [] && visible.Some? && !FitsAfter(page, visible.value, bytes))
  {
    hide EventAt, EventSize, PublicSize, WriterValid, Built, BodySize, WellFormed, FitsAfter, Fits;
    TakenFits(page, sequence, EventAt(log, filter, sequence - 1), bytes);
    var visible := EventAt(log, filter, sequence - 1);
    if page.events == [] {
      EmptyPageTakesEvent(log, filter, page, sequence - 1, bytes);
    }
    ScanKeepsWellFormed(page, sequence, visible, bytes);
    VisibleRangeSplit(log, filter, page.fromCursor, page.throughCursor, sequence - 1);
    assert page.events + [] == page.events;
  }

  lemma ScanRowOk(log: seq<AppendCommand>, filter: Filter, page: Page, limit: nat, bytes: nat, snapshot: bool)
    requires Built(log) && |log| <= MAX_I64
    requires Scanning(log, filter, page, bytes) && MIN_REPLAY_BYTES <= bytes
    requires Rows(log, filter, page.throughCursor, page.highWatermark, limit, snapshot) != []
    ensures var rows := Rows(log, filter, page.throughCursor, page.highWatermark, limit, snapshot);
      var (next, included) := ScanRow(page, rows[0], bytes, snapshot);
      && included.Success?
      && (included.value ==>
            && Scanning(log, filter, next, bytes)
            && next.throughCursor == rows[0].sequence > page.throughCursor
            && next.fromCursor == page.fromCursor && next.highWatermark == page.highWatermark
            && Examined(log, page.throughCursor, next.throughCursor, snapshot) == 1
            && rows[1..] == Rows(log, filter, next.throughCursor, next.highWatermark, limit - 1, snapshot))
      && (!included.value ==>
            next == page && page.events != [] && rows[0].visible.Some? && !FitsAfter(page, rows[0].visible.value, bytes))
  {
    hide EventAt, FitsAfter, WellFormed, Built, VisibleRange, ScanSnapshotNext;
    var rows := Rows(log, filter, page.throughCursor, page.highWatermark, limit, snapshot);
    RowsStep(log, filter, page.throughCursor, page.highWatermark, limit, snapshot);
    ScanRecordOk(log, filter, page, rows[0].sequence, bytes);
  }

  /** The next visible event does not fit. */
  ghost predicate IsFull(log: seq<AppendCommand>, filter: Filter, page: Page, bytes: nat)
    requires |log| <= MAX_I64 && Faithful(log, filter, page)
  {
    exists n {:trigger EventAt(log, filter, n)} ::
      && page.throughCursor <= n < page.highWatermark
      && VisibleRange(log, filter, page.throughCursor, n) == []
      && EventAt(log, filter, n).Some?
      && !FitsAfter(page, EventAt(log, filter, n).value, bytes)
  }

  /** Scanning the rows that a page under construction may still take. */
  lemma {:induction false} ScanRowsOk(log: seq<AppendCommand>, filter: Filter, page: Page, total: nat, limit: nat,
                                      bytes: nat, snapshot: bool)
    requires Built(log) && |log| <= MAX_I64
    requires Scanning(log, filter, page, bytes) && MIN_REPLAY_BYTES <= bytes
    requires Examined(log, page.fromCursor, page.throughCursor, snapshot) + limit == total
    ensures var rows := Rows(log, filter, page.throughCursor, page.highWatermark, limit, snapshot);
      var r := ScanRows(page, rows, bytes, snapshot);
      && r.Success?
      && var (last, stopped) := r.value;
      && Scanning(log, filter, last, bytes)
      && last.fromCursor == page.fromCursor && last.highWatermark == page.highWatermark
      && page.throughCursor <= last.throughCursor
      && (rows != [] && page.events == [] ==> page.throughCursor < last.throughCursor)
      && Examined(log, page.fromCursor, last.throughCursor, snapshot) <= total
      && (stopped ==> IsFull(log, filter, last, bytes))
      && (!stopped && |rows| == limit ==> Examined(log, page.fromCursor, last.throughCursor, snapshot) == total)
      && (!stopped && |rows| < limit ==>
            && VisibleRange(log, filter, last.throughCursor, last.highWatermark) == []
            && Examined(log, last.throughCursor, last.highWatermark, snapshot) == 0
            && (!snapshot ==> last.throughCursor == last.highWatermark))
    decreases limit
  {
    hide EventAt, FitsAfter, WellFormed, Built, VisibleRange, ScanRow, Fits;
    var rows := Rows(log, filter, page.throughCursor, page.highWatermark, limit, snapshot);
    RowsStep(log, filter, page.throughCursor, page.highWatermark, limit, snapshot);
    if rows != [] {
      ScanRowOk(log, filter, page, limit, bytes, snapshot);
      var (next, included) := ScanRow(page, rows[0], bytes, snapshot);
      if included.value {
        ExaminedSplit(log, page.fromCursor, page.throughCursor, next.throughCursor, snapshot);
        ScanRowsOk(log, filter, next, total, limit - 1, bytes, snapshot);
      }
    }
  }

  // ---- What an answer is worth ----

  /** Within its limits no page could carry more. */
  ghost predicate Longest(log: seq<AppendCommand>, filter: Filter, page: Page, limit: nat, bytes: nat, snapshot: bool)
    requires |log| <= MAX_I64 && Faithful(log, filter, page)
  {
    forall t {:trigger VisibleRange(log, filter, page.fromCursor, t)} ::
      page.throughCursor <= t <= page.highWatermark
      && Examined(log, page.fromCursor, t, snapshot) <= limit
      && Fits(VisibleRange(log, filter, page.fromCursor, t), bytes)
      ==> VisibleRange(log, filter, page.fromCursor, t) == page.events
  }

  lemma {:induction false} BodySizeMonotone(a: seq<PublicEvent>, b: seq<PublicEvent>)
    ensures BodySize(a) <= BodySize(a + b)
  {
    hide EventSize;
    if b == [] {
      assert a + b == a;
    } else {
      BodySizeMonotone(a, b[..|b| - 1]);
      assert a + b == a + b[..|b| - 1] + [b[|b| - 1]];
      BodySizeAppend(a + b[..|b| - 1], b[|b| - 1]);
    }
  }

  /** A page that stopped for one of the three reasons is the longest. */
  lemma StoppedIsLongest(log: seq<AppendCommand>, filter: Filter, page: Page, limit: nat, bytes: nat, snapshot: bool)
    requires |log| <= MAX_I64 && Faithful(log, filter, page) && bytes <= MAX_REPLAY_BYTES
    requires || VisibleRange(log, filter, page.throughCursor, page.highWatermark) == []
             || Examined(log, page.fromCursor, page.throughCursor, snapshot) == limit
             || IsFull(log, filter, page, bytes)
    ensures Longest(log, filter, page, limit, bytes, snapshot)
  {
    hide EventAt, EventSize, BodySize, VisibleRange;
    forall t {:trigger VisibleRange(log, filter, page.fromCursor, t)} |
      page.throughCursor <= t <= page.highWatermark
      && Examined(log, page.fromCursor, t, snapshot) <= limit
      && Fits(VisibleRange(log, filter, page.fromCursor, t), bytes)
      ensures VisibleRange(log, filter, page.throughCursor, t) == []
    {
      if VisibleRange(log, filter, page.throughCursor, page.highWatermark) == [] {
        VisibleRangeSplit(log, filter, page.throughCursor, t, page.highWatermark);
      } else if Examined(log, page.fromCursor, page.throughCursor, snapshot) == limit {
        ExaminedSplit(log, page.fromCursor, page.throughCursor, t, snapshot);
        VisibleTakesRows(log, filter, page.throughCursor, t, snapshot);
      } else {
        FullTakesNoMore(log, filter, page, bytes, t);
      }
    }
    forall t {:trigger VisibleRange(log, filter, page.fromCursor, t)} | page.throughCursor <= t <= page.highWatermark
      ensures VisibleRange(log, filter, page.throughCursor, t) == [] ==> VisibleRange(log, filter, page.fromCursor, t) == page.events
    {
      VisibleRangeSplit(log, filter, page.fromCursor, page.throughCursor, t);
      assert page.events + [] == page.events;
    }
  }

  lemma FullTakesNoMore(log: seq<AppendCommand>, filter: Filter, page: Page, bytes: nat, t: nat)
    requires |log| <= MAX_I64 && Faithful(log, filter, page) && bytes <= MAX_REPLAY_BYTES
    requires IsFull(log, filter, page, bytes)
    requires page.throughCursor <= t <= page.highWatermark
    requires Fits(VisibleRange(log, filter, page.fromCursor, t), bytes)
    ensures VisibleRange(log, filter, page.throughCursor, t) == []
  {
    var n :| && page.throughCursor <= n < page.highWatermark
      && VisibleRange(log, filter, page.throughCursor, n) == []
      && EventAt(log, filter, n).Some?
      && !FitsAfter(page, EventAt(log, filter, n).value, bytes);
    hide EventAt, VisibleRange, Fits, FitsAfter, Faithful;
    if t <= n {
      VisibleRangeSplit(log, filter, page.throughCursor, t, n);
    } else {
      BeyondFullDoesNotFit(log, filter, page, bytes, n, t);
    }
  }

  lemma BeyondFullDoesNotFit(log: seq<AppendCommand>, filter: Filter, page: Page, bytes: nat, n: nat, t: nat)
    requires |log| <= MAX_I64 && Faithful(log, filter, page) && bytes <= MAX_REPLAY_BYTES
    requires page.throughCursor <= n < t <= page.highWatermark
    requires VisibleRange(log, filter, page.throughCursor, n) == [] && EventAt(log, filter, n).Some?
    requires !FitsAfter(page, EventAt(log, filter, n).value, bytes)
    ensures !Fits(VisibleRange(log, filter, page.fromCursor, t), bytes)
  {
    hide EventAt, EventSize, BodySize;
    var e := EventAt(log, filter, n).value;
    VisibleRangeSplit(log, filter, page.fromCursor, page.throughCursor, n + 1);
    assert VisibleRange(log, filter, page.throughCursor, n + 1) == [e];
    VisibleRangeSplit(log, filter, page.fromCursor, n + 1, t);
    hide VisibleRange;
    BodySizeMonotone(page.events + [e], VisibleRange(log, filter, n + 1, t));
  }

  /** What the answer to an accepted read is. */
  ghost predicate GoodPage(log: seq<AppendCommand>, filter: Filter, page: Page, limit: nat, bytes: nat, snapshot: bool)
    requires |log| <= MAX_I64
  {
    && Faithful(log, filter, page)
    && Shows(log, filter, page.fromCursor, page.throughCursor, page.events)
    && WellFormed(page)
    && |page.events| <= limit
    && Fits(page.events, bytes)
    && (page.fromCursor < page.highWatermark ==> page.fromCursor < page.throughCursor)
    && Longest(log, filter, page, limit, bytes, snapshot)
  }

  lemma ReadPageIsGood(log: seq<AppendCommand>, first: nat, filter: Filter, after: nat, watermark: nat,
                       limit: nat, bytes: nat, snapshot: bool)
    requires Built(log) && after <= watermark <= |log| <= MAX_I64 && LimitsOk(limit, bytes)
    requires snapshot || after == watermark || first <= after + 1
    ensures var r := ReadPage(log, first, filter, after, watermark, limit, bytes, snapshot);
      && r.Success?
      && r.value.fromCursor == after && r.value.highWatermark == watermark
      && GoodPage(log, filter, r.value, limit, bytes, snapshot)
  {
    hide EventAt, EventSize, BodySize, VisibleRange, Built, ScanRow, IsFull, Longest, Shows;
    var start := NewPage(after, watermark);
    assert Scanning(log, filter, start, bytes) by {
      EmptyPageIsScanning(log, filter, after, watermark, bytes);
    }
    ScanRowsOk(log, filter, start, limit, limit, bytes, snapshot);
    var rows := Rows(log, filter, after, watermark, limit, snapshot);
    var (last, stopped) := ScanRows(start, rows, bytes, snapshot).value;
    RowsStep(log, filter, after, watermark, limit, snapshot);
    StoppedIsLongest(log, filter, last, limit, bytes, snapshot);
    if snapshot && |rows| < limit && !stopped {
      RestOfSnapshot(log, filter, last, limit, bytes);
    } else {
      VisibleTakesRows(log, filter, after, last.throughCursor, snapshot);
      VisibleRangeShows(log, filter, after, last.throughCursor);
    }
  }

  lemma EmptyPageIsScanning(log: seq<AppendCommand>, filter: Filter, after: nat, watermark: nat, bytes: nat)
    requires after <= watermark <= |log| <= MAX_I64
    ensures Scanning(log, filter, NewPage(after, watermark), bytes)
  {
  }

  /** A snapshot page after the last public record reaches its watermark. */
  lemma RestOfSnapshot(log: seq<AppendCommand>, filter: Filter, page: Page, limit: nat, bytes: nat)
    requires |log| <= MAX_I64 && Scanning(log, filter, page, bytes) && LimitsOk(limit, bytes)
    requires VisibleRange(log, filter, page.throughCursor, page.highWatermark) == []
    requires Examined(log, page.throughCursor, page.highWatermark, true) == 0
    requires Examined(log, page.fromCursor, page.throughCursor, true) <= limit
    ensures GoodPage(log, filter, page.(throughCursor := page.highWatermark, hasMore := false), limit, bytes, true)
  {
    hide EventAt, EventSize, BodySize;
    var whole := page.(throughCursor := page.highWatermark, hasMore := false);
    VisibleRangeSplit(log, filter, page.fromCursor, page.throughCursor, page.highWatermark);
    assert page.events + [] == page.events;
    ExaminedSplit(log, page.fromCursor, page.throughCursor, page.highWatermark, true);
    VisibleTakesRows(log, filter, page.fromCursor, page.highWatermark, true);
    VisibleRangeShows(log, filter, page.fromCursor, page.highWatermark);
    hide Shows;
  }

  // ---- Main results ----

  predicate CursorInRange(log: seq<AppendCommand>, after: int, through: Option<i64>) {
    0 <= after <= (if through.Some? then through.value else |log|) <= |log|
  }

  predicate StillRetained(log: seq<AppendCommand>, first: nat, after: int, through: Option<i64>) {
    through.Some? || after == |log| || first <= after + 1 <= |log|
  }

  /** A read is refused for its limits, for a cursor outside the journal, or for a cursor whose
      next record is gone; every other read gets the longest faithful page within its limits,
      which moves past its cursor unless nothing is left. A page never stops before its first
      event, and no record is skipped in silence. */
  lemma ReadReplayAnswers(log: seq<AppendCommand>, first: nat, filter: Filter, after: i64, through: Option<i64>, limit: nat, bytes: nat)
    requires Built(log) && |log| <= MAX_I64
    ensures var r := ReadReplayResult(log, first, filter, after, through, limit, bytes);
      && (r == Failure(InvalidReplay) <==> !(0 < limit <= 100 && MIN_REPLAY_BYTES <= bytes <= 1024 * 1024))
      && (r == Failure(Reset(Invalid)) <==> LimitsOk(limit, bytes) && !CursorInRange(log, after, through))
      && (r == Failure(Reset(Pruned)) <==>
            LimitsOk(limit, bytes) && CursorInRange(log, after, through) && !StillRetained(log, first, after, through))
      && (r.Success? <==>
            LimitsOk(limit, bytes) && CursorInRange(log, after, through) && StillRetained(log, first, after, through))
      && (r.Success? ==>
            && r.value.fromCursor == after
            && r.value.highWatermark == (if through.Some? then through.value else |log|)
            && GoodPage(log, filter, r.value, limit, bytes, through.Some?))
  {
    hide GoodPage, Built, ReadPage;
    if LimitsOk(limit, bytes) && CursorInRange(log, after, through) && StillRetained(log, first, after, through) {
      ReadPageIsGood(log, first, filter, after, if through.Some? then through.value else |log|, limit, bytes, through.Some?);
    }
  }

  /** Reading page after page, each from where the last one ended: all events, and the cursor. */
  function ReadAll(log: seq<AppendCommand>, first: nat, filter: Filter, after: i64, through: Option<i64>,
                   requests: seq<(nat, nat)>): Result<(seq<PublicEvent>, i64), ReadError>
    requires |log| <= MAX_I64
    decreases |requests|
  {
    if requests == [] then Success(([], after))
    else
      var page :- ReadReplayResult(log, first, filter, after, through, requests[0].0, requests[0].1);
      var (events, cursor) :- ReadAll(log, first, filter, page.throughCursor, through, requests[1..]);
      Success((page.events + events, cursor))
  }

  /** With any accepted limits, however they change from page to page: the pages together hold
      exactly the visible events up to their last cursor, and as many pages as there are records
      left always reach the end. */
  lemma {:induction false} PagingIsComplete(log: seq<AppendCommand>, first: nat, filter: Filter, after: i64, through: Option<i64>,
                                            requests: seq<(nat, nat)>)
    requires Built(log) && |log| <= MAX_I64
    requires forall i :: 0 <= i < |requests| ==> LimitsOk(requests[i].0, requests[i].1)
    requires CursorInRange(log, after, through) && StillRetained(log, first, after, through)
    ensures var r := ReadAll(log, first, filter, after, through, requests);
      && r.Success?
      && var (events, cursor) := r.value;
      && after <= cursor <= (if through.Some? then through.value else |log|)
      && events == VisibleRange(log, filter, after, cursor)
      && Shows(log, filter, after, cursor, events)
      && (|requests| >= (if through.Some? then through.value else |log|) - after ==>
            cursor == (if through.Some? then through.value else |log|))
    decreases |requests|
  {
    hide Longest, Built, ReadReplayResult, VisibleRange, LimitsOk, Shows;
    if requests != [] {
      ReadReplayAnswers(log, first, filter, after, through, requests[0].0, requests[0].1);
      var page := ReadReplayResult(log, first, filter, after, through, requests[0].0, requests[0].1).value;
      PagingIsComplete(log, first, filter, page.throughCursor, through, requests[1..]);
      var (_, cursor) := ReadAll(log, first, filter, page.throughCursor, through, requests[1..]).value;
      VisibleRangeSplit(log, filter, after, page.throughCursor, cursor);
      VisibleRangeShows(log, filter, after, cursor);
    } else {
      VisibleRangeShows(log, filter, after, after);
      assert VisibleRange(log, filter, after, after) == [] by {
        VisibleRangeEmpty(log, filter, after);
      }
    }
  }

  lemma VisibleRangeEmpty(log: seq<AppendCommand>, filter: Filter, at: nat)
    requires at <= |log| <= MAX_I64
    ensures VisibleRange(log, filter, at, at) == []
  {
  }
}
