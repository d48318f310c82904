/** The client's projection of one run: a state tagged with the journal watermark it was read at. */
module RunProjections {
  import opened Wrappers
  import opened Protocol
  import opened Journal

  /** The state of a run at a watermark. */
  datatype Point = Point(state: RunState, throughCursor: i64)

  function ApplyNext(p: Point, q: Point): (Point, bool) {
    if q.throughCursor <= p.throughCursor
      || (p.state.IsTerminal() && q.state != p.state)
      || (p.state.Running? && q.state.Queued?)
    then (p, false)
    else (q, true)
  }

  class RunProjection {
    var state: RunState
    var throughCursor: i64

    function View(): Point
      reads this
    {
      Point(state, throughCursor)
    }

    constructor (point: Point)
      ensures View() == point
    {
      state := point.state;
      throughCursor := point.throughCursor;
    }

    /** Takes a newer point unless it would take back an ending or a start. */
    method Apply(state: RunState, throughCursor: i64) returns (r: bool)
      modifies this
      ensures r ==> View() == Point(state, throughCursor) && old(this.throughCursor) < throughCursor
      ensures r && old(this.state.IsTerminal()) ==> this.state == old(this.state)
      ensures r && !old(this.state.Queued?) ==> !this.state.Queued?
      ensures !r ==> View() == old(View())
      ensures (View(), r) == ApplyNext(old(View()), Point(state, throughCursor))
    {
      if throughCursor <= this.throughCursor
        || (this.state.IsTerminal() && state != this.state)
        || (this.state.Running? && state.Queued?)
      {
        return false;
      }
      this.state := state;
      this.throughCursor := throughCursor;
      r := true;
    }
  }

  // ---- Points of a journal ----

  predicate Known(log: seq<AppendCommand>, run: RunId, w: nat) {
    w <= |log| <= MAX_I64 && StateOf(log[..w], run).Some?
  }

  function PointAt(log: seq<AppendCommand>, run: RunId, w: nat): Point
    requires Known(log, run, w)
  {
    Point(StateOf(log[..w], run).value, w)
  }

  /** Deliveries of points of the journal, in the order they arrive. */
  function Deliver(log: seq<AppendCommand>, run: RunId, p: Point, watermarks: seq<nat>): Point
    requires forall w :: w in watermarks ==> Known(log, run, w)
    decreases |watermarks|
  {
    if watermarks == [] then p
    else Deliver(log, run, ApplyNext(p, PointAt(log, run, watermarks[0])).0, watermarks[1..])
  }

  function Largest(w: nat, watermarks: seq<nat>): nat
    decreases |watermarks|
  {
    if watermarks == [] then w else Largest(if watermarks[0] > w then watermarks[0] else w, watermarks[1..])
  }

  lemma {:induction false} LargestIsMaximum(w: nat, watermarks: seq<nat>)
    ensures var m := Largest(w, watermarks);
      && (m == w || m in watermarks)
      && w <= m
      && forall v :: v in watermarks ==> v <= m
    decreases |watermarks|
  {
    if watermarks != [] {
      LargestIsMaximum(if watermarks[0] > w then watermarks[0] else w, watermarks[1..]);
      assert forall v :: v in watermarks ==> v == watermarks[0] || v in watermarks[1..];
    }
  }

  /** A delivered point is taken exactly when it is newer: the guards against a regression never
      refuse a state the journal really reached. */
  lemma NewerPointIsTaken(log: seq<AppendCommand>, run: RunId, w: nat, v: nat)
    requires Built(log) && Known(log, run, w) && Known(log, run, v)
    ensures ApplyNext(PointAt(log, run, w), PointAt(log, run, v))
      == if w < v then (PointAt(log, run, v), true) else (PointAt(log, run, w), false)
  {
    if w < v {
      StateMoves(log, run, w, v);
    }
  }

  /** Whatever points of a journal arrive, late, twice, out of order or not at all, the projection
      ends at the one with the largest watermark. */
  lemma {:induction false} ProjectionConverges(log: seq<AppendCommand>, run: RunId, w: nat, watermarks: seq<nat>)
    requires Built(log) && Known(log, run, w)
    requires forall v :: v in watermarks ==> Known(log, run, v)
    ensures Known(log, run, Largest(w, watermarks))
    ensures Deliver(log, run, PointAt(log, run, w), watermarks) == PointAt(log, run, Largest(w, watermarks))
    decreases |watermarks|
  {
    if watermarks != [] {
      NewerPointIsTaken(log, run, w, watermarks[0]);
      ProjectionConverges(log, run, if watermarks[0] > w then watermarks[0] else w, watermarks[1..]);
    }
  }

  /** Two readers that received the same watermarks, each in its own order and as often as it
      did, agree. */
  lemma SameWatermarksSameProjection(log: seq<AppendCommand>, run: RunId, w: nat, left: seq<nat>, right: seq<nat>)
    requires Built(log) && Known(log, run, w)
    requires forall v :: v in left ==> Known(log, run, v)
    requires forall v :: v in left <==> v in right
    ensures Deliver(log, run, PointAt(log, run, w), left) == Deliver(log, run, PointAt(log, run, w), right)
  {
    ProjectionConverges(log, run, w, left);
    ProjectionConverges(log, run, w, right);
    LargestIsMaximum(w, left);
    LargestIsMaximum(w, right);
  }

  // ---- Arbitrary points ----

  function ApplyAll(p: Point, points: seq<Point>): Point
    decreases |points|
  {
    if points == [] then p else ApplyAll(ApplyNext(p, points[0]).0, points[1..])
  }

  /** Also with points that no journal produced, the watermark never goes back, a terminal state
      stays, and a started run is never queued again. */
  lemma {:induction false} ProjectionNeverRegresses(p: Point, points: seq<Point>)
    ensures var q := ApplyAll(p, points);
      && p.throughCursor <= q.throughCursor
      && (p.throughCursor == q.throughCursor ==> p == q)
      && (p.state.IsTerminal() ==> q.state == p.state)
      && (!p.state.Queued? ==> !q.state.Queued?)
    decreases |points|
  {
    if points != [] {
      ProjectionNeverRegresses(ApplyNext(p, points[0]).0, points[1..]);
    }
  }
}
