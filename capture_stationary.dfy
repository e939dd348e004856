/** The capture-decision state machine (calibrate_capture_stationary.cpp):
    once per frame it decides, from the frame's stamp and the projected board
    boundary, whether the board has been in view long enough, has stopped
    moving, and has stayed still long enough for the frame to be captured. */
module CaptureStationary {
  import opened Wrappers
  import opened Vision
  import opened Frames

  /** min_time_before_leave_ready: 500 ms, in nanoseconds. */
  const MinTimeBeforeLeaveReady: int := 500_000_000
  /** min_time_stationary_secs: 4.0 s, in nanoseconds. */
  const MinTimeStationary: int := 4_000_000_000
  const MinTimeStationarySecs: real := 4.0
  /** delta_threshold */
  const DeltaThreshold: real := 5.0

  /** rclcpp::Duration::seconds() of a nanosecond difference. */
  function Seconds(d: int): real {
    d as real / 1_000_000_000.0
  }

  // ---------------------------------------------------------------------------
  // draw_board_boundary: where each edge of the outline changes colour
  // ---------------------------------------------------------------------------

  /** std::min(1.0, std::max(0.0, f)) */
  function ClampFraction(f: real): (r: real)
    ensures 0.0 <= r <= 1.0
    ensures 0.0 <= f <= 1.0 ==> r == f
    ensures f <= 0.0 ==> r == 0.0
    ensures f >= 1.0 ==> r == 1.0
  {
    if f < 0.0 then 0.0 else if f > 1.0 then 1.0 else f
  }

  /** One edge of the outline: it runs from p0 to p1 and changes colour at
      split; the first ("done") colour is drawn from p0 to split, the second
      from split to p1. */
  datatype EdgeSplit = EdgeSplit(p0: Point, split: Point, p1: Point, first_colour: bool, second_colour: bool)

  /** Edge j covers the fraction [j/4, j/4 + 1/4] of the outline. */
  function SplitEdge(corners: seq<Point>, j: nat, fraction: real): (e: EdgeSplit)
    requires |corners| == 4 && j < 4
    ensures e.p0 == corners[j] && e.p1 == corners[(j + 1) % 4]
    ensures var f, beg := ClampFraction(fraction), j as real / 4.0;
      && (beg + 0.25 <= f ==> e.split == e.p1)
      && (beg >= f ==> e.split == e.p0)
      && (beg < f < beg + 0.25 ==>
            0.0 < 4.0 * (f - beg) < 1.0 && e.split == Lerp(e.p0, e.p1, 4.0 * (f - beg)))
      && (e.first_colour <==> beg < f)
      && (e.second_colour <==> beg + 0.25 > f)
    ensures e.first_colour || e.second_colour
  {
    var f := ClampFraction(fraction);
    var beg := j as real / 4.0;
    var end := beg + 0.25;
    var p0 := corners[j];
    var p1 := corners[(j + 1) % 4];
    var pm := if end <= f then p1
              else if beg >= f then p0
              else Plus(Times(p0, 1.0 - 4.0 * (f - beg)), Times(p1, 0.0 + 4.0 * (f - beg)));
    EdgeSplit(p0, pm, p1, beg < f, end > f)
  }

  /** A fully captured outline (fraction 1.0) is drawn in the first colour only,
      and an outline with no progress (fraction 0.0) in the second colour only. */
  lemma OutlineExtremes(corners: seq<Point>, j: nat)
    requires |corners| == 4 && j < 4
    ensures var e := SplitEdge(corners, j, 1.0); e.first_colour && !e.second_colour && e.split == e.p1
    ensures var e := SplitEdge(corners, j, 0.0); !e.first_colour && e.second_colour && e.split == e.p0
  {
    var e := SplitEdge(corners, j, 1.0);
    assert j as real / 4.0 + 0.25 <= 1.0;
  }

  // ---------------------------------------------------------------------------
  // StationaryBoard: corner motion against a sliding baseline
  // ---------------------------------------------------------------------------

  function Max(a: real, b: real): real {
    if a < b then b else a
  }

  /** Summed motion of the first k corners from the baseline to this frame. */
  function Displacement(prev: seq<Point>, cur: seq<Point>, norm: (Point, Point) -> real, k: nat): real
    requires |prev| == 4 && |cur| == 4 && k <= 4
  {
    if k == 0 then 0.0 else Displacement(prev, cur, norm, k - 1) + norm(cur[k - 1], prev[k - 1])
  }

  /** Longest of the first k sides of this frame's outline (0 for none). */
  function LongestSide(cur: seq<Point>, norm: (Point, Point) -> real, k: nat): (r: real)
    requires |cur| == 4 && k <= 4
    ensures r >= 0.0
  {
    if k == 0 then 0.0 else Max(norm(cur[k - 1], cur[k % 4]), LongestSide(cur, norm, k - 1))
  }

  /** test_stationary's verdict: summed displacement / (4 * longest side * 0.001)
      below delta_threshold.  A zero longest side makes the quotient an IEEE
      infinity or NaN, which is never below the threshold. */
  predicate IsStationary(prev: seq<Point>, cur: seq<Point>, norm: (Point, Point) -> real)
    requires |prev| == 4 && |cur| == 4
  {
    var delta := Displacement(prev, cur, norm, 4);
    var longest := LongestSide(cur, norm, 4);
    longest > 0.0 && delta / (4.0 * longest * 0.001) < DeltaThreshold
  }

  lemma {:induction false} StillDisplacement(q: seq<Point>, norm: (Point, Point) -> real, k: nat)
    requires |q| == 4 && k <= 4
    requires forall i :: 0 <= i < 4 ==> norm(q[i], q[i]) == 0.0
    ensures Displacement(q, q, norm, k) == 0.0
  {
    if k > 0 {
      StillDisplacement(q, norm, k - 1);
    }
  }

  /** A board that did not move since the baseline, and whose outline has a
      side of positive length, is stationary. */
  lemma StillBoardIsStationary(q: seq<Point>, norm: (Point, Point) -> real)
    requires |q| == 4
    requires forall i :: 0 <= i < 4 ==> norm(q[i], q[i]) == 0.0
    requires LongestSide(q, norm, 4) > 0.0
    ensures IsStationary(q, q, norm)
  {
    StillDisplacement(q, norm, 4);
  }

  /** StationaryBoard: the baseline corners the next frame is compared with. */
  class StationaryBoard {
    var last_board_corners: seq<Point>

    constructor ()
      ensures last_board_corners == []
    {
      last_board_corners := [];
    }

    /** reset: the frame's corners become the baseline. */
    method Reset(h: ImageHolder)
      requires h.board_corners.Some?
      modifies this
      ensures last_board_corners == h.board_corners.value
    {
      last_board_corners := h.board_corners.value;
    }

    /** test_stationary: compare the frame with the baseline, overwriting the
        baseline corner by corner as it goes, whatever the verdict. */
    method TestStationary(h: ImageHolder, norm: (Point, Point) -> real) returns (stationary: bool)
      requires h.board_corners.Some? && |last_board_corners| == 4
      modifies this
      ensures stationary == IsStationary(old(last_board_corners), h.board_corners.value, norm)
      ensures last_board_corners == h.board_corners.value
    {
      var board_corners := h.board_corners.value;
      ghost var prev := last_board_corners;
      var delta := 0.0;
      var longest_side := 0.0;
      var i := 0;
      while i < 4
        invariant 0 <= i <= 4
        invariant |last_board_corners| == 4
        invariant forall j :: 0 <= j < i ==> last_board_corners[j] == board_corners[j]
        invariant forall j :: i <= j < 4 ==> last_board_corners[j] == prev[j]
        invariant delta == Displacement(prev, board_corners, norm, i)
        invariant longest_side == LongestSide(board_corners, norm, i)
      {
        delta := delta + norm(board_corners[i], last_board_corners[i]);
        last_board_corners := last_board_corners[i := board_corners[i]];
        var side := norm(board_corners[i], board_corners[(i + 1) % 4]);
        longest_side := Max(side, longest_side);
        i := i + 1;
      }
      assert last_board_corners == board_corners;
      if longest_side > 0.0 {
        stationary := delta / (4.0 * longest_side * 0.001) < DeltaThreshold;
      } else {
        stationary := false;
      }
    }
  }

  // ---------------------------------------------------------------------------
  // The machine, as a value, and one frame's step
  // ---------------------------------------------------------------------------

  datatype CaptureState = Ready | Tracking | Stationary | Captured

  /** Everything the machine remembers between frames: the current state, the
      per-state fields, and the stationarity baseline. */
  datatype Capture = Capture(
    state: CaptureState,
    last_empty_time: Time,                // ReadyState::last_empty_time_
    start_stationary_time: Time,          // StationaryState::start_stationary_time_
    captured_board_corners: seq<Point>,   // CapturedState::captured_board_corners_
    last_board_corners: seq<Point>)       // StationaryBoard::last_board_corners_

  /** Outside Ready the baseline holds four corners; in Captured so does the
      remembered outline. */
  predicate Consistent(c: Capture) {
    && (c.state != Ready ==> |c.last_board_corners| == 4)
    && (c.state == Captured ==> |c.captured_board_corners| == 4)
  }

  /** The outline to draw on the feedback image, and the fraction of it done. */
  datatype Boundary = Boundary(corners: seq<Point>, fraction: real)

  /** What one frame does: the new machine, whether this frame was captured,
      and the feedback outline (None when nothing is drawn). */
  datatype Tick = Tick(next: Capture, captured: bool, feedback: Option<Boundary>)

  /** The machine right after construction at time now. */
  function Initial(now: Time): (c: Capture)
    ensures c.state == Ready && c.last_empty_time == now && Consistent(c)
  {
    Capture(Ready, now, 0, [], [])
  }

  /** One call of test_capture, dispatched on the current state. */
  function Step(c: Capture, h: ImageHolder, norm: (Point, Point) -> real): (t: Tick)
    requires Consistent(c)
    ensures Consistent(t.next)
    // a frame is captured exactly when the machine enters Captured, and only from Stationary
    ensures t.captured <==> c.state != Captured && t.next.state == Captured
    ensures t.captured ==> c.state == Stationary
    // losing the board always returns to Ready and restarts the 500 ms wait
    ensures h.board_corners.None? ==>
              t.next == c.(state := Ready, last_empty_time := h.time_stamp) && !t.captured && t.feedback.None?
    // Ready leaves only for Tracking, after 500 ms of board, taking this frame as baseline
    ensures c.state == Ready && h.board_corners.Some? ==>
              && (t.next.state == Tracking <==> h.time_stamp - c.last_empty_time >= MinTimeBeforeLeaveReady)
              && (t.next.state != Tracking ==> t.next == c)
              && (t.next.state == Tracking ==> t.next == c.(state := Tracking, last_board_corners := h.board_corners.value))
    // Tracking and Stationary always move the baseline to this frame's corners
    ensures c.state in {Tracking, Stationary} && h.board_corners.Some? ==>
              t.next.last_board_corners == h.board_corners.value
    ensures c.state == Tracking && h.board_corners.Some? ==>
              && (t.next.state == Stationary <==> IsStationary(c.last_board_corners, h.board_corners.value, norm))
              && (t.next.state == Stationary ==> t.next.start_stationary_time == h.time_stamp)
              && (t.next.state != Stationary ==> t.next.state == Tracking)
    // Stationary falls back to Tracking on motion before looking at the clock
    ensures c.state == Stationary && h.board_corners.Some? ==>
              && (!IsStationary(c.last_board_corners, h.board_corners.value, norm) ==> t.next.state == Tracking)
              && (t.next.state == Captured <==>
                    IsStationary(c.last_board_corners, h.board_corners.value, norm) &&
                    h.time_stamp - c.start_stationary_time > MinTimeStationary)
              && (t.next.state == Captured ==> t.next.captured_board_corners == h.board_corners.value)
    // Captured stays put, unchanged, while the board is in view
    ensures c.state == Captured && h.board_corners.Some? ==> t.next == c
    // the per-state timers move only on the transitions that own them
    ensures h.board_corners.Some? ==> t.next.last_empty_time == c.last_empty_time
    ensures t.next.state == Stationary && c.state == Stationary ==> t.next.start_stationary_time == c.start_stationary_time
  {
    match h.board_corners
    case None =>
      // ready_state_.activate(time_stamp)
      Tick(c.(state := Ready, last_empty_time := h.time_stamp), false, None)
    case Some(corners) =>
      match c.state
      case Ready =>
        if h.time_stamp - c.last_empty_time < MinTimeBeforeLeaveReady then
          Tick(c, false, Some(Boundary(corners, 0.0)))
        else
          Tick(c.(state := Tracking, last_board_corners := corners), false, Some(Boundary(corners, 0.0)))
      case Tracking =>
        if IsStationary(c.last_board_corners, corners, norm) then
          Tick(c.(state := Stationary, start_stationary_time := h.time_stamp, last_board_corners := corners),
               false, Some(Boundary(corners, 0.0)))
        else
          Tick(c.(last_board_corners := corners), false, Some(Boundary(corners, 0.0)))
      case Stationary =>
        var elapsed := h.time_stamp - c.start_stationary_time;
        var feedback := Some(Boundary(corners, Seconds(elapsed) / MinTimeStationarySecs));
        if !IsStationary(c.last_board_corners, corners, norm) then
          Tick(c.(state := Tracking, last_board_corners := corners), false, feedback)
        else if elapsed > MinTimeStationary then
          Tick(c.(state := Captured, captured_board_corners := corners, last_board_corners := corners), true, feedback)
        else
          Tick(c.(last_board_corners := corners), false, feedback)
      case Captured =>
        Tick(c, false, Some(Boundary(c.captured_board_corners, 1.0)))
  }

  // ---------------------------------------------------------------------------
  // Runs of frames
  // ---------------------------------------------------------------------------

  datatype RunResult = RunResult(last: Capture, captured: seq<ImageHolder>)

  /** Feeding the frames one by one, in arrival order. */
  function Run(c: Capture, frames: seq<ImageHolder>, norm: (Point, Point) -> real): (r: RunResult)
    requires Consistent(c)
    ensures Consistent(r.last)
    decreases |frames|
  {
    if frames == [] then RunResult(c, [])
    else
      var t := Step(c, frames[0], norm);
      var rest := Run(t.next, frames[1..], norm);
      RunResult(rest.last, (if t.captured then [frames[0]] else []) + rest.captured)
  }

  predicate BoardAlwaysPresent(frames: seq<ImageHolder>) {
    forall k :: 0 <= k < |frames| ==> frames[k].board_corners.Some?
  }

  /** While the board stays in view the machine captures at most once, and not
      at all once it is already in Captured. */
  lemma {:induction false} AtMostOneCapturePerDwell(c: Capture, frames: seq<ImageHolder>, norm: (Point, Point) -> real)
    requires Consistent(c) && BoardAlwaysPresent(frames)
    ensures |Run(c, frames, norm).captured| <= 1
    ensures c.state == Captured ==> Run(c, frames, norm).captured == []
    decreases |frames|
  {
    if frames != [] {
      var t := Step(c, frames[0], norm);
      assert BoardAlwaysPresent(frames[1..]) by {
        forall k | 0 <= k < |frames[1..]| ensures frames[1..][k].board_corners.Some? {
          assert frames[1..][k] == frames[k + 1];
        }
      }
      AtMostOneCapturePerDwell(t.next, frames[1..], norm);
      if t.captured {
        assert t.next.state == Captured;
      }
    }
  }

  /** Stamps arrive in order, none before now. */
  predicate InOrderFrom(now: Time, frames: seq<ImageHolder>) {
    forall i :: 0 <= i < |frames| ==>
      (now <= frames[i].time_stamp && (i + 1 < |frames| ==> frames[i].time_stamp <= frames[i + 1].time_stamp))
  }

  /** The timing facts a machine that has seen frames up to now can rely on:
      Tracking began at least 500 ms after the last empty frame, and so did the
      stationary period. */
  predicate Dwelling(c: Capture, now: Time) {
    && (c.state == Tracking ==> now - c.last_empty_time >= MinTimeBeforeLeaveReady)
    && (c.state == Stationary ==>
          c.start_stationary_time - c.last_empty_time >= MinTimeBeforeLeaveReady && c.start_stationary_time <= now)
  }

  /** With the board continuously in view and stamps in order, every captured
      frame comes more than 0.5 s + 4 s after the last frame without a board. */
  lemma {:induction false} CaptureNeedsFullDwell(c: Capture, now: Time, frames: seq<ImageHolder>, norm: (Point, Point) -> real)
    requires Consistent(c) && Dwelling(c, now)
    requires BoardAlwaysPresent(frames) && InOrderFrom(now, frames)
    ensures forall f :: f in Run(c, frames, norm).captured ==>
              f.time_stamp - c.last_empty_time > MinTimeBeforeLeaveReady + MinTimeStationary
    decreases |frames|
  {
    if frames != [] {
      var h := frames[0];
      var t := Step(c, h, norm);
      assert h.board_corners.Some?;
      assert t.next.last_empty_time == c.last_empty_time;
      assert Dwelling(t.next, h.time_stamp);
      assert BoardAlwaysPresent(frames[1..]) by {
        forall k | 0 <= k < |frames[1..]| ensures frames[1..][k].board_corners.Some? {
          assert frames[1..][k] == frames[k + 1];
        }
      }
      assert InOrderFrom(h.time_stamp, frames[1..]) by {
        forall i | 0 <= i < |frames[1..]|
          ensures h.time_stamp <= frames[1..][i].time_stamp
        {
          InOrderMonotone(now, frames, 0, i + 1);
        }
      }
      CaptureNeedsFullDwell(t.next, h.time_stamp, frames[1..], norm);
    }
  }

  lemma {:induction false} InOrderMonotone(now: Time, frames: seq<ImageHolder>, i: nat, j: nat)
    requires InOrderFrom(now, frames) && i <= j < |frames|
    ensures frames[i].time_stamp <= frames[j].time_stamp
    decreases j - i
  {
    if i < j {
      InOrderMonotone(now, frames, i + 1, j);
    }
  }

  /** From construction at time t0, with the board in view on every frame, the
      first capture is more than 4.5 s after t0. */
  lemma FirstCaptureAfterStart(t0: Time, frames: seq<ImageHolder>, norm: (Point, Point) -> real)
    requires BoardAlwaysPresent(frames) && InOrderFrom(t0, frames)
    ensures forall f :: f in Run(Initial(t0), frames, norm).captured ==>
              f.time_stamp > t0 + MinTimeBeforeLeaveReady + MinTimeStationary
  {
    CaptureNeedsFullDwell(Initial(t0), t0, frames, norm);
  }

  /** The board is in view on every frame and does not move between
      consecutive frames, in test_stationary's sense. */
  predicate HeldStill(frames: seq<ImageHolder>, norm: (Point, Point) -> real) {
    && BoardAlwaysPresent(frames)
    && forall k :: 0 < k < |frames| ==>
         IsStationary(frames[k - 1].board_corners.value, frames[k].board_corners.value, norm)
  }

  lemma HeldStillTail(frames: seq<ImageHolder>, norm: (Point, Point) -> real)
    requires |frames| > 0 && HeldStill(frames, norm)
    ensures HeldStill(frames[1..], norm)
  {
    forall k | 0 < k < |frames[1..]|
      ensures IsStationary(frames[1..][k - 1].board_corners.value, frames[1..][k].board_corners.value, norm)
    {
      assert frames[1..][k - 1] == frames[k] && frames[1..][k] == frames[k + 1];
    }
  }

  /** Stationary, with a board that stays still from the baseline on: the
      frame that comes more than 4 s after the start of the stationary
      period is reached, and some frame is captured. */
  lemma {:induction false} StationaryIsCaptured(c: Capture, frames: seq<ImageHolder>, norm: (Point, Point) -> real,
                                                j: nat)
    requires Consistent(c) && c.state == Stationary
    requires HeldStill(frames, norm) && j < |frames|
    requires IsStationary(c.last_board_corners, frames[0].board_corners.value, norm)
    requires frames[j].time_stamp - c.start_stationary_time > MinTimeStationary
    ensures Run(c, frames, norm).captured != []
    decreases j
  {
    var t := Step(c, frames[0], norm);
    if !t.captured {
      assert t.next.state == Stationary && t.next.start_stationary_time == c.start_stationary_time;
      assert j > 0;
      HeldStillTail(frames, norm);
      assert frames[1..][0] == frames[1] && frames[1..][j - 1] == frames[j];
      StationaryIsCaptured(t.next, frames[1..], norm, j - 1);
    }
  }

  /** Tracking, with a board that stays still from the baseline on through a
      frame more than 4 s after the first: some frame is captured. */
  lemma {:induction false} TrackingIsCaptured(c: Capture, frames: seq<ImageHolder>, norm: (Point, Point) -> real,
                                              j: nat)
    requires Consistent(c) && c.state == Tracking
    requires HeldStill(frames, norm) && j < |frames|
    requires IsStationary(c.last_board_corners, frames[0].board_corners.value, norm)
    requires frames[j].time_stamp - frames[0].time_stamp > MinTimeStationary
    ensures Run(c, frames, norm).captured != []
  {
    var t := Step(c, frames[0], norm);
    assert t.next.state == Stationary && t.next.start_stationary_time == frames[0].time_stamp;
    HeldStillTail(frames, norm);
    assert frames[1..][0] == frames[1] && frames[1..][j - 1] == frames[j];
    StationaryIsCaptured(t.next, frames[1..], norm, j - 1);
  }

  /** Ready, with stamps in order and the board held still: once frame i is
      500 ms past the last empty frame and frame j more than 4 s past frame
      i + 1, some frame is captured. */
  lemma {:induction false} ReadyIsCaptured(c: Capture, now: Time, frames: seq<ImageHolder>,
                                           norm: (Point, Point) -> real, i: nat, j: nat)
    requires Consistent(c) && c.state == Ready
    requires HeldStill(frames, norm) && InOrderFrom(now, frames)
    requires i + 1 < j < |frames|
    requires frames[i].time_stamp - c.last_empty_time >= MinTimeBeforeLeaveReady
    requires frames[j].time_stamp - frames[i + 1].time_stamp > MinTimeStationary
    ensures Run(c, frames, norm).captured != []
    decreases i
  {
    var t := Step(c, frames[0], norm);
    HeldStillTail(frames, norm);
    assert frames[1..][0] == frames[1] && frames[1..][j - 1] == frames[j];
    if t.next.state == Tracking {
      InOrderMonotone(now, frames, 1, i + 1);
      TrackingIsCaptured(t.next, frames[1..], norm, j - 1);
    } else {
      assert t.next == c && i > 0;
      assert InOrderFrom(frames[0].time_stamp, frames[1..]) by {
        forall k | 0 <= k < |frames[1..]|
          ensures frames[0].time_stamp <= frames[1..][k].time_stamp
        {
          InOrderMonotone(now, frames, 0, k + 1);
        }
      }
      assert frames[1..][i - 1] == frames[i] && frames[1..][i] == frames[i + 1];
      ReadyIsCaptured(c, frames[0].time_stamp, frames[1..], norm, i - 1, j - 1);
    }
  }

  /** From construction at t0, a board brought into view and held still is
      captured exactly once: frame i is 500 ms after t0, and frame j more than
      4 s after frame i + 1. */
  lemma HeldStillIsCapturedOnce(t0: Time, frames: seq<ImageHolder>, norm: (Point, Point) -> real, i: nat, j: nat)
    requires HeldStill(frames, norm) && InOrderFrom(t0, frames)
    requires i + 1 < j < |frames|
    requires frames[i].time_stamp - t0 >= MinTimeBeforeLeaveReady
    requires frames[j].time_stamp - frames[i + 1].time_stamp > MinTimeStationary
    ensures |Run(Initial(t0), frames, norm).captured| == 1
  {
    ReadyIsCaptured(Initial(t0), t0, frames, norm, i, j);
    AtMostOneCapturePerDwell(Initial(t0), frames, norm);
  }

  // ---------------------------------------------------------------------------
  // The machine as the source runs it: one object whose state pointer and
  // per-state fields are updated in place
  // ---------------------------------------------------------------------------

  /** CalibrateCaptureStationaryImpl */
  class CaptureMachine {
    const captured_images: CapturedImages
    const stationary_board: StationaryBoard
    const norm: (Point, Point) -> real
    var state: CaptureState
    var last_empty_time: Time
    var start_stationary_time: Time
    var captured_board_corners: seq<Point>

    function Snapshot(): Capture
      reads this, stationary_board
    {
      Capture(state, last_empty_time, start_stationary_time, captured_board_corners,
              stationary_board.last_board_corners)
    }

    ghost predicate Valid()
      reads this, stationary_board
    {
      Consistent(Snapshot())
    }

    /** The constructor activates Ready at the construction time. */
    constructor (now: Time, captured_images: CapturedImages, norm: (Point, Point) -> real)
      ensures Valid() && Snapshot() == Initial(now)
      ensures this.captured_images == captured_images && this.norm == norm
      ensures fresh(stationary_board)
    {
      this.captured_images := captured_images;
      this.norm := norm;
      stationary_board := new StationaryBoard();
      captured_board_corners := [];
      start_stationary_time := 0;
      new;
      ActivateReady(now);
    }

    /** ReadyState::activate */
    method ActivateReady(now: Time)
      modifies this
      ensures Snapshot() == old(Snapshot()).(state := Ready, last_empty_time := now)
    {
      state := Ready;
      last_empty_time := now;
    }

    /** TrackingState::activate: restart the baseline from this frame. */
    method ActivateTracking(h: ImageHolder)
      requires h.board_corners.Some?
      modifies this, stationary_board
      ensures Snapshot() == old(Snapshot()).(state := Tracking, last_board_corners := h.board_corners.value)
    {
      state := Tracking;
      stationary_board.Reset(h);
    }

    /** StationaryState::activate */
    method ActivateStationary(h: ImageHolder)
      modifies this
      ensures Snapshot() == old(Snapshot()).(state := Stationary, start_stationary_time := h.time_stamp)
    {
      state := Stationary;
      start_stationary_time := h.time_stamp;
    }

    /** CapturedState::activate: capture the frame and remember its outline. */
    method ActivateCaptured(h: ImageHolder)
      requires h.board_corners.Some?
      modifies this, captured_images
      ensures Snapshot() == old(Snapshot()).(state := Captured, captured_board_corners := h.board_corners.value)
      ensures captured_images.images == old(captured_images.images) + [h]
    {
      state := Captured;
      captured_images.Capture(h);
      captured_board_corners := h.board_corners.value;
    }

    /** test_capture: the current state's test_capture on this frame.  Returns
        the outline drawn on the feedback image. */
    method TestCapture(h: ImageHolder) returns (feedback: Option<Boundary>)
      requires Valid()
      modifies this, stationary_board, captured_images
      ensures Valid()
      ensures var t := Step(old(Snapshot()), h, norm);
        && Snapshot() == t.next
        && feedback == t.feedback
        && captured_images.images == old(captured_images.images) + (if t.captured then [h] else [])
    {
      if h.board_corners.None? {
        ActivateReady(h.time_stamp);
        return None;
      }
      var corners := h.board_corners.value;
      match state
      case Ready =>
        feedback := Some(Boundary(corners, 0.0));
        if h.time_stamp - last_empty_time >= MinTimeBeforeLeaveReady {
          ActivateTracking(h);
        }
      case Tracking =>
        feedback := Some(Boundary(corners, 0.0));
        var stationary := stationary_board.TestStationary(h, norm);
        if stationary {
          ActivateStationary(h);
        }
      case Stationary =>
        feedback := Some(Boundary(corners, Seconds(h.time_stamp - start_stationary_time) / MinTimeStationarySecs));
        var stationary := stationary_board.TestStationary(h, norm);
        if !stationary {
          ActivateTracking(h);
        } else if h.time_stamp - start_stationary_time > MinTimeStationary {
          ActivateCaptured(h);
        }
      case Captured =>
        feedback := Some(Boundary(captured_board_corners, 1.0));
    }
  }
}
