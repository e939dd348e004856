/** The calibration front end (calibrate.cpp:147-309, 728-1120): the per-frame
    processor that gates frames by size and captures them, the task that
    queues the calibration sweep once and collects its result, and the
    command dispatcher that owns both. */
module CalibrateCamera {
  import opened Wrappers
  import opened Vision
  import opened Frames
  import opened CaptureStationary
  import opened CalibrationStyles
  import opened CalibrationSweep
  import opened FiducialObservations

  /** time_display_captured_image_marked: 1500 ms, in nanoseconds. */
  const TimeDisplayCapturedImageMarked: int := 1_500_000_000

  /** Bad-junction threshold of calc_junction_errors, in pixels. */
  const BadReprojectionError: real := 1.0

  /** The parts of CalibrateContext the core reads, plus the board layout and
      the foreign routines.  `report` stands for create_calibration_report,
      whose text is number formatting. */
  datatype CalibrateContext = CalibrateContext(
    calibration_style_to_save: int,
    camera_name: string,
    save_camera_info_path: string,
    layout: BoardLayout,
    vision: Vision,
    report: (CalibrateCameraResult, CalibrationResult) -> string)

  // ---------------------------------------------------------------------------
  // "%d"
  // ---------------------------------------------------------------------------

  predicate IsDigits(s: string) {
    forall i :: 0 <= i < |s| ==> '0' <= s[i] <= '9'
  }

  function DigitChar(d: nat): char
    requires d < 10
  {
    "0123456789"[d]
  }

  /** The decimal digits of n, most significant first. */
  function DigitsOf(n: nat): (s: string)
    ensures |s| >= 1 && IsDigits(s)
  {
    if n < 10 then [DigitChar(n)] else DigitsOf(n / 10) + [DigitChar(n % 10)]
  }

  /** The value a digit string denotes. */
  function ValueOf(s: string): nat
    requires IsDigits(s)
  {
    if s == [] then 0 else ValueOf(s[..|s| - 1]) * 10 + (s[|s| - 1] as int - '0' as int)
  }

  /** Printing a count with %d loses nothing: reading the digits back gives the count. */
  lemma {:induction false} DigitsRoundTrip(n: nat)
    ensures ValueOf(DigitsOf(n)) == n
  {
    if n >= 10 {
      DigitsRoundTrip(n / 10);
      var s := DigitsOf(n);
      assert s[..|s| - 1] == DigitsOf(n / 10);
    }
  }

  /** printf's %d of an int: a minus sign exactly for a negative value, then
      digits that read back as the value's magnitude. */
  function Decimal(i: int): (s: string)
    ensures |s| >= 1 && (s[0] == '-' <==> i < 0)
    ensures i < 0 ==> IsDigits(s[1..]) && |s| >= 2 && ValueOf(s[1..]) == -i
    ensures i >= 0 ==> IsDigits(s) && ValueOf(s) == i
  {
    if i < 0 then
      DigitsRoundTrip(-i);
      assert ("-" + DigitsOf(-i))[1..] == DigitsOf(-i);
      "-" + DigitsOf(-i)
    else
      DigitsRoundTrip(i);
      DigitsOf(i)
  }

  // ---------------------------------------------------------------------------
  // CalibrateCameraProcessImageImpl
  // ---------------------------------------------------------------------------

  /** One image named in the images file: its pixels and its stamp. */
  datatype StoredFrame = StoredFrame(gray: Image, time_stamp: Time)

  /** The content of the images file load_images reads. */
  datatype StoredImages = StoredImages(width: int, height: int, frames: seq<StoredFrame>)

  /** The frames load_images captures, in file order. */
  function LoadedFrames(stored: seq<StoredFrame>, layout: BoardLayout, vision: Vision): (r: seq<ImageHolder>)
    ensures |r| == |stored|
    ensures forall k :: 0 <= k < |stored| ==>
              r[k] == MakeImageHolder(stored[k].gray, stored[k].time_stamp, layout, vision)
  {
    seq(|stored|, k requires 0 <= k < |stored| =>
      MakeImageHolder(stored[k].gray, stored[k].time_stamp, layout, vision))
  }

  class ProcessImage {
    const cxt: CalibrateContext
    const captured_images: CapturedImages
    const test_capture: CaptureMachine
    var capture_next_image: bool

    ghost predicate Valid()
      reads this, test_capture, test_capture.stationary_board
    {
      && test_capture.Valid()
      && test_capture.captured_images == captured_images
      && test_capture.norm == cxt.vision.norm
    }

    /** The processor for frames of one size; its capture machine starts at time_stamp. */
    constructor (cxt: CalibrateContext, time_stamp: Time, image_size: Size)
      ensures Valid() && this.cxt == cxt && !capture_next_image
      ensures captured_images.image_size == image_size && captured_images.images == []
      ensures test_capture.Snapshot() == Initial(time_stamp)
      ensures fresh(captured_images) && fresh(test_capture) && fresh(test_capture.stationary_board)
    {
      this.cxt := cxt;
      var store := new CapturedImages(image_size);
      captured_images := store;
      test_capture := new CaptureMachine(time_stamp, store, cxt.vision.norm);
      capture_next_image := false;
    }

    /** load_images: a processor whose store holds the file's frames, in order. */
    constructor Load(cxt: CalibrateContext, now: Time, stored: StoredImages)
      ensures Valid() && this.cxt == cxt && !capture_next_image
      ensures captured_images.image_size == Size(stored.width, stored.height)
      ensures captured_images.images == LoadedFrames(stored.frames, cxt.layout, cxt.vision)
      ensures test_capture.Snapshot() == Initial(now)
      ensures fresh(captured_images) && fresh(test_capture) && fresh(test_capture.stationary_board)
    {
      this.cxt := cxt;
      var store := new CapturedImages(Size(stored.width, stored.height));
      captured_images := store;
      test_capture := new CaptureMachine(now, store, cxt.vision.norm);
      capture_next_image := false;
      new;
      var i := 0;
      while i < |stored.frames|
        invariant 0 <= i <= |stored.frames|
        invariant store.images == LoadedFrames(stored.frames[..i], cxt.layout, cxt.vision)
        invariant test_capture.Snapshot() == Initial(now) && Valid() && !capture_next_image
      {
        var f := stored.frames[i];
        var h := MakeImageHolder(f.gray, f.time_stamp, cxt.layout, cxt.vision);
        store.Capture(h);
        i := i + 1;
      }
      assert stored.frames[..i] == stored.frames;
    }

    /** process_image: frames of another size are ignored; otherwise a pending
        manual capture takes the frame first, then the capture machine sees it.
        No observations are produced while calibrating. */
    method ProcessImage(gray: Image, time_stamp: Time) returns (observations: seq<Observation>)
      requires Valid()
      modifies this, captured_images, test_capture, test_capture.stationary_board
      ensures Valid() && observations == []
      ensures gray.cols != captured_images.image_size.width || gray.rows != captured_images.image_size.height ==>
                && capture_next_image == old(capture_next_image)
                && captured_images.images == old(captured_images.images)
                && test_capture.Snapshot() == old(test_capture.Snapshot())
      ensures gray.cols == captured_images.image_size.width && gray.rows == captured_images.image_size.height ==>
                var h := MakeImageHolder(gray, time_stamp, cxt.layout, cxt.vision);
                var t := Step(old(test_capture.Snapshot()), h, cxt.vision.norm);
                && !capture_next_image
                && test_capture.Snapshot() == t.next
                && captured_images.images == old(captured_images.images)
                     + (if old(capture_next_image) then [h] else [])
                     + (if t.captured then [h] else [])
    {
      if gray.cols != captured_images.image_size.width || gray.rows != captured_images.image_size.height {
        return [];
      }
      var image_holder := MakeImageHolder(gray, time_stamp, cxt.layout, cxt.vision);
      if capture_next_image {
        captured_images.Capture(image_holder);
        capture_next_image := false;
      }
      var feedback := test_capture.TestCapture(image_holder);
      observations := [];
    }

    /** prep_image_capture: the next frame of the right size will be captured. */
    method PrepImageCapture() returns (s: string)
      modifies this
      ensures capture_next_image && s == "An image will be captured."
    {
      capture_next_image := true;
      s := "An image will be captured.";
    }

    /** status */
    function Status(): (s: string)
      reads captured_images
    {
      "# captured images:" + Decimal(|captured_images.images|) +
      ", w:" + Decimal(captured_images.image_size.width) +
      ", h:" + Decimal(captured_images.image_size.height)
    }
  }

  // ---------------------------------------------------------------------------
  // CalibrateCameraTask
  // ---------------------------------------------------------------------------

  /** std::future<CalibrateCameraResult>: not valid, waiting, or holding the result. */
  datatype Future = NoFuture | Pending | Done(value: CalibrateCameraResult)

  /** std::max(0, std::min(number_of_styles - 1, style_to_save)) */
  function SavedStyle(style_to_save: int): (i: int)
    ensures 0 <= i < NumberOfStyles
    ensures IsStyle(style_to_save) ==> i == style_to_save
    ensures style_to_save < 0 ==> i == 0
    ensures style_to_save >= NumberOfStyles ==> i == NumberOfStyles - 1
  {
    if style_to_save < 0 then 0
    else if style_to_save > NumberOfStyles - 1 then NumberOfStyles - 1
    else style_to_save
  }

  /** What calc_junction_errors reads for image i: the image's junction
      lists and index map, and the pose and camera model of one calibration. */
  datatype ImageFit = ImageFit(
    index_map: map<int, nat>,
    f_board: seq<Point3>,
    f_image: seq<Point>,
    pose: Pose,
    camera_matrix: Matx33,
    dist_coeffs: DistCoeffs)
  {
    /** The map indexes both junction lists. */
    predicate Indexed() {
      |f_image| == |f_board| && forall id :: id in index_map ==> index_map[id] < |f_board|
    }
  }

  function FitOf(res: CalibrateCameraResult, cal: CalibrationResult, i: nat): (fit: ImageFit)
    requires WellFormed(res) && i < |res.junctions_f_board| && i < |cal.poses|
    ensures fit.Indexed()
  {
    ImageFit(res.junction_id_index_maps[i], res.junctions_f_board[i], res.junctions_f_image[i],
             cal.poses[i], cal.camera_matrix, cal.dist_coeffs)
  }

  /** One reprojection cell of calc_junction_errors: None for a junction that
      was not found in the image, else the distance between its reprojection
      and its measured image point. */
  function JunctionError(fit: ImageFit, id: int, vision: Vision): Option<real>
    requires fit.Indexed()
  {
    if id in fit.index_map then
      var index := fit.index_map[id];
      var reprojected := vision.project_point(fit.f_board[index], fit.pose, fit.camera_matrix, fit.dist_coeffs);
      Some(vision.norm(reprojected, fit.f_image[index]))
    else None
  }

  /** Junction ids below n that were found. */
  function CountFound(m: map<int, nat>, n: nat): (c: nat)
    ensures c <= n
  {
    if n == 0 then 0 else CountFound(m, n - 1) + (if n - 1 in m then 1 else 0)
  }

  /** Junction ids below n whose reprojection error exceeds one pixel. */
  function CountBad(fit: ImageFit, n: nat, vision: Vision): (c: nat)
    requires fit.Indexed()
    ensures c <= CountFound(fit.index_map, n)
  {
    if n == 0 then 0
    else
      var e := JunctionError(fit, n - 1, vision);
      CountBad(fit, n - 1, vision) + (if e.Some? && e.value > BadReprojectionError then 1 else 0)
  }

  function Square(r: real): real {
    r * r
  }

  /** The sum of the squared errors of the junctions below n that were found. */
  function SumSquares(fit: ImageFit, n: nat, vision: Vision): real
    requires fit.Indexed()
  {
    if n == 0 then 0.0
    else
      var e := JunctionError(fit, n - 1, vision);
      SumSquares(fit, n - 1, vision) + (if e.Some? then Square(e.value) else 0.0)
  }

  /** Junction id is the last of its row on a board with width junctions per row. */
  predicate EndsRow(id: nat, width: nat)
    requires width > 0
  {
    id % width == width - 1
  }

  function KeysBelow(m: map<int, nat>, n: nat): set<int> {
    set id | id in m && 0 <= id < n
  }

  lemma {:induction false} CountFoundIsKeysBelow(m: map<int, nat>, n: nat)
    ensures CountFound(m, n) == |KeysBelow(m, n)|
  {
    if n == 0 {
      assert KeysBelow(m, 0) == {};
    } else {
      CountFoundIsKeysBelow(m, n - 1);
      if n - 1 in m {
        assert KeysBelow(m, n) == KeysBelow(m, n - 1) + {n - 1};
      } else {
        assert KeysBelow(m, n) == KeysBelow(m, n - 1);
      }
    }
  }

  /** When every key is a junction id below n, the junction count of the grid
      is the number of junctions found in the image: each is reported once. */
  lemma JunctionCountIsFoundJunctions(m: map<int, nat>, n: nat)
    requires forall id :: id in m ==> 0 <= id < n
    ensures CountFound(m, n) == |m|
  {
    CountFoundIsKeysBelow(m, n);
    assert KeysBelow(m, n) == m.Keys;
  }

  /** calc_junction_errors without its text: one cell per junction id, the row
      breaks of the board grid, and the counts and sum behind the summary lines. */
  datatype JunctionErrors = JunctionErrors(
    cells: seq<Option<real>>,
    row_ends: seq<bool>,
    junction_count: nat,
    bad_reprojection_count: nat,
    total_error_squared: real)

  class CalibrateCameraTask {
    const cxt: CalibrateContext
    const captured_images: seq<ImageHolder>
    const work: CalibrateCameraWork
    var future: Future
    var result: CalibrateCameraResult
    /** How many times the sweep was pushed to the task thread. */
    ghost var queued: nat

    ghost predicate Valid()
      reads this
    {
      && work.captured_images == captured_images && work.layout == cxt.layout && work.vision == cxt.vision
      && queued <= 1
      && (queued == 0 <==> future.NoFuture? && !result.valid)
      && (result.valid ==> future.NoFuture? && work.Solved(result))
      && (future.Done? ==> work.Solved(future.value))
    }

    constructor (cxt: CalibrateContext, captured_images: seq<ImageHolder>)
      ensures Valid() && this.cxt == cxt && this.captured_images == captured_images
      ensures future == NoFuture && result == EmptyResult && queued == 0
    {
      this.cxt := cxt;
      this.captured_images := captured_images;
      work := new CalibrateCameraWork(cxt.layout, captured_images, cxt.vision);
      future := NoFuture;
      result := EmptyResult;
      queued := 0;
    }

    /** The task thread running the queued sweep to completion. */
    method RunQueuedWork()
      requires Valid() && future.Pending? && |captured_images| >= 5
      modifies this
      ensures Valid() && future.Done? && result == old(result) && queued == old(queued)
      ensures work.Solved(future.value)
    {
      var r := work.SolveCalibration();
      future := Done(r);
    }

    /** The message save_calibration returns once the camera info is written. */
    function SaveMessage(): string {
      "Calibration for camera '" + cxt.camera_name + "' saved to file: " + cxt.save_camera_info_path + "\n"
    }

    /** check_completion: nothing once done or while waiting; collect a ready
        result, stamp it, save the chosen style and report; otherwise queue the
        sweep. */
    method CheckCompletion(now: Time) returns (msg: string)
      requires Valid()
      modifies this
      ensures Valid()
      ensures old(result.valid) || old(future).Pending? ==>
                msg == "" && future == old(future) && result == old(result) && queued == old(queued)
      ensures !old(result.valid) && old(future).Done? ==>
                && result == old(future).value.(calibration_time := now)
                && future == NoFuture && queued == old(queued)
                && msg == SaveMessage() + cxt.report(result, result.calibration_results[SavedStyle(cxt.calibration_style_to_save)])
                && work.Solved(result)
                && result.calibration_results[SavedStyle(cxt.calibration_style_to_save)]
                   == CalibrationOf(SavedStyle(cxt.calibration_style_to_save), [], old(future).value,
                                    work.ImageSize(), cxt.vision)
      ensures !old(result.valid) && old(future).NoFuture? ==>
                && msg == "Calibrate camera task queued."
                && future == Pending && result == old(result) && queued == old(queued) + 1
    {
      if result.valid {
        return "";
      }
      match future
      case Pending =>
        msg := "";
      case Done(r) =>
        work.SolvedIgnoresTime(r, now);
        result := r.(calibration_time := now);
        future := NoFuture;
        var cal := result.calibration_results[SavedStyle(cxt.calibration_style_to_save)];
        msg := SaveMessage() + cxt.report(result, cal);
      case NoFuture =>
        future := Pending;
        queued := queued + 1;
        msg := "Calibrate camera task queued.";
    }

    /** A collected result holds one marked image per captured frame, so at least five. */
    lemma ResultHasMarkedImages()
      requires Valid() && result.valid
      ensures |result.captured_images_marked| == |captured_images| >= 5
    {
    }

    /** calibration_complete */
    function CalibrationComplete(): bool
      reads this
    {
      result.valid
    }

    /** The word status reports: done once the result is in, working while the
        sweep is queued, pending before that. */
    function StatusWord(): (w: string)
      requires Valid()
      reads this
      ensures w == "done" <==> result.valid
      ensures w == "pending" <==> queued == 0
    {
      var w := if result.valid then "done" else if !future.NoFuture? then "working" else "pending";
      assert "working"[0] != "pending"[0];
      w
    }

    /** status */
    function Status(): string
      requires Valid()
      reads this
    {
      "CalibrateCameraTask status: " + StatusWord()
    }

    /** calc_junction_errors for image i of res under calibration cal. */
    method CalcJunctionErrors(res: CalibrateCameraResult, cal: CalibrationResult, i: nat) returns (e: JunctionErrors)
      requires WellFormed(res) && i < |res.junctions_f_board| && i < |cal.poses|
      requires cxt.layout.squares_x_m_1 > 0
      ensures var fit := FitOf(res, cal, i);
        && |e.cells| == |e.row_ends| == cxt.layout.max_junction_id
        && (forall id :: 0 <= id < |e.cells| ==> e.cells[id] == JunctionError(fit, id, cxt.vision))
        && (forall id :: 0 <= id < |e.row_ends| ==>
              (e.row_ends[id] <==> EndsRow(id, cxt.layout.squares_x_m_1)))
        && e.junction_count == CountFound(fit.index_map, cxt.layout.max_junction_id)
        && e.bad_reprojection_count == CountBad(fit, cxt.layout.max_junction_id, cxt.vision)
        && e.total_error_squared == SumSquares(fit, cxt.layout.max_junction_id, cxt.vision)
        && e.bad_reprojection_count <= e.junction_count <= cxt.layout.max_junction_id
    {
      var fit := FitOf(res, cal, i);
      e := JunctionGrid(fit, cxt.vision, cxt.layout.squares_x_m_1, cxt.layout.max_junction_id);
    }
  }

  /** The loop of calc_junction_errors over junction ids 0 .. max_junction_id - 1. */
  method JunctionGrid(fit: ImageFit, vision: Vision, width: nat, max_junction_id: nat) returns (e: JunctionErrors)
    requires fit.Indexed() && width > 0
    ensures |e.cells| == |e.row_ends| == max_junction_id
    ensures forall id :: 0 <= id < |e.cells| ==> e.cells[id] == JunctionError(fit, id, vision)
    ensures forall id :: 0 <= id < |e.row_ends| ==> (e.row_ends[id] <==> EndsRow(id, width))
    ensures e.junction_count == CountFound(fit.index_map, max_junction_id)
    ensures e.bad_reprojection_count == CountBad(fit, max_junction_id, vision)
    ensures e.total_error_squared == SumSquares(fit, max_junction_id, vision)
    ensures e.bad_reprojection_count <= e.junction_count <= max_junction_id
  {
    var m := fit.index_map;
    var cells: seq<Option<real>> := [];
    var row_ends: seq<bool> := [];
    var junction_count: nat := 0;
    var bad_reprojection_count: nat := 0;
    var total_error_squared := 0.0;
    var junction_id: nat := 0;
    while junction_id < max_junction_id
      invariant junction_id <= max_junction_id
      invariant |cells| == |row_ends| == junction_id
      invariant forall id :: 0 <= id < junction_id ==> cells[id] == JunctionError(fit, id, vision)
      invariant forall id :: 0 <= id < junction_id ==> (row_ends[id] <==> EndsRow(id, width))
      invariant junction_count == CountFound(m, junction_id)
      invariant bad_reprojection_count == CountBad(fit, junction_id, vision)
      invariant total_error_squared == SumSquares(fit, junction_id, vision)
    {
      if junction_id !in m {
        assert JunctionError(fit, junction_id, vision) == None;
        cells := cells + [None];
      } else {
        var index := m[junction_id];
        var reprojected := vision.project_point(fit.f_board[index], fit.pose, fit.camera_matrix, fit.dist_coeffs);
        var error := vision.norm(reprojected, fit.f_image[index]);
        assert JunctionError(fit, junction_id, vision) == Some(error);
        total_error_squared := total_error_squared + Square(error);
        junction_count := junction_count + 1;
        cells := cells + [Some(error)];
        if error > BadReprojectionError {
          bad_reprojection_count := bad_reprojection_count + 1;
        }
      }
      row_ends := row_ends + [EndsRow(junction_id, width)];
      junction_id := junction_id + 1;
    }
    e := JunctionErrors(cells, row_ends, junction_count, bad_reprojection_count, total_error_squared);
  }

  // ---------------------------------------------------------------------------
  // CalibrateCameraImpl
  // ---------------------------------------------------------------------------

  const CaptureCmd: string := "capture"
  const SaveImagesCmd: string := "save_images"
  const StatusCmd: string := "status"
  const LoadImagesCmd: string := "load_images"
  const CalibrateCmd: string := "calibrate"
  const ResetCmd: string := "reset"

  class CalibrateCameraImpl {
    const cxt: CalibrateContext
    var pi: ProcessImage?
    var cct: CalibrateCameraTask?
    var marked_index: nat
    var last_time_display_marked: Time

    /** The objects the implementation owns. */
    ghost function Repr(): set<object>
      reads this
    {
      (if pi != null then {pi, pi.captured_images, pi.test_capture, pi.test_capture.stationary_board} else {})
      + (if cct != null then {cct} else {})
    }

    ghost predicate Valid()
      reads this, Repr()
    {
      && (pi != null ==> pi.Valid() && pi.cxt == cxt)
      && (cct != null ==> cct.Valid() && cct.cxt == cxt)
    }

    constructor (cxt: CalibrateContext)
      ensures Valid() && this.cxt == cxt && pi == null && cct == null
      ensures marked_index == 0 && last_time_display_marked == 0
    {
      this.cxt := cxt;
      pi := null;
      cct := null;
      marked_index := 0;
      last_time_display_marked := 0;
    }

    /** process_image: the first frame fixes the image size of the processor. */
    method ProcessImage(gray: Image, time_stamp: Time) returns (observations: seq<Observation>)
      requires Valid()
      modifies this, Repr()
      ensures Valid() && observations == [] && pi != null && cct == old(cct)
      ensures marked_index == old(marked_index) && last_time_display_marked == old(last_time_display_marked)
      ensures cct != null ==> unchanged(cct)
      ensures old(pi) != null ==> pi == old(pi)
      ensures old(pi) == null ==> fresh(pi) && pi.captured_images.image_size == Size(gray.cols, gray.rows)
      // The processor's own effects, from the state it had (a new processor
      // starts with an empty store and its machine at Initial(time_stamp)).
      ensures var s0 := old(if pi != null then pi.test_capture.Snapshot() else Initial(time_stamp));
              var i0 := old(if pi != null then pi.captured_images.images else []);
              var armed := old(pi != null && pi.capture_next_image);
              var fits := gray.cols == pi.captured_images.image_size.width
                          && gray.rows == pi.captured_images.image_size.height;
              && (!fits ==> pi.capture_next_image == armed && pi.captured_images.images == i0
                            && pi.test_capture.Snapshot() == s0)
              && (fits ==> var h := MakeImageHolder(gray, time_stamp, cxt.layout, cxt.vision);
                           var t := Step(s0, h, cxt.vision.norm);
                           && !pi.capture_next_image
                           && pi.test_capture.Snapshot() == t.next
                           && pi.captured_images.images == i0 + (if armed then [h] else [])
                                                           + (if t.captured then [h] else []))
    {
      if pi == null {
        pi := new ProcessImage(cxt, time_stamp, Size(gray.cols, gray.rows));
      }
      observations := pi.ProcessImage(gray, time_stamp);
    }

    /** The reply to "status": the processor's line, then the task's, joined by
        a newline when both exist. */
    function StatusReply(): string
      requires Valid()
      reads this, Repr()
    {
      (if pi != null then pi.Status() + (if cct != null then "\n" else "") else "")
      + (if cct != null then cct.Status() else "")
    }

    /** cal_cmd */
    method CalCmd(cmd: string, now: Time, stored: StoredImages) returns (ret: string)
      requires Valid()
      modifies this, Repr()
      ensures Valid()
      ensures cmd == CaptureCmd ==>
                && unchanged(this)
                && (old(pi) != null ==> ret == "An image will be captured." && pi.capture_next_image
                                        && unchanged(pi.captured_images, pi.test_capture,
                                                     pi.test_capture.stationary_board))
                && (old(pi) == null ==> ret == "")
                && (cct != null ==> unchanged(cct))
      ensures cmd == SaveImagesCmd ==>
                && ret == "" && unchanged(this)
                && (pi != null ==> unchanged(pi, pi.captured_images, pi.test_capture, pi.test_capture.stationary_board))
                && (cct != null ==> unchanged(cct))
      ensures cmd == StatusCmd ==>
                && ret == old(StatusReply()) && unchanged(this)
                && (pi != null ==> unchanged(pi, pi.captured_images, pi.test_capture, pi.test_capture.stationary_board))
                && (cct != null ==> unchanged(cct))
      ensures cmd == LoadImagesCmd ==>
                && cct == null && pi != null && fresh(pi)
                && marked_index == old(marked_index) && last_time_display_marked == old(last_time_display_marked)
                && pi.captured_images.image_size == Size(stored.width, stored.height)
                && pi.captured_images.images == LoadedFrames(stored.frames, cxt.layout, cxt.vision)
                && ret == pi.Status()
      ensures cmd == CalibrateCmd ==>
                && pi == old(pi)
                && marked_index == old(marked_index) && last_time_display_marked == old(last_time_display_marked)
                && (pi != null ==> unchanged(pi, pi.captured_images, pi.test_capture,
                                             pi.test_capture.stationary_board))
                && (old(pi) != null && |old(pi.captured_images.images)| > 0 ==>
                      && ret == "Calibration queued."
                      && cct != null && fresh(cct) && cct.future == NoFuture && cct.result == EmptyResult
                      && cct.captured_images == pi.captured_images.images)
                && (old(pi) == null || |old(pi.captured_images.images)| == 0 ==>
                      ret == "Cannot calibrate with zero images." && cct == null)
      ensures cmd == ResetCmd ==>
                && ret == "" && pi == null && cct == null
                && marked_index == old(marked_index) && last_time_display_marked == old(last_time_display_marked)
      ensures cmd !in {CaptureCmd, SaveImagesCmd, StatusCmd, LoadImagesCmd, CalibrateCmd, ResetCmd} ==>
                && ret == "" && unchanged(this)
                && (pi != null ==> unchanged(pi, pi.captured_images, pi.test_capture, pi.test_capture.stationary_board))
                && (cct != null ==> unchanged(cct))
    {
      ret := "";
      if cmd == CaptureCmd {
        ret := PrepCapture();
      } else if cmd == SaveImagesCmd {
        // The images and their index file are written; the reply is empty.
      } else if cmd == StatusCmd {
        ret := StatusReply();
      } else if cmd == LoadImagesCmd {
        ret := LoadImages(now, stored);
      } else if cmd == CalibrateCmd {
        ret := QueueCalibration();
      } else if cmd == ResetCmd {
        pi := null;
        cct := null;
      }
    }

    /** The "capture" branch of cal_cmd: arm the processor, if there is one;
        nothing else changes. */
    method PrepCapture() returns (ret: string)
      requires Valid()
      modifies if pi != null then {pi} else {}
      ensures Valid()
      ensures pi != null ==> ret == "An image will be captured." && pi.capture_next_image
      ensures pi == null ==> ret == ""
    {
      ret := "";
      if pi != null {
        ret := pi.PrepImageCapture();
      }
    }

    /** The "load_images" branch of cal_cmd: drop both objects and start over
        from the stored frames. */
    method LoadImages(now: Time, stored: StoredImages) returns (ret: string)
      requires Valid()
      modifies this
      ensures Valid()
      ensures cct == null && pi != null && fresh(pi)
      ensures marked_index == old(marked_index) && last_time_display_marked == old(last_time_display_marked)
      ensures pi.captured_images.image_size == Size(stored.width, stored.height)
      ensures pi.captured_images.images == LoadedFrames(stored.frames, cxt.layout, cxt.vision)
      ensures ret == pi.Status()
    {
      pi := null;
      cct := null;
      pi := new ProcessImage.Load(cxt, now, stored);
      ret := pi.Status();
    }

    /** The "calibrate" branch of cal_cmd: drop the old task and queue a new
        one over the captured frames, if there are any. */
    method QueueCalibration() returns (ret: string)
      requires Valid()
      modifies this
      ensures Valid() && pi == old(pi)
      ensures marked_index == old(marked_index) && last_time_display_marked == old(last_time_display_marked)
      ensures pi != null && |pi.captured_images.images| > 0 ==>
                && ret == "Calibration queued."
                && cct != null && fresh(cct) && cct.future == NoFuture && cct.result == EmptyResult
                && cct.captured_images == pi.captured_images.images
      ensures pi == null || |pi.captured_images.images| == 0 ==>
                ret == "Cannot calibrate with zero images." && cct == null
    {
      cct := null;
      if pi != null && |pi.captured_images.images| > 0 {
        cct := new CalibrateCameraTask(cxt, pi.captured_images.images);
        ret := "Calibration queued.";
      } else {
        ret := "Cannot calibrate with zero images.";
      }
    }

    /** on_timer: poll the task, if there is one. */
    method OnTimer(now: Time) returns (msg: string)
      requires Valid()
      modifies Repr()
      ensures Valid()
      ensures cct == null ==> msg == ""
    {
      if cct != null {
        msg := cct.CheckCompletion(now);
      } else {
        msg := "";
      }
    }

    /** calibration_complete */
    function CalibrationComplete(): bool
      reads this, cct
    {
      cct != null && cct.result.valid
    }

    /** get_captured_image_marked: once calibrated, show the marked images in
        turn, moving on when more than 1500 ms have passed since the last move.
        The list is never empty here, so the index always lands inside it. */
    method GetCapturedImageMarked(now: Time) returns (marked: Option<Image>)
      requires Valid()
      modifies this
      ensures pi == old(pi) && cct == old(cct)
      ensures !CalibrationComplete() ==>
                marked.None? && marked_index == old(marked_index)
                && last_time_display_marked == old(last_time_display_marked)
      ensures CalibrationComplete() ==>
                var cim := cct.result.captured_images_marked;
                var advance := now - old(last_time_display_marked) > TimeDisplayCapturedImageMarked;
                && |cim| > 0
                && marked_index == (old(marked_index) + (if advance then 1 else 0)) % |cim|
                && marked_index < |cim|
                && marked == Some(cim[marked_index])
                && last_time_display_marked == (if advance then now else old(last_time_display_marked))
    {
      if cct == null || !cct.result.valid {
        return None;
      }
      cct.ResultHasMarkedImages();
      var image := ShowMarked(cct.result.captured_images_marked, now);
      marked := Some(image);
    }

    /** The display step of get_captured_image_marked over a non-empty list. */
    method ShowMarked(cim: seq<Image>, now: Time) returns (image: Image)
      requires |cim| > 0
      modifies this
      ensures pi == old(pi) && cct == old(cct)
      ensures var advance := now - old(last_time_display_marked) > TimeDisplayCapturedImageMarked;
              && marked_index == (old(marked_index) + (if advance then 1 else 0)) % |cim|
              && marked_index < |cim|
              && image == cim[marked_index]
              && last_time_display_marked == (if advance then now else old(last_time_display_marked))
    {
      if now - last_time_display_marked > TimeDisplayCapturedImageMarked {
        marked_index := marked_index + 1;
        last_time_display_marked := now;
      }
      marked_index := marked_index % |cim|;
      image := cim[marked_index];
    }
  }
}
