/** CalibrateCameraWork (calibrate.cpp:348-722): prepare the captured frames,
    find each frame's junctions, and run the solver once per calibration
    style, plus one extra principal_point_free run on the first five frames. */
module CalibrationSweep {
  import opened Wrappers
  import opened Vision
  import opened Frames
  import opened CalibrationStyles
  import opened Junctions

  /** CalibrateCameraResult::CalibrationResult: one solver run. */
  datatype CalibrationResult = CalibrationResult(
    calibration_style: int,
    images_for_calibration: seq<nat>,   // empty: all images
    flags: set<CalibFlag>,
    reproject_error: real,
    camera_matrix: Matx33,
    dist_coeffs: DistCoeffs,
    poses: seq<Pose>,                   // rvecs_ and tvecs_, one per image used
    std_deviations_intrinsics: seq<real>,
    std_deviations_extrinsics: seq<real>,
    per_view_errors: seq<real>)

  /** CalibrateCameraResult: the per-image junction lists and the runs. */
  datatype CalibrateCameraResult = CalibrateCameraResult(
    valid: bool,
    captured_images_marked: seq<Image>,
    junctions_f_board: seq<seq<Point3>>,
    junctions_f_image: seq<seq<Point>>,
    junction_id_index_maps: seq<map<int, nat>>,
    calibration_time: Time,
    calibration_results: seq<CalibrationResult>)

  /** A default-constructed result: not valid, everything empty. */
  const EmptyResult: CalibrateCameraResult := CalibrateCameraResult(false, [], [], [], [], 0, [])

  /** The per-image lists are parallel, and each image's map indexes its own lists. */
  ghost predicate WellFormed(res: CalibrateCameraResult) {
    && |res.junctions_f_board| == |res.junctions_f_image| == |res.junction_id_index_maps|
    && (forall i :: 0 <= i < |res.junctions_f_board| ==>
          && |res.junctions_f_image[i]| == |res.junctions_f_board[i]|
          && (forall id :: id in res.junction_id_index_maps[i] ==>
                res.junction_id_index_maps[i][id] < |res.junctions_f_board[i]|))
  }

  /** The images the run names, in the order it names them. */
  function Select<T>(all: seq<T>, images_for_calibration: seq<nat>): (r: seq<T>)
    requires forall k :: 0 <= k < |images_for_calibration| ==> images_for_calibration[k] < |all|
    ensures |r| == |images_for_calibration|
    ensures forall k :: 0 <= k < |r| ==> r[k] == all[images_for_calibration[k]]
  {
    if images_for_calibration == [] then []
    else
      var n := |images_for_calibration| - 1;
      Select(all, images_for_calibration[..n]) + [all[images_for_calibration[n]]]
  }

  predicate NamesImagesOf(res: CalibrateCameraResult, images_for_calibration: seq<nat>) {
    forall k :: 0 <= k < |images_for_calibration| ==> images_for_calibration[k] < |res.junctions_f_board|
  }

  /** The set-up of the run that is recorded: a two-stage style first runs
      the solver with its first-stage set-up and starts from that answer. */
  function FinalSetup(style: int, board: seq<seq<Point3>>, image: seq<seq<Point>>, size: Size, vision: Vision)
    : (s: Setup)
    ensures s.flags == StyleFlags(style)
  {
    if IsTwoStage(style) then
      var s1 := FirstStage(size);
      var o1 := vision.calibrate_camera(board, image, size, s1.camera_matrix, s1.dist_coeffs, s1.flags);
      ApplyStyle(style, size, o1.camera_matrix, o1.dist_coeffs)
    else ApplyStyle(style, size, ZeroMatx33, ZeroDistCoeffs)
  }

  /** What do_calibration appends for one style and image selection. */
  function CalibrationOf(style: int, images_for_calibration: seq<nat>, res: CalibrateCameraResult,
                         size: Size, vision: Vision): (cal: CalibrationResult)
    requires |res.junctions_f_image| == |res.junctions_f_board| && NamesImagesOf(res, images_for_calibration)
    ensures cal.calibration_style == style && cal.images_for_calibration == images_for_calibration
    ensures cal.flags == StyleFlags(style)
  {
    var board := if images_for_calibration == [] then res.junctions_f_board
                 else Select(res.junctions_f_board, images_for_calibration);
    var image := if images_for_calibration == [] then res.junctions_f_image
                 else Select(res.junctions_f_image, images_for_calibration);
    var s := FinalSetup(style, board, image, size, vision);
    var o := vision.calibrate_camera(board, image, size, s.camera_matrix, s.dist_coeffs, s.flags);
    CalibrationResult(style, images_for_calibration, s.flags, o.reproject_error, o.camera_matrix, o.dist_coeffs,
                      o.poses, o.std_deviations_intrinsics, o.std_deviations_extrinsics, o.per_view_errors)
  }

  /** The two-stage style's recorded run starts from exactly the camera matrix
      and distortion that the k1_free run finds on the same images. */
  lemma TwoStageSeededByK1Free(board: seq<seq<Point3>>, image: seq<seq<Point>>, size: Size, vision: Vision)
    ensures var k1 := FinalSetup(K1Free, board, image, size, vision);
      var answer := vision.calibrate_camera(board, image, size, k1.camera_matrix, k1.dist_coeffs, k1.flags);
      FinalSetup(AK1FreeBFixPrincipalPointFree, board, image, size, vision)
        == Setup(StyleFlags(AK1FreeBFixPrincipalPointFree), answer.camera_matrix, answer.dist_coeffs)
  {
    TwoStageStartsAsK1Free(size);
    var o1 := vision.calibrate_camera(board, image, size, FirstStage(size).camera_matrix,
                                      FirstStage(size).dist_coeffs, FirstStage(size).flags);
    SecondStageKeepsFirstAnswer(size, o1.camera_matrix, o1.dist_coeffs);
  }

  /** A run sees only the junction lists of the result it is appended to. */
  lemma RunSeesOnlyJunctions(style: int, images_for_calibration: seq<nat>, a: CalibrateCameraResult,
                             b: CalibrateCameraResult, size: Size, vision: Vision)
    requires a.junctions_f_board == b.junctions_f_board && a.junctions_f_image == b.junctions_f_image
    requires |a.junctions_f_image| == |a.junctions_f_board| && NamesImagesOf(a, images_for_calibration)
    ensures CalibrationOf(style, images_for_calibration, a, size, vision)
            == CalibrationOf(style, images_for_calibration, b, size, vision)
  {
  }

  /** The frames after prepare_captured_images re-detects their markers precisely. */
  function Redetected(images: seq<ImageHolder>, layout: BoardLayout, vision: Vision): (r: seq<ImageHolder>)
    ensures |r| == |images|
    ensures forall k :: 0 <= k < |images| ==> r[k] == DetectMarkers(images[k], layout, vision, true)
  {
    seq(|images|, k requires 0 <= k < |images| => DetectMarkers(images[k], layout, vision, true))
  }

  /** CalibrateCameraWork: the solver's view of the captured frames. */
  class CalibrateCameraWork {
    const layout: BoardLayout
    const vision: Vision
    const captured_images: seq<ImageHolder>

    constructor (layout: BoardLayout, captured_images: seq<ImageHolder>, vision: Vision)
      ensures this.layout == layout && this.captured_images == captured_images && this.vision == vision
    {
      this.layout := layout;
      this.captured_images := captured_images;
      this.vision := vision;
    }

    /** The image size is taken from the first captured frame. */
    function ImageSize(): Size
      requires |captured_images| > 0
    {
      Size(captured_images[0].gray.cols, captured_images[0].gray.rows)
    }

    /** prepare_captured_images: re-detect every frame precisely and make one
        colour copy per frame for marking (the marking itself is drawing). */
    method PrepareCapturedImages(res: CalibrateCameraResult)
      returns (images: seq<ImageHolder>, res': CalibrateCameraResult)
      ensures images == Redetected(captured_images, layout, vision)
      ensures res' == res.(captured_images_marked := res.captured_images_marked +
                             seq(|captured_images|, k requires 0 <= k < |captured_images| =>
                                   vision.gray_to_color(captured_images[k].gray)))
    {
      images := [];
      res' := res;
      var i := 0;
      while i < |captured_images|
        invariant 0 <= i <= |captured_images|
        invariant images == Redetected(captured_images[..i], layout, vision)
        invariant res' == res.(captured_images_marked := res.captured_images_marked +
                                 seq(i, k requires 0 <= k < i => vision.gray_to_color(captured_images[k].gray)))
      {
        var ci := DetectMarkers(captured_images[i], layout, vision, true);
        images := images + [ci];
        res' := res'.(captured_images_marked := res'.captured_images_marked + [vision.gray_to_color(ci.gray)]);
        i := i + 1;
      }
      assert captured_images[..i] == captured_images;
    }

    /** interpolate_junction_locations: append one frame's three lists. */
    method InterpolateJunctionLocations(image: ImageHolder, res: CalibrateCameraResult)
      returns (res': CalibrateCameraResult)
      requires |res.junctions_f_board| < |res.captured_images_marked|
      ensures var j := JunctionsOf(image, layout, vision);
        res' == res.(junctions_f_board := res.junctions_f_board + [j.f_board],
                     junctions_f_image := res.junctions_f_image + [j.f_image],
                     junction_id_index_maps := res.junction_id_index_maps + [j.id_index_map])
    {
      var j := Junctions.InterpolateJunctionLocations(image, layout, vision);
      res' := res.(junctions_f_board := res.junctions_f_board + [j.f_board],
                   junctions_f_image := res.junctions_f_image + [j.f_image],
                   junction_id_index_maps := res.junction_id_index_maps + [j.id_index_map]);
    }

    /** do_calibration: one solver run (two for a two-stage style), appended
        to the results. */
    method DoCalibration(calibration_style: int, images_for_calibration: seq<nat>, res: CalibrateCameraResult)
      returns (res': CalibrateCameraResult)
      requires |captured_images| > 0
      requires |res.junctions_f_image| == |res.junctions_f_board| && NamesImagesOf(res, images_for_calibration)
      ensures res' == res.(calibration_results := res.calibration_results +
                             [CalibrationOf(calibration_style, images_for_calibration, res, ImageSize(), vision)])
    {
      var board_tmp: seq<seq<Point3>> := [];
      var image_tmp: seq<seq<Point>> := [];
      var k := 0;
      while k < |images_for_calibration|
        invariant 0 <= k <= |images_for_calibration|
        invariant board_tmp == Select(res.junctions_f_board, images_for_calibration[..k])
        invariant image_tmp == Select(res.junctions_f_image, images_for_calibration[..k])
      {
        assert images_for_calibration[..k + 1][..k] == images_for_calibration[..k];
        var ifc := images_for_calibration[k];
        board_tmp := board_tmp + [res.junctions_f_board[ifc]];
        image_tmp := image_tmp + [res.junctions_f_image[ifc]];
        k := k + 1;
      }
      assert images_for_calibration[..k] == images_for_calibration;
      var board := if images_for_calibration != [] then board_tmp else res.junctions_f_board;
      var image := if images_for_calibration != [] then image_tmp else res.junctions_f_image;
      var image_size := Size(captured_images[0].gray.cols, captured_images[0].gray.rows);

      var camera_matrix := ZeroMatx33;
      var dist_coeffs := ZeroDistCoeffs;
      if RangeTwiceBeg <= calibration_style < RangeTwiceEnd {
        var first := FirstStage(image_size);
        var o1 := vision.calibrate_camera(board, image, image_size, first.camera_matrix, first.dist_coeffs, first.flags);
        camera_matrix, dist_coeffs := o1.camera_matrix, o1.dist_coeffs;
      }
      var setup := ApplyStyle(calibration_style, image_size, camera_matrix, dist_coeffs);
      var o := vision.calibrate_camera(board, image, image_size, setup.camera_matrix, setup.dist_coeffs, setup.flags);
      var cal := CalibrationResult(calibration_style, images_for_calibration, setup.flags, o.reproject_error,
                                   o.camera_matrix, o.dist_coeffs, o.poses, o.std_deviations_intrinsics,
                                   o.std_deviations_extrinsics, o.per_view_errors);
      res' := res.(calibration_results := res.calibration_results + [cal]);
    }

    /** The per-image loop of solve_calibration: each frame's junctions, in frame order. */
    method InterpolateAll(images: seq<ImageHolder>, res0: CalibrateCameraResult)
      returns (res: CalibrateCameraResult)
      requires |res0.captured_images_marked| == |images|
      requires res0.junctions_f_board == [] && res0.junctions_f_image == [] && res0.junction_id_index_maps == []
      ensures res == res0.(junctions_f_board := res.junctions_f_board, junctions_f_image := res.junctions_f_image,
                           junction_id_index_maps := res.junction_id_index_maps)
      ensures WellFormed(res) && |res.junctions_f_board| == |images|
      ensures forall k :: 0 <= k < |images| ==>
                var j := JunctionsOf(images[k], layout, vision);
                && res.junctions_f_board[k] == j.f_board
                && res.junctions_f_image[k] == j.f_image
                && res.junction_id_index_maps[k] == j.id_index_map
    {
      res := res0;
      var i := 0;
      while i < |images|
        invariant 0 <= i <= |images|
        invariant res == res0.(junctions_f_board := res.junctions_f_board, junctions_f_image := res.junctions_f_image,
                               junction_id_index_maps := res.junction_id_index_maps)
        invariant |res.junctions_f_board| == |res.junctions_f_image| == |res.junction_id_index_maps| == i
        invariant forall k :: 0 <= k < i ==>
                    var j := JunctionsOf(images[k], layout, vision);
                    && res.junctions_f_board[k] == j.f_board
                    && res.junctions_f_image[k] == j.f_image
                    && res.junction_id_index_maps[k] == j.id_index_map
      {
        res := InterpolateJunctionLocations(images[i], res);
        i := i + 1;
      }
      forall k | 0 <= k < |res.junctions_f_board|
        ensures |res.junctions_f_image[k]| == |res.junctions_f_board[k]|
        ensures forall id :: id in res.junction_id_index_maps[k] ==>
                  res.junction_id_index_maps[k][id] < |res.junctions_f_board[k]|
      {
        var h := images[k];
        InterpolatedShape(h, layout, vision, MarkersHomography(h, layout, vision, |h.markers|), layout.max_junction_id);
      }
    }

    /** The style loop of solve_calibration: style i's run is result i. */
    method CalibrateAllStyles(res0: CalibrateCameraResult) returns (res: CalibrateCameraResult)
      requires |captured_images| > 0 && |res0.junctions_f_image| == |res0.junctions_f_board|
      requires res0.calibration_results == []
      ensures res == res0.(calibration_results := res.calibration_results)
      ensures |res.calibration_results| == NumberOfStyles
      ensures forall style :: 0 <= style < NumberOfStyles ==>
                res.calibration_results[style] == CalibrationOf(style, [], res0, ImageSize(), vision)
    {
      res := res0;
      var style := 0;
      while style < NumberOfStyles
        invariant 0 <= style <= NumberOfStyles
        invariant res == res0.(calibration_results := res.calibration_results)
        invariant |res.calibration_results| == style
        invariant forall s :: 0 <= s < style ==>
                    res.calibration_results[s] == CalibrationOf(s, [], res0, ImageSize(), vision)
      {
        res := DoCalibration(style, [], res);
        style := style + 1;
      }
    }

    /** The first half of solve_calibration: the prepared frames and their junctions. */
    method FindAllJunctions() returns (found: CalibrateCameraResult)
      ensures !found.valid && found.calibration_results == [] && WellFormed(found)
      ensures |found.captured_images_marked| == |found.junctions_f_board| == |captured_images|
      ensures forall k :: 0 <= k < |captured_images| ==>
                var j := JunctionsOf(Redetected(captured_images, layout, vision)[k], layout, vision);
                && found.junctions_f_board[k] == j.f_board
                && found.junctions_f_image[k] == j.f_image
                && found.junction_id_index_maps[k] == j.id_index_map
    {
      var images, prepared := PrepareCapturedImages(EmptyResult);
      found := InterpolateAll(images, prepared);
    }

    /** What solve_calibration hands back: a valid result whose junction lists
        are those of the re-detected frames, whose entry i is style i's run on
        every frame, and whose last entry is the principal_point_free run on
        frames 0 to 4. */
    ghost predicate Solved(res: CalibrateCameraResult) {
      && |captured_images| >= 5
      && res.valid && WellFormed(res)
      && |res.captured_images_marked| == |res.junctions_f_board| == |captured_images|
      && (forall k :: 0 <= k < |captured_images| ==>
            var j := JunctionsOf(Redetected(captured_images, layout, vision)[k], layout, vision);
            && res.junctions_f_board[k] == j.f_board
            && res.junctions_f_image[k] == j.f_image
            && res.junction_id_index_maps[k] == j.id_index_map)
      && |res.calibration_results| == NumberOfStyles + 1
      && (forall style :: 0 <= style < NumberOfStyles ==>
            res.calibration_results[style] == CalibrationOf(style, [], res, ImageSize(), vision))
      && res.calibration_results[NumberOfStyles]
         == CalibrationOf(PrincipalPointFree, [0, 1, 2, 3, 4], res, ImageSize(), vision)
    }

    /** Stamping the finish time on a solved result keeps it solved: the runs
        depend on the junction lists only. */
    lemma SolvedIgnoresTime(res: CalibrateCameraResult, t: Time)
      requires Solved(res)
      ensures Solved(res.(calibration_time := t))
    {
      var r := res.(calibration_time := t);
      forall style | 0 <= style < NumberOfStyles
        ensures r.calibration_results[style] == CalibrationOf(style, [], r, ImageSize(), vision)
      {
        RunSeesOnlyJunctions(style, [], res, r, ImageSize(), vision);
      }
      RunSeesOnlyJunctions(PrincipalPointFree, [0, 1, 2, 3, 4], res, r, ImageSize(), vision);
    }

    /** solve_calibration: the whole sweep.  Needs five frames for the extra
        run on images 0 to 4. */
    method SolveCalibration() returns (res: CalibrateCameraResult)
      requires |captured_images| >= 5
      ensures Solved(res)
    {
      var found := FindAllJunctions();
      var styled := CalibrateAllStyles(found);
      assert NamesImagesOf(styled, [0, 1, 2, 3, 4]);
      var all := DoCalibration(PrincipalPointFree, [0, 1, 2, 3, 4], styled);
      res := all.(valid := true);
      assert res.junctions_f_board == found.junctions_f_board && res.junctions_f_image == found.junctions_f_image
          && res.junction_id_index_maps == found.junction_id_index_maps
          && res.captured_images_marked == found.captured_images_marked;
      assert WellFormed(res);
      RunSeesOnlyJunctions(PrincipalPointFree, [0, 1, 2, 3, 4], styled, res, ImageSize(), vision);
      forall style | 0 <= style < NumberOfStyles
        ensures res.calibration_results[style] == CalibrationOf(style, [], res, ImageSize(), vision)
      {
        RunSeesOnlyJunctions(style, [], found, res, ImageSize(), vision);
      }
    }
  }
}
