# fiducial_vlam camera calibration core, in Dafny

This project models the camera-calibration core of `fiducial_vlam`, plus the
marker observations and marker map that the localiser shares with it.

- **Capture decision** (`CaptureStationary`). A per-frame state machine
  (Ready → Tracking → Stationary → Captured) decides when a ChArUco board has
  been in view long enough, has stopped moving, and has stayed still long
  enough to capture. It is modelled twice:
  - as a value: `Step`, and `Run` over a sequence of frames;
  - as the source runs it: the `CaptureMachine` class, with the
    `StationaryBoard` baseline object and the captured-image store updated in
    place.

  The feedback outline is `SplitEdge`: where each edge of the board outline
  changes colour.
- **Frames** (`Frames`). A frame holds its detected markers and its projected
  board outline. `CapturedImages` is the ordered store of captured frames.
- **Junctions** (`Junctions`). For each captured frame:
  - each detected marker gets its own homography;
  - each checkerboard junction is projected through the homographies of the
    markers next to it;
  - the estimate is refined in a sub-pixel window that stays clear of the
    nearest marker corner.

  The result is three parallel lists: board points, image points, and an
  id→index map.
- **Calibration sweep** (`CalibrationStyles`, `CalibrationSweep`). The solver
  runs once for each of the nine calibration styles, plus one extra
  `principal_point_free` run on the first five frames. Each style sets its own
  flags and seeds the camera matrix its own way. The two-stage style first
  runs the solver as `k1_free` does.
- **Front end** (`CalibrateCamera`):
  - the per-frame processor: size gate, manual capture, capture machine;
  - the calibration task: queue once, collect, stamp, save and report;
  - the per-junction reprojection-error grid;
  - the command dispatcher (`cal_cmd`, `on_timer`, and the rotation through
    the marked images).
- **Observations and the marker map** (`FiducialObservations`, `MarkerMap`).
  These are the conversions to and from the ROS messages. The map keeps its
  markers keyed by id.

## How the model is built

- **OpenCV.** Detection, homography fitting, perspective transforms, corner
  refinement, the camera solver, point projection and the norm are function
  fields of one `Vision` value. The model never computes them; it states how
  their results flow.
- **Time.** `rclcpp::Time` is an integer number of nanoseconds. 500 ms,
  1500 ms and the 4.0 s dwell are compared as exact integers.
- **Source over specification.** Where the specification's prose and the code
  differ, the model follows the code:
  - `Observations::to_msg` takes a stamp, a frame id and a camera info in
    `map.cpp`. The header `observation.hpp` declares it with a header message
    instead. The model follows `map.cpp`.
  - The capture machine reads `board_projection_.ordered_board_corners_`,
    while `calibrate.cpp` builds `BoardProjection` with
    `board_corners_f_image_`. The header that declares both is not part of
    this model. The model takes the four projected corners as the outline,
    and `None` when no marker was ever detected.
- **Division by zero.** `test_stationary` divides by
  `4 * longest_side * 0.001`. With a degenerate outline the IEEE quotient is
  infinite or NaN, and neither is below the threshold. `IsStationary`
  therefore requires a positive longest side.

## Model

| member | source | states |
|---|---|---|
| Frames.DetectMarkers | fiducial_vlam/src/calibrate.cpp:84-135 | keeps the frame and stamp; the markers are the detector's result; with no markers the old boundary is kept, otherwise a boundary is projected |
| Frames.MakeImageHolder | fiducial_vlam/src/calibrate.cpp:74-82 | a new frame has a board boundary exactly when the quick detection finds a marker |
| Frames.CapturedImages.Capture | fiducial_vlam/src/calibrate.cpp:138-141 | the frame is appended at the end of the store; earlier frames are unchanged |
| FiducialObservations.OfMsg | fiducial_vlam/include/observation.hpp:54-60 | every field is copied from the message |
| FiducialObservations.ToMsg | fiducial_vlam/src/map.cpp:40-49 | every field of the message is copied from the observation |
| FiducialObservations.MsgsRoundTrip | fiducial_vlam/src/map.cpp:14-55 | converting a list to messages and back is the identity, in both directions |
| FiducialObservations.Observations.constructor | fiducial_vlam/include/observation.hpp:110 | a default container is empty |
| FiducialObservations.Observations.FromMsg | fiducial_vlam/src/map.cpp:14-23 | one observation per message entry, in message order |
| FiducialObservations.Observations.Size | fiducial_vlam/include/observation.hpp:120-121 | the number of observations held |
| FiducialObservations.Observations.Add | fiducial_vlam/src/map.cpp:25-28 | the observation is appended at the end |
| FiducialObservations.Observations.ToObservationsMsg | fiducial_vlam/src/map.cpp:30-55 | header stamp and frame id and camera info as given; the observations converted in order, and they read back to the container's contents |
| MarkerMap.OfPoseMsg | fiducial_vlam/src/map.cpp:69 | a transform made from a message is valid |
| MarkerMap.PoseMsgRoundTrip | fiducial_vlam/src/map.cpp:69-93 | a valid transform written to a pose message and read back is unchanged |
| MarkerMap.MsgMarkersAt | fiducial_vlam/src/map.cpp:65-73 | with distinct ids, the markers built from a message have exactly its ids as keys, each mapped to the marker its entry describes |
| MarkerMap.MapMsgRoundTrip | fiducial_vlam/src/map.cpp:65-100 | a map message that describes a set of valid markers has distinct ids and rebuilds exactly those markers |
| MarkerMap.Map.constructor | fiducial_vlam/src/map.cpp:61-63 | style and marker length as given; no markers |
| MarkerMap.Map.FromMsg | fiducial_vlam/src/map.cpp:65-73 | one marker per entry, under its id, with the entry's pose and fixed exactly when its flag is non-zero |
| MarkerMap.Map.FindMarker | fiducial_vlam/src/map.cpp:102-112 | the stored marker, or none exactly when the id is not a key |
| MarkerMap.Map.AddMarker | fiducial_vlam/src/map.cpp:114-118 | requires a new id; afterwards the id maps to this marker and every other key is unchanged |
| MarkerMap.Map.Reset | fiducial_vlam/src/map.cpp:75-83 | the markers become a copy of the other map's; resetting a map from itself empties it |
| MarkerMap.Map.FindTMapMarkers | fiducial_vlam/src/map.cpp:120-129 | one transform per observation, in order: the stored pose, or the invalid default for an unknown id |
| MarkerMap.Map.ToMapMsg | fiducial_vlam/src/map.cpp:85-100 | parallel lists in ascending id order, one entry per marker with its pose and its 1/0 fixed flag; header, length and style copied |
| CaptureStationary.ClampFraction | fiducial_vlam/src/calibrate_capture_stationary.cpp:26 | the result lies in [0, 1] and equals the input inside that range |
| CaptureStationary.SplitEdge | fiducial_vlam/src/calibrate_capture_stationary.cpp:28-43 | edge j runs from corner j to corner j+1 mod 4; its split point and its two colours follow where the clamped fraction falls in [j/4, j/4 + 1/4]; at least one part is drawn |
| CaptureStationary.OutlineExtremes | fiducial_vlam/src/calibrate_capture_stationary.cpp:20-44 | fraction 1 draws each edge wholly in the first colour; fraction 0 draws it wholly in the second |
| CaptureStationary.StillBoardIsStationary | fiducial_vlam/src/calibrate_capture_stationary.cpp:61-84 | an outline that did not move and has a side of positive length is stationary |
| CaptureStationary.StationaryBoard.constructor | fiducial_vlam/src/calibrate_capture_stationary.cpp:52 | the baseline starts empty |
| CaptureStationary.StationaryBoard.Reset | fiducial_vlam/src/calibrate_capture_stationary.cpp:55-59 | the frame's corners become the baseline |
| CaptureStationary.StationaryBoard.TestStationary | fiducial_vlam/src/calibrate_capture_stationary.cpp:61-84 | the verdict is the displacement-to-longest-side test against the old baseline, and the baseline becomes this frame's corners whatever the verdict |
| CaptureStationary.Initial | fiducial_vlam/src/calibrate_capture_stationary.cpp:289-298 | a new machine is in Ready, with its empty-board time set to construction time |
| CaptureStationary.Step | fiducial_vlam/src/calibrate_capture_stationary.cpp:114-273 | the transition table: a capture happens exactly on entering Captured, and only from Stationary; losing the board returns to Ready; Ready leaves after 500 ms; Tracking enters Stationary exactly on a stationary verdict; Stationary captures exactly when still and past 4 s; Captured holds while the board is in view |
| CaptureStationary.AtMostOneCapturePerDwell | fiducial_vlam/src/calibrate_capture_stationary.cpp:239-272 | while the board stays in view the machine captures at most once, and never once it is in Captured |
| CaptureStationary.CaptureNeedsFullDwell | fiducial_vlam/src/calibrate_capture_stationary.cpp:123-236 | with the board in view and stamps in order, every captured frame comes more than 0.5 s + 4 s after the last frame without a board |
| CaptureStationary.FirstCaptureAfterStart | fiducial_vlam/src/calibrate_capture_stationary.cpp:289-298 | from construction at t0 with the board always in view, no frame is captured before t0 + 4.5 s |
| CaptureStationary.HeldStillTail | fiducial_vlam/src/calibrate_capture_stationary.cpp:175-229 | a board held still over a run of frames is held still over its tail |
| CaptureStationary.StationaryIsCaptured | fiducial_vlam/src/calibrate_capture_stationary.cpp:200-229 | in Stationary, with the board still from the baseline on, a frame more than 4 s after the start of the stationary period guarantees a capture |
| CaptureStationary.TrackingIsCaptured | fiducial_vlam/src/calibrate_capture_stationary.cpp:161-229 | in Tracking, with the board still from the baseline on, a frame more than 4 s after the first guarantees a capture |
| CaptureStationary.ReadyIsCaptured | fiducial_vlam/src/calibrate_capture_stationary.cpp:123-229 | in Ready, with stamps in order and the board held still, a frame 500 ms past the last empty frame, followed by 4 s more, guarantees a capture |
| CaptureStationary.HeldStillIsCapturedOnce | fiducial_vlam/src/calibrate_capture_stationary.cpp:114-298 | from construction, a board brought into view after 500 ms and held still for 4 s more is captured exactly once |
| CaptureStationary.CaptureMachine.constructor | fiducial_vlam/src/calibrate_capture_stationary.cpp:289-298 | the machine's state equals Initial(now) |
| CaptureStationary.CaptureMachine.ActivateReady | fiducial_vlam/src/calibrate_capture_stationary.cpp:147-151 | state Ready and empty-board time now; nothing else changes |
| CaptureStationary.CaptureMachine.ActivateTracking | fiducial_vlam/src/calibrate_capture_stationary.cpp:184-188 | state Tracking, with the frame's corners as the new baseline |
| CaptureStationary.CaptureMachine.ActivateStationary | fiducial_vlam/src/calibrate_capture_stationary.cpp:232-236 | state Stationary, with the stationary period starting at the frame's stamp |
| CaptureStationary.CaptureMachine.ActivateCaptured | fiducial_vlam/src/calibrate_capture_stationary.cpp:262-272 | state Captured; the frame is appended to the store and its outline remembered |
| CaptureStationary.CaptureMachine.TestCapture | fiducial_vlam/src/calibrate_capture_stationary.cpp:123-304 | the new state, the feedback outline and the store agree with Step on the old state: the frame is appended exactly when Step captures |
| CalibrationStyles.Name | fiducial_vlam/src/calibrate.cpp:339-345 | "unknown style" exactly for values that are not styles |
| CalibrationStyles.NameIdentifiesStyle | fiducial_vlam/src/calibrate.cpp:315-345 | two styles with the same name are the same style |
| CalibrationStyles.Half | fiducial_vlam/src/calibrate.cpp:461-462 | C++ integer division by 2: the remainder n - 2r is at most 1 in size and has the sign of n, so the quotient is truncated toward zero |
| CalibrationStyles.CentredSeed | fiducial_vlam/src/calibrate.cpp:483-487 | fx = fy = (2,2) = 1 and the principal point at half the image size; the other entries are kept |
| CalibrationStyles.FirstStage | fiducial_vlam/src/calibrate.cpp:451-474 | the first run of a two-stage style fixes the principal point, aspect ratio, tangential distortion, k2 and k3 |
| CalibrationStyles.StyleFlags | fiducial_vlam/src/calibrate.cpp:477-553 | only custom and the two-stage style start from an intrinsic guess |
| CalibrationStyles.ApplyStyle | fiducial_vlam/src/calibrate.cpp:477-553 | the final run uses the style's flags |
| CalibrationStyles.FlagsStrictlyNested | fiducial_vlam/src/calibrate.cpp:479-524 | each of the first seven styles fixes strictly fewer things than the one before; k3_free fixes nothing |
| CalibrationStyles.TwoStageStartsAsK1Free | fiducial_vlam/src/calibrate.cpp:451-498 | the two-stage style's first run is set up exactly as k1_free's |
| CalibrationStyles.SecondStageKeepsFirstAnswer | fiducial_vlam/src/calibrate.cpp:549-553 | the second run seeds nothing and frees the principal point and k2 |
| CalibrationStyles.UnknownStyleIsMinimumFreedom | fiducial_vlam/src/calibrate.cpp:477-488 | a value that is not a style is set up as minimum_freedom |
| Junctions.SubPixWinSize | fiducial_vlam/src/calibrate.cpp:682-705 | width and height lie in [2, 10]; above 2 the window stays at least one pixel short of both closest corners on that axis; below 10 it is as large as the nearest corner allows |
| Junctions.MarkersHomography | fiducial_vlam/src/calibrate.cpp:654-677 | every entry indexes one of the detections seen so far |
| Junctions.MarkersHomographyFirstWins | fiducial_vlam/src/calibrate.cpp:654-677 | the keys are exactly the detected ids; each entry is built from the first detection of its id |
| Junctions.CalculateMarkersHomography | fiducial_vlam/src/calibrate.cpp:654-677 | the loop builds MarkersHomography over all detections |
| Junctions.Candidates | fiducial_vlam/src/calibrate.cpp:597-616 | no candidate exactly when no adjacent marker was detected; at most one per adjacent marker |
| Junctions.JunctionAt | fiducial_vlam/src/calibrate.cpp:586-647 | no junction exactly when none of its adjacent markers was detected; a junction found has its board point on z = 0 |
| Junctions.CollectKeys | fiducial_vlam/src/calibrate.cpp:587-644 | the index map's keys are exactly the ids walked at which a junction was found |
| Junctions.CollectSizes | fiducial_vlam/src/calibrate.cpp:640-651 | board and image lists have equal length, one map entry per point, every index inside the lists |
| Junctions.CollectPlane | fiducial_vlam/src/calibrate.cpp:642 | every board point appended lies on z = 0 |
| Junctions.CollectLockstep | fiducial_vlam/src/calibrate.cpp:640-651 | sizes and plane together |
| Junctions.CollectIndexes | fiducial_vlam/src/calibrate.cpp:640-644 | each id is mapped to the position of its own junction |
| Junctions.CollectAscending | fiducial_vlam/src/calibrate.cpp:587-644 | positions increase with the junction id |
| Junctions.InterpolatedShape | fiducial_vlam/src/calibrate.cpp:568-652 | for one frame: lockstep lists, keys exactly the ids with a detected neighbour, each key at its own junction, positions ascending |
| Junctions.CollectCandidates | fiducial_vlam/src/calibrate.cpp:597-616 | the inner loop computes Candidates |
| Junctions.LocateJunction | fiducial_vlam/src/calibrate.cpp:586-647 | the loop body computes JunctionAt |
| Junctions.InterpolateJunctionLocations | fiducial_vlam/src/calibrate.cpp:568-652 | the lists equal Interpolated over every junction id with the frame's own homographies |
| CalibrationSweep.Select | fiducial_vlam/src/calibrate.cpp:431-438 | entry k of the selection is the named image's list, in the order named |
| CalibrationSweep.FinalSetup | fiducial_vlam/src/calibrate.cpp:451-553 | the recorded run's flags are the style's flags |
| CalibrationSweep.CalibrationOf | fiducial_vlam/src/calibrate.cpp:420-566 | the result records its style, its image selection and its style's flags |
| CalibrationSweep.TwoStageSeededByK1Free | fiducial_vlam/src/calibrate.cpp:451-553 | the two-stage style's recorded run starts from exactly the answer of a k1_free run on the same images |
| CalibrationSweep.RunSeesOnlyJunctions | fiducial_vlam/src/calibrate.cpp:420-566 | a run depends only on the junction lists it is given |
| CalibrationSweep.Redetected | fiducial_vlam/src/calibrate.cpp:707-721 | frame k becomes frame k re-detected precisely |
| CalibrationSweep.CalibrateCameraWork.constructor | fiducial_vlam/src/calibrate.cpp:391-395 | the work holds the board layout and the captured frames |
| CalibrationSweep.CalibrateCameraWork.PrepareCapturedImages | fiducial_vlam/src/calibrate.cpp:707-721 | the frames are re-detected precisely; one colour copy per frame is appended, in order |
| CalibrationSweep.CalibrateCameraWork.InterpolateJunctionLocations | fiducial_vlam/src/calibrate.cpp:568-652 | one frame's three lists are appended; nothing else changes |
| CalibrationSweep.CalibrateCameraWork.DoCalibration | fiducial_vlam/src/calibrate.cpp:420-566 | exactly one result, CalibrationOf, is appended; nothing else changes |
| CalibrationSweep.CalibrateCameraWork.InterpolateAll | fiducial_vlam/src/calibrate.cpp:403-406 | one entry per frame in frame order, each that frame's junctions; the lists are well formed |
| CalibrationSweep.CalibrateCameraWork.CalibrateAllStyles | fiducial_vlam/src/calibrate.cpp:408-411 | result i is style i's run over all images, for each of the nine styles |
| CalibrationSweep.CalibrateCameraWork.FindAllJunctions | fiducial_vlam/src/calibrate.cpp:398-406 | one marked image and one junction entry per frame, each from the re-detected frame; no runs yet |
| CalibrationSweep.CalibrateCameraWork.SolveCalibration | fiducial_vlam/src/calibrate.cpp:396-417 | the result is Solved: valid and well formed; per-frame junctions of the re-detected frames; ten runs: style i over all images, then principal_point_free over images 0-4 |
| CalibrationSweep.CalibrateCameraWork.SolvedIgnoresTime | fiducial_vlam/src/calibrate.cpp:766-767 | stamping the finish time on a solved result keeps it solved, since the runs read only the junction lists |
| CalibrateCamera.DigitsOf | fiducial_vlam/src/calibrate.cpp:293-296 | a non-empty string of decimal digits |
| CalibrateCamera.DigitsRoundTrip | fiducial_vlam/src/calibrate.cpp:293-296 | reading a printed count back gives the count |
| CalibrateCamera.Decimal | fiducial_vlam/src/calibrate.cpp:293-296 | %d: a minus sign exactly for a negative value, then digits that read back as the value's magnitude |
| CalibrateCamera.LoadedFrames | fiducial_vlam/src/calibrate.cpp:273-288 | one frame per stored image, in file order, each with a quick detection |
| CalibrateCamera.ProcessImage.constructor | fiducial_vlam/src/calibrate.cpp:159-173 | an empty store of the given size, no pending capture, and a capture machine started at the stamp |
| CalibrateCamera.ProcessImage.Load | fiducial_vlam/src/calibrate.cpp:262-289 | the file's size, and the file's frames in the store in order |
| CalibrateCamera.ProcessImage.ProcessImage | fiducial_vlam/src/calibrate.cpp:175-216 | a frame of another size changes nothing; otherwise a pending manual capture takes the frame and clears, then the machine steps as Step says; never any observations |
| CalibrateCamera.ProcessImage.PrepImageCapture | fiducial_vlam/src/calibrate.cpp:224-228 | the next frame will be captured; the reply text |
| CalibrateCamera.SavedStyle | fiducial_vlam/src/calibrate.cpp:768-769 | always a valid result index; a valid style is kept as it is; a negative one becomes 0 and one past the end the last style |
| CalibrateCamera.FitOf | fiducial_vlam/src/calibrate.cpp:873-879 | the index map indexes both junction lists of the image |
| CalibrateCamera.CountFound | fiducial_vlam/src/calibrate.cpp:880-887 | at most one per junction id walked |
| CalibrateCamera.CountBad | fiducial_vlam/src/calibrate.cpp:886-892 | bad junctions are among the found ones |
| CalibrateCamera.CountFoundIsKeysBelow | fiducial_vlam/src/calibrate.cpp:880-887 | the junction count equals the number of found ids walked |
| CalibrateCamera.JunctionCountIsFoundJunctions | fiducial_vlam/src/calibrate.cpp:880-887 | when every key is a junction id, the junction count is the number of junctions found |
| CalibrateCamera.CalibrateCameraTask.constructor | fiducial_vlam/src/calibrate.cpp:739-747 | not queued, no result yet |
| CalibrateCamera.CalibrateCameraTask.RunQueuedWork | fiducial_vlam/src/calibrate.cpp:776-784 | the queued sweep completes, and the future holds a result that is Solved for the task's frames |
| CalibrateCamera.CalibrateCameraTask.CheckCompletion | fiducial_vlam/src/calibrate.cpp:749-787 | nothing once done or while waiting; a ready result is collected, stamped with now, stays Solved, and the entry saved and reported for the clamped style is that style's run over every frame; otherwise the sweep is queued, once |
| CalibrateCamera.CalibrateCameraTask.ResultHasMarkedImages | fiducial_vlam/src/calibrate.cpp:1106-1109 | a collected result holds one marked image per captured frame, so the list the display indexes is never empty |
| CalibrateCamera.CalibrateCameraTask.StatusWord | fiducial_vlam/src/calibrate.cpp:832-837 | "done" exactly when the result is valid; "pending" exactly when nothing was queued |
| CalibrateCamera.CalibrateCameraTask.CalcJunctionErrors | fiducial_vlam/src/calibrate.cpp:861-908 | the grid of image i under calibration cal, per JunctionGrid |
| CalibrateCamera.JunctionGrid | fiducial_vlam/src/calibrate.cpp:879-896 | one cell per junction id (its error, or none when not found); row ends where id % width is width - 1; the junction count, bad count (> 1 px) and squared sum over the found junctions; bad ≤ found ≤ ids |
| CalibrateCamera.CalibrateCameraImpl.constructor | fiducial_vlam/src/calibrate.cpp:1012-1016 | no processor and no task |
| CalibrateCamera.CalibrateCameraImpl.ProcessImage | fiducial_vlam/src/calibrate.cpp:1018-1030 | the first frame creates a processor sized to it; later frames keep it; the processor's store and capture machine move as the processor's ProcessImage says, from the old state or from an empty store at Initial(time_stamp); the task is untouched; no observations |
| CalibrateCamera.CalibrateCameraImpl.CalCmd | fiducial_vlam/src/calibrate.cpp:1039-1086 | per command: capture arms the processor and touches nothing else; save_images, status and unknown commands change nothing; status joins the two status lines; load_images replaces the processor and drops the task; calibrate queues a task over the frames, or refuses with none, leaving the processor alone; reset drops both |
| CalibrateCamera.CalibrateCameraImpl.PrepCapture | fiducial_vlam/src/calibrate.cpp:1044-1047 | with a processor, it is armed and the reply says so; without one the reply is empty |
| CalibrateCamera.CalibrateCameraImpl.LoadImages | fiducial_vlam/src/calibrate.cpp:1065-1069 | no task; a new processor holding the stored frames; its status is the reply |
| CalibrateCamera.CalibrateCameraImpl.QueueCalibration | fiducial_vlam/src/calibrate.cpp:1071-1079 | a fresh unqueued task over the captured frames when there are any; otherwise no task and the refusal text |
| CalibrateCamera.CalibrateCameraImpl.OnTimer | fiducial_vlam/src/calibrate.cpp:1088-1091 | empty without a task |
| CalibrateCamera.CalibrateCameraImpl.GetCapturedImageMarked | fiducial_vlam/src/calibrate.cpp:1098-1119 | nothing before completion; afterwards the index moves on when more than 1500 ms have passed, wraps modulo the non-empty list, and that image is returned |
| CalibrateCamera.CalibrateCameraImpl.ShowMarked | fiducial_vlam/src/calibrate.cpp:1105-1117 | the index moves on when more than 1500 ms have passed and wraps modulo the list; that image is returned |

## Left out

- OpenCV is not modelled. Marker detection, `findHomography`, `perspectiveTransform`, `cornerSubPix`, `calibrateCamera`, `projectPoints`, `cv::norm` and `cvtColor` are opaque functions of the `Vision` value. Their numerics and float rounding are outside the model.
- Drawing is not modelled: `draw_board_boundary`'s `cv::line` calls, `AnnotateImages`, and the colour-marked output image. What the model keeps is what would be drawn: the `SplitEdge` colours and split points, and the feedback outline returned by `TestCapture`.
- File I/O is not modelled:
  - `save_images` writing PNG files and the YAML index (its reply is the empty string);
  - `writeCalibration` and the assembly of the `CameraInfo` in `save_calibration`;
  - reading the YAML and the images in `load_images`. The file's content is the `StoredImages` parameter.
- Concurrency is not modelled. The task thread and `std::future` are the `Future` value. `RunQueuedWork` stands for the thread finishing the queued sweep.
- Report text is not modelled. `create_calibration_report` is the `report` field of the context, because its text is `%f`/`%5.3f` formatting and `strftime`. `to_date_string` is left out for the same reason.
- CalibrateCamera.CalibrateCameraTask.CalcJunctionErrors: returns the cells, row breaks, counts and squared sum rather than the formatted text. The rms line `sqrt(total / junction_count)` is not formed; with no junction found it divides by zero.
- CalibrateCamera.CalibrateCameraTask.RunQueuedWork: requires at least five captured frames. `cal_cmd` queues a task with one frame or more. The extra run of `solve_calibration` reads frames 0-4, so with one to four frames the source reads past the end of its lists, and that case is not modelled.
- CalibrationSweep.CalibrateCameraWork.SolveCalibration: requires at least five captured frames, for the same reason.
- CaptureStationary.Step: `seconds()` and the 4.0 s comparison are exact comparisons on integer nanoseconds, not double arithmetic.
- Aliasing is not modelled: `prepare_captured_images` re-detects markers in the `ImageHolder` objects it shares with the processor's store. The model works on a re-detected copy (`Redetected`) and leaves the store as it was.
- `solve_t_map_camera` always returns the default transform while calibrating, so it is not modelled.
- `BoardProjection`'s `delta_scale_factor` and `corner_pixel_delta` are not read by the core's capture machine, so they are not modelled.
- CalibrateCamera.CalibrateCameraImpl.OnTimer: with a task, its message and new state are those of `CheckCompletion`. This contract says only what happens without one.
- `calibrate_classes.hpp`, `map.hpp` and `calibration_board_config.hpp` are not part of this model. The board layout queries they declare are fields of `BoardLayout`, and `Marker` and `TransformWithCovariance` are datatypes.
