/** The OpenCV surface the calibration code calls.  Points, images and the
    camera model are plain values; the library routines themselves
    (marker detection, homography fitting, sub-pixel refinement, the
    non-linear calibration solver, ...) are foreign numerics, so the model
    receives them as functions bundled in a `Vision` record and never looks
    inside them. */
module Vision {

  /** cv::Point2f */
  datatype Point = Point(x: real, y: real)

  /** cv::Vec3f, a board-plane point lifted to 3D */
  datatype Point3 = Point3(x: real, y: real, z: real)

  function Plus(p: Point, q: Point): Point {
    Point(p.x + q.x, p.y + q.y)
  }

  function Times(p: Point, k: real): Point {
    Point(p.x * k, p.y * k)
  }

  /** (p + q) / 2.0 */
  function Midpoint(p: Point, q: Point): Point {
    Times(Plus(p, q), 1.0 / 2.0)
  }

  /** p0 * (1 - w) + p1 * w */
  function Lerp(p0: Point, p1: Point, w: real): Point {
    Plus(Times(p0, 1.0 - w), Times(p1, w))
  }

  /** Four ordered corners: a marker outline or the board's outer boundary. */
  type Quad = q: seq<Point> | |q| == 4
    witness [Point(0.0, 0.0), Point(0.0, 0.0), Point(0.0, 0.0), Point(0.0, 0.0)]

  /** A gray or colour image: its size and an opaque handle for its pixels. */
  datatype Image = Image(cols: nat, rows: nat, pixels: nat)

  /** cv::Size (int width and height) */
  datatype Size = Size(width: int, height: int)

  /** A 3x3 projective transform, as findHomography returns it. */
  datatype Homography = Homography(h: seq<real>)

  /** cv::Matx33d in row-major order: entry (r, c) is at index 3 * r + c. */
  type Matx33 = m: seq<real> | |m| == 9
    witness [0.0, 0.0, 0.0, 0.0, 0.0, 0.0, 0.0, 0.0, 0.0]

  /** cv::Matx<double, 5, 1>: k1, k2, p1, p2, k3. */
  type DistCoeffs = d: seq<real> | |d| == 5
    witness [0.0, 0.0, 0.0, 0.0, 0.0]

  const ZeroMatx33: Matx33 := [0.0, 0.0, 0.0, 0.0, 0.0, 0.0, 0.0, 0.0, 0.0]
  const ZeroDistCoeffs: DistCoeffs := [0.0, 0.0, 0.0, 0.0, 0.0]

  /** The cv::CALIB_* flags the calibration styles use. */
  datatype CalibFlag =
    | UseIntrinsicGuess
    | FixPrincipalPoint
    | FixFocalLength
    | FixAspectRatio
    | ZeroTangentDist
    | FixK1
    | FixK2
    | FixK3

  /** One camera pose (rvec, tvec) of the board in one calibration image. */
  datatype Pose = Pose(rvec: Point3, tvec: Point3)

  /** One detected ArUco marker: its id and its four image corners. */
  datatype Detection = Detection(id: int, corners: Quad)

  /** Everything cv::calibrateCamera writes back. */
  datatype CalibrateOutput = CalibrateOutput(
    reproject_error: real,
    camera_matrix: Matx33,
    dist_coeffs: DistCoeffs,
    poses: seq<Pose>,
    std_deviations_intrinsics: seq<real>,
    std_deviations_extrinsics: seq<real>,
    per_view_errors: seq<real>)

  /** The foreign routines, as total functions of their inputs. */
  datatype Vision = Vision(
    // cv::aruco::detectMarkers; the flag selects precise (contour) corner refinement
    detect_markers: (Image, bool) -> seq<Detection>,
    // cv::findHomography(from, to)
    find_homography: (seq<Point>, seq<Point>) -> Homography,
    // cv::perspectiveTransform of one point
    perspective_transform: (Homography, Point) -> Point,
    // cv::cornerSubPix of one point with the given half window
    corner_sub_pix: (Image, Point, Size) -> Point,
    // cv::norm(p - q)
    norm: (Point, Point) -> real,
    // cv::calibrateCamera(object points, image points, size, camera matrix in, dist coeffs in, flags)
    calibrate_camera: (seq<seq<Point3>>, seq<seq<Point>>, Size, Matx33, DistCoeffs, set<CalibFlag>) -> CalibrateOutput,
    // cv::projectPoints of one point
    project_point: (Point3, Pose, Matx33, DistCoeffs) -> Point,
    // cv::cvtColor(gray, COLOR_GRAY2BGR)
    gray_to_color: Image -> Image)
}
