/** Frames as the calibration code sees them (calibrate.cpp:43-141): the
    board layout it is configured with, one captured frame with its detected
    markers and projected board outline, and the ordered store of captured
    frames. */
module Frames {
  import opened Wrappers
  import opened Vision

  /** rclcpp::Time, in integer nanoseconds. */
  type Time = int

  /** Index of one of a marker's four corners. */
  type CornerIndex = i: int | 0 <= i < 4

  /** A marker next to a junction, and which of its corners is nearest the junction. */
  datatype Adjacent = Adjacent(aruco_id: int, closest_corner: CornerIndex)

  /** The parts of the ChArUco board configuration that the core queries. */
  datatype BoardLayout = BoardLayout(
    squares_x_m_1: nat,                     // junctions per row
    max_junction_id: nat,                   // junction ids are 0 .. max_junction_id - 1
    junction_location: nat -> Point,        // board-plane position of a junction
    adjacent_arucos: nat -> seq<Adjacent>,  // the markers touching a junction
    aruco_corners_f_facade: int -> Quad,    // board-plane corners of a marker id
    board_corners_f_facade: Quad)           // board-plane outer boundary

  /** ImageHolder: a gray frame, its stamp, the markers detected in it and the
      board boundary projected into it (None while no board was ever seen). */
  datatype ImageHolder = ImageHolder(
    gray: Image,
    time_stamp: Time,
    markers: seq<Detection>,
    board_corners: Option<Quad>)

  /** Board-plane corners of every detected marker, four per marker, in detection order. */
  function FacadeCorners(found: seq<Detection>, layout: BoardLayout): (r: seq<Point>)
    ensures |r| == 4 * |found|
  {
    if found == [] then []
    else layout.aruco_corners_f_facade(found[0].id) + FacadeCorners(found[1..], layout)
  }

  /** Image corners of every detected marker, four per marker, in detection order. */
  function ImageCorners(found: seq<Detection>): (r: seq<Point>)
    ensures |r| == 4 * |found|
  {
    if found == [] then [] else found[0].corners + ImageCorners(found[1..])
  }

  function ProjectQuad(homo: Homography, q: Quad, vision: Vision): Quad {
    [vision.perspective_transform(homo, q[0]), vision.perspective_transform(homo, q[1]),
     vision.perspective_transform(homo, q[2]), vision.perspective_transform(homo, q[3])]
  }

  /** ImageHolder::detect_markers: detect the markers again and, only when some
      were found, fit one homography to all their corners and project the board
      boundary through it; with no markers the old boundary is kept. */
  function DetectMarkers(h: ImageHolder, layout: BoardLayout, vision: Vision, precise: bool): (r: ImageHolder)
    ensures r.gray == h.gray && r.time_stamp == h.time_stamp
    ensures r.markers == vision.detect_markers(h.gray, precise)
    ensures r.markers == [] ==> r.board_corners == h.board_corners
    ensures r.markers != [] ==> r.board_corners.Some?
  {
    var found := vision.detect_markers(h.gray, precise);
    if found == [] then h.(markers := found)
    else
      var homo := vision.find_homography(FacadeCorners(found, layout), ImageCorners(found));
      h.(markers := found, board_corners := Some(ProjectQuad(homo, layout.board_corners_f_facade, vision)))
  }

  /** ImageHolder::make: a new frame with a quick (unrefined) detection. */
  function MakeImageHolder(gray: Image, time_stamp: Time, layout: BoardLayout, vision: Vision): (r: ImageHolder)
    ensures r.gray == gray && r.time_stamp == time_stamp
    ensures r.board_corners.Some? <==> vision.detect_markers(gray, false) != []
  {
    DetectMarkers(ImageHolder(gray, time_stamp, [], None), layout, vision, false)
  }

  /** CapturedImages: the ordered store of captured frames and the image size
      fixed when the store was made. */
  class CapturedImages {
    const image_size: Size
    var images: seq<ImageHolder>

    constructor (image_size: Size)
      ensures this.image_size == image_size && images == []
    {
      this.image_size := image_size;
      images := [];
    }

    /** CapturedImages::capture */
    method Capture(h: ImageHolder)
      modifies this
      ensures images == old(images) + [h]
    {
      images := images + [h];
    }
  }
}
