/** Finding the checkerboard junctions of one captured frame
    (calibrate.cpp:568-705): each detected marker gets its own homography, each
    junction is projected through the homographies of the markers that touch
    it, and the estimate is refined with a sub-pixel window that stays clear
    of the nearest marker corner. */
module Junctions {
  import opened Wrappers
  import opened Vision
  import opened Frames

  // ---------------------------------------------------------------------------
  // calculate_sub_pix_win_size
  // ---------------------------------------------------------------------------

  function Abs(r: real): real {
    if r < 0.0 then -r else r
  }

  function MinReal(a: real, b: real): real {
    if a < b then a else b
  }

  /** std::min(10, std::max(2, v)) */
  function ClampWin(v: int): int {
    if v < 2 then 2 else if v > 10 then 10 else v
  }

  /** The distance, along one axis, from the junction estimate to the nearest
      of the (at most two) closest marker corners. */
  function AxisGap(mean: real, c0: real, c1: Option<real>): real {
    match c1
    case None => Abs(mean - c0)
    case Some(v) => MinReal(Abs(mean - c0), Abs(mean - v))
  }

  /** The largest whole window, in [2, 10], that stays at least one pixel short
      of the gap (only the first two corners are looked at). */
  function SubPixWinSize(mean: Point, closest: seq<Point>): (win: Size)
    requires |closest| >= 1
    ensures 2 <= win.width <= 10 && 2 <= win.height <= 10
    ensures forall i :: 0 <= i < |closest| && i < 2 ==>
              && (win.width > 2 ==> (win.width + 1) as real <= Abs(mean.x - closest[i].x))
              && (win.height > 2 ==> (win.height + 1) as real <= Abs(mean.y - closest[i].y))
    ensures win.width < 10 ==>
              Abs(mean.x - closest[0].x) < (win.width + 2) as real ||
              (|closest| > 1 && Abs(mean.x - closest[1].x) < (win.width + 2) as real)
    ensures win.height < 10 ==>
              Abs(mean.y - closest[0].y) < (win.height + 2) as real ||
              (|closest| > 1 && Abs(mean.y - closest[1].y) < (win.height + 2) as real)
  {
    var c1 := if |closest| > 1 then Some(closest[1]) else None;
    var gx := AxisGap(mean.x, closest[0].x, if |closest| > 1 then Some(closest[1].x) else None);
    var gy := AxisGap(mean.y, closest[0].y, if |closest| > 1 then Some(closest[1].y) else None);
    Size(ClampWin(gx.Floor - 1), ClampWin(gy.Floor - 1))
  }

  // ---------------------------------------------------------------------------
  // calculate_markers_homography
  // ---------------------------------------------------------------------------

  /** A marker's homography from the board plane to the image, and which
      detection it came from. */
  datatype MarkerHomography = MarkerHomography(homo: Homography, index: nat)

  function MarkerHomographyAt(h: ImageHolder, layout: BoardLayout, vision: Vision, idx: nat): MarkerHomography
    requires idx < |h.markers|
  {
    MarkerHomography(
      vision.find_homography(layout.aruco_corners_f_facade(h.markers[idx].id), h.markers[idx].corners), idx)
  }

  /** The map after the first n detections: std::map::emplace leaves an
      existing id alone, so the first detection of an id wins. */
  function MarkersHomography(h: ImageHolder, layout: BoardLayout, vision: Vision, n: nat): (mh: map<int, MarkerHomography>)
    requires n <= |h.markers|
    ensures forall id :: id in mh ==> mh[id].index < n
  {
    if n == 0 then map[]
    else
      var mh := MarkersHomography(h, layout, vision, n - 1);
      var id := h.markers[n - 1].id;
      if id in mh then mh else mh[id := MarkerHomographyAt(h, layout, vision, n - 1)]
  }

  /** The ids with an entry are exactly those among the first n detections. */
  ghost predicate KeysAreDetected(h: ImageHolder, mh: map<int, MarkerHomography>, n: nat)
    requires n <= |h.markers|
  {
    forall id :: id in mh <==> exists k :: 0 <= k < n && h.markers[k].id == id
  }

  /** Each entry is built from the first detection of its id. */
  ghost predicate FromFirstDetection(h: ImageHolder, layout: BoardLayout, vision: Vision, mh: map<int, MarkerHomography>)
  {
    forall id :: id in mh ==>
      && mh[id].index < |h.markers|
      && h.markers[mh[id].index].id == id
      && (forall k :: 0 <= k < mh[id].index ==> h.markers[k].id != id)
      && mh[id] == MarkerHomographyAt(h, layout, vision, mh[id].index)
  }

  /** Every detected id has an entry, built from its first detection. */
  lemma {:induction false} MarkersHomographyFirstWins(h: ImageHolder, layout: BoardLayout, vision: Vision, n: nat)
    requires n <= |h.markers|
    ensures KeysAreDetected(h, MarkersHomography(h, layout, vision, n), n)
    ensures FromFirstDetection(h, layout, vision, MarkersHomography(h, layout, vision, n))
  {
    if n > 0 {
      var mh0 := MarkersHomography(h, layout, vision, n - 1);
      MarkersHomographyFirstWins(h, layout, vision, n - 1);
      assert KeysAreDetected(h, mh0, n - 1);
      assert FromFirstDetection(h, layout, vision, mh0);
      var mh := MarkersHomography(h, layout, vision, n);
      var id0 := h.markers[n - 1].id;
      assert mh == if id0 in mh0 then mh0 else mh0[id0 := MarkerHomographyAt(h, layout, vision, n - 1)];
      forall id
        ensures id in mh <==> exists k :: 0 <= k < n && h.markers[k].id == id
      {
        if exists k :: 0 <= k < n && h.markers[k].id == id {
          var k :| 0 <= k < n && h.markers[k].id == id;
          if k < n - 1 {
            assert id in mh0;
          }
        }
        if id in mh && id != id0 {
          assert id in mh0;
          var k :| 0 <= k < n - 1 && h.markers[k].id == id;
          assert 0 <= k < n;
        }
        if id == id0 {
          assert h.markers[n - 1].id == id;
        }
      }
      forall id | id in mh
        ensures mh[id].index < |h.markers|
        ensures h.markers[mh[id].index].id == id
        ensures forall k :: 0 <= k < mh[id].index ==> h.markers[k].id != id
        ensures mh[id] == MarkerHomographyAt(h, layout, vision, mh[id].index)
      {
        if id !in mh0 {
          assert id == id0 && mh[id].index == n - 1;
        } else {
          assert mh[id] == mh0[id];
        }
      }
    }
  }

  /** calculate_markers_homography */
  method CalculateMarkersHomography(h: ImageHolder, layout: BoardLayout, vision: Vision)
    returns (mh: map<int, MarkerHomography>)
    ensures mh == MarkersHomography(h, layout, vision, |h.markers|)
  {
    mh := map[];
    var idx := 0;
    while idx < |h.markers|
      invariant 0 <= idx <= |h.markers|
      invariant mh == MarkersHomography(h, layout, vision, idx)
    {
      var aruco_id := h.markers[idx].id;
      var homo := vision.find_homography(layout.aruco_corners_f_facade(aruco_id), h.markers[idx].corners);
      if aruco_id !in mh {
        mh := mh[aruco_id := MarkerHomography(homo, idx)];
      }
      idx := idx + 1;
    }
  }

  // ---------------------------------------------------------------------------
  // interpolate_junction_locations
  // ---------------------------------------------------------------------------

  /** One adjacent marker's opinion: where it puts the junction in the image,
      and where its corner nearest the junction is. */
  datatype Candidate = Candidate(junction_f_image: Point, closest_corner_f_image: Point)

  predicate IndexesMarkers(h: ImageHolder, mh: map<int, MarkerHomography>) {
    forall id :: id in mh ==> mh[id].index < |h.markers|
  }

  /** The candidates from the adjacent markers that were detected, in adjacency order. */
  function Candidates(h: ImageHolder, mh: map<int, MarkerHomography>, adj: seq<Adjacent>, loc: Point, vision: Vision)
    : (c: seq<Candidate>)
    requires IndexesMarkers(h, mh)
    ensures |c| <= |adj|
    ensures c == [] <==> forall i :: 0 <= i < |adj| ==> adj[i].aruco_id !in mh
  {
    if adj == [] then []
    else
      var c := Candidates(h, mh, adj[..|adj| - 1], loc, vision);
      var a := adj[|adj| - 1];
      if a.aruco_id in mh then
        var m := mh[a.aruco_id];
        c + [Candidate(vision.perspective_transform(m.homo, loc), h.markers[m.index].corners[a.closest_corner])]
      else c
  }

  function ClosestCorners(c: seq<Candidate>): (r: seq<Point>)
    ensures |r| == |c| && forall i :: 0 <= i < |c| ==> r[i] == c[i].closest_corner_f_image
  {
    seq(|c|, i requires 0 <= i < |c| => c[i].closest_corner_f_image)
  }

  /** The junction estimate: the one candidate, or the average of the first two. */
  function MeanJunction(c: seq<Candidate>): Point
    requires |c| >= 1
  {
    if |c| > 1 then Midpoint(c[0].junction_f_image, c[1].junction_f_image) else c[0].junction_f_image
  }

  /** One found junction: its board point (z = 0) and its refined image point. */
  datatype Found = Found(f_board: Point3, f_image: Point)

  /** What the loop body does for one junction id: nothing when no adjacent
      marker was detected, else the refined junction. */
  function JunctionAt(h: ImageHolder, layout: BoardLayout, vision: Vision, mh: map<int, MarkerHomography>, id: nat)
    : (r: Option<Found>)
    requires IndexesMarkers(h, mh)
    ensures r.None? <==> forall i :: 0 <= i < |layout.adjacent_arucos(id)| ==> layout.adjacent_arucos(id)[i].aruco_id !in mh
    ensures r.Some? ==> r.value.f_board == Point3(layout.junction_location(id).x, layout.junction_location(id).y, 0.0)
  {
    var loc := layout.junction_location(id);
    var c := Candidates(h, mh, layout.adjacent_arucos(id), loc, vision);
    if c == [] then None
    else
      var mean := MeanJunction(c);
      var win := SubPixWinSize(mean, ClosestCorners(c));
      Some(Found(Point3(loc.x, loc.y, 0.0), vision.corner_sub_pix(h.gray, mean, win)))
  }

  /** The three lists interpolate_junction_locations appends for one image. */
  datatype ImageJunctions = ImageJunctions(f_board: seq<Point3>, f_image: seq<Point>, id_index_map: map<int, nat>)

  /** What the loop body finds for each junction id of one frame. */
  function FoundAt(h: ImageHolder, layout: BoardLayout, vision: Vision, mh: map<int, MarkerHomography>)
    : (at: nat --> Option<Found>)
    requires IndexesMarkers(h, mh)
    ensures forall id :: at.requires(id)
  {
    (id: nat) requires IndexesMarkers(h, mh) => JunctionAt(h, layout, vision, mh, id)
  }

  /** The lists after walking ids 0 .. n - 1, appending each junction found
      and mapping its id to its position. */
  function Collect(at: nat --> Option<Found>, n: nat): ImageJunctions
    requires forall id :: at.requires(id)
  {
    if n == 0 then ImageJunctions([], [], map[])
    else
      var j := Collect(at, n - 1);
      match at(n - 1)
      case None => j
      case Some(f) =>
        ImageJunctions(j.f_board + [f.f_board], j.f_image + [f.f_image], j.id_index_map[n - 1 := |j.f_board|])
  }

  /** The lists after walking junction ids 0 .. n - 1 of one frame. */
  function Interpolated(h: ImageHolder, layout: BoardLayout, vision: Vision, mh: map<int, MarkerHomography>, n: nat)
    : ImageJunctions
    requires IndexesMarkers(h, mh)
  {
    Collect(FoundAt(h, layout, vision, mh), n)
  }

  /** The keys are exactly the ids below n at which a junction was found. */
  ghost predicate KeysAreFound(at: nat --> Option<Found>, n: nat, j: ImageJunctions)
    requires forall id :: at.requires(id)
  {
    forall id :: id in j.id_index_map <==> 0 <= id < n && at(id).Some?
  }

  /** Every junction found lies on the board plane z = 0. */
  ghost predicate OnBoardPlane(at: nat --> Option<Found>)
    requires forall id :: at.requires(id)
  {
    forall id :: at(id).Some? ==> at(id).value.f_board.z == 0.0
  }

  /** Board and image points grow in lockstep, one map entry per point, every
      board point on the plane z = 0, every index inside the lists. */
  ghost predicate Lockstep(j: ImageJunctions) {
    && |j.f_board| == |j.f_image| == |j.id_index_map|
    && (forall k :: 0 <= k < |j.f_board| ==> j.f_board[k].z == 0.0)
    && (forall id :: id in j.id_index_map ==> j.id_index_map[id] < |j.f_board|)
  }

  /** Each key is sent to the position of its own junction. */
  ghost predicate IndexesOwnJunction(at: nat --> Option<Found>, j: ImageJunctions)
    requires forall id :: at.requires(id)
    requires Lockstep(j)
  {
    forall id :: id in j.id_index_map ==>
      Some(Found(j.f_board[j.id_index_map[id]], j.f_image[j.id_index_map[id]])) == at(id)
  }

  /** Positions increase with the junction id. */
  ghost predicate Ascending(j: ImageJunctions) {
    forall a, b :: a in j.id_index_map && b in j.id_index_map && a < b ==> j.id_index_map[a] < j.id_index_map[b]
  }

  lemma {:induction false} CollectKeys(at: nat --> Option<Found>, n: nat)
    requires forall id :: at.requires(id)
    ensures KeysAreFound(at, n, Collect(at, n))
  {
    if n > 0 {
      CollectKeys(at, n - 1);
    }
  }

  lemma {:induction false} CollectSizes(at: nat --> Option<Found>, n: nat)
    requires forall id :: at.requires(id)
    ensures var j := Collect(at, n);
      && |j.f_board| == |j.f_image| == |j.id_index_map|
      && (forall id :: id in j.id_index_map ==> j.id_index_map[id] < |j.f_board|)
  {
    if n > 0 {
      CollectSizes(at, n - 1);
      CollectKeys(at, n - 1);
      var j := Collect(at, n - 1);
      if at(n - 1).Some? {
        var m := j.id_index_map[n - 1 := |j.f_board|];
        assert n - 1 !in j.id_index_map;
        assert m.Keys == j.id_index_map.Keys + {n - 1};
        assert |m| == |j.id_index_map| + 1;
      }
    }
  }

  lemma {:induction false} CollectPlane(at: nat --> Option<Found>, n: nat)
    requires forall id :: at.requires(id)
    requires OnBoardPlane(at)
    ensures forall k :: 0 <= k < |Collect(at, n).f_board| ==> Collect(at, n).f_board[k].z == 0.0
  {
    if n > 0 {
      CollectPlane(at, n - 1);
      var j := Collect(at, n - 1);
      var r := at(n - 1);
      if r.Some? {
        assert r.value.f_board.z == 0.0;
        var b := j.f_board + [r.value.f_board];
        forall k | 0 <= k < |b| ensures b[k].z == 0.0 {
          if k < |j.f_board| {
            assert b[k] == j.f_board[k];
          } else {
            assert b[k] == r.value.f_board;
          }
        }
      }
    }
  }

  lemma CollectLockstep(at: nat --> Option<Found>, n: nat)
    requires forall id :: at.requires(id)
    requires OnBoardPlane(at)
    ensures Lockstep(Collect(at, n))
  {
    CollectSizes(at, n);
    CollectPlane(at, n);
  }

  lemma {:induction false} CollectIndexes(at: nat --> Option<Found>, n: nat)
    requires forall id :: at.requires(id)
    requires OnBoardPlane(at)
    ensures Lockstep(Collect(at, n))
    ensures IndexesOwnJunction(at, Collect(at, n))
  {
    CollectLockstep(at, n);
    if n > 0 {
      CollectIndexes(at, n - 1);
      var j := Collect(at, n - 1);
      var r := at(n - 1);
      if r.Some? {
        var j' := Collect(at, n);
        assert j'.f_board == j.f_board + [r.value.f_board] && j'.f_image == j.f_image + [r.value.f_image];
        assert j'.id_index_map == j.id_index_map[n - 1 := |j.f_board|];
        forall id | id in j'.id_index_map
          ensures Some(Found(j'.f_board[j'.id_index_map[id]], j'.f_image[j'.id_index_map[id]])) == at(id)
        {
          if id != n - 1 {
            var k := j.id_index_map[id];
            assert j'.id_index_map[id] == k;
            assert j'.f_board[k] == j.f_board[k] && j'.f_image[k] == j.f_image[k];
          }
        }
      }
    }
  }

  lemma {:induction false} CollectAscending(at: nat --> Option<Found>, n: nat)
    requires forall id :: at.requires(id)
    requires OnBoardPlane(at)
    ensures Ascending(Collect(at, n))
  {
    if n > 0 {
      CollectAscending(at, n - 1);
      CollectLockstep(at, n - 1);
      CollectKeys(at, n - 1);
      var j := Collect(at, n - 1);
      if at(n - 1).Some? {
        var m := j.id_index_map[n - 1 := |j.f_board|];
        forall a, b | a in m && b in m && a < b ensures m[a] < m[b] {
          if b == n - 1 {
            assert a in j.id_index_map;
          } else {
            assert a in j.id_index_map && b in j.id_index_map;
          }
        }
      }
    }
  }

  /** For one image: board and image points in lockstep, one map entry per
      point, all board points with z = 0, keys exactly the ids below n whose
      adjacent markers include a detected one, each key sent to the position of
      its own junction, positions increasing with the id. */
  lemma InterpolatedShape(h: ImageHolder, layout: BoardLayout, vision: Vision,
                          mh: map<int, MarkerHomography>, n: nat)
    requires IndexesMarkers(h, mh)
    ensures var j := Interpolated(h, layout, vision, mh, n);
      && Lockstep(j)
      && (forall id :: id in j.id_index_map <==> 0 <= id < n && JunctionAt(h, layout, vision, mh, id).Some?)
      && (forall id :: id in j.id_index_map ==>
            Some(Found(j.f_board[j.id_index_map[id]], j.f_image[j.id_index_map[id]]))
            == JunctionAt(h, layout, vision, mh, id))
      && Ascending(j)
  {
    var at := FoundAt(h, layout, vision, mh);
    assert OnBoardPlane(at);
    CollectKeys(at, n);
    CollectIndexes(at, n);
    CollectAscending(at, n);
  }

  /** The inner loop of interpolate_junction_locations: one candidate per
      adjacent marker that was detected. */
  method CollectCandidates(h: ImageHolder, mh: map<int, MarkerHomography>, adjacent: seq<Adjacent>,
                           junction_location: Point, vision: Vision)
    returns (local: seq<Candidate>)
    requires IndexesMarkers(h, mh)
    ensures local == Candidates(h, mh, adjacent, junction_location, vision)
  {
    local := [];
    var i := 0;
    while i < |adjacent|
      invariant 0 <= i <= |adjacent|
      invariant local == Candidates(h, mh, adjacent[..i], junction_location, vision)
    {
      assert adjacent[..i + 1][..i] == adjacent[..i];
      var aruco_id := adjacent[i].aruco_id;
      if aruco_id in mh {
        var m := mh[aruco_id];
        local := local + [Candidate(vision.perspective_transform(m.homo, junction_location),
                                    h.markers[m.index].corners[adjacent[i].closest_corner])];
      }
      i := i + 1;
    }
    assert adjacent[..|adjacent|] == adjacent;
  }

  /** interpolate_junction_locations for one frame (the annotation of the
      marked image is drawing and is not modelled). */
  method InterpolateJunctionLocations(h: ImageHolder, layout: BoardLayout, vision: Vision)
    returns (j: ImageJunctions)
    ensures var mh := MarkersHomography(h, layout, vision, |h.markers|);
      j == Interpolated(h, layout, vision, mh, layout.max_junction_id)
  {
    var markers_homography := CalculateMarkersHomography(h, layout, vision);
    var js_f_board: seq<Point3> := [];
    var js_f_image: seq<Point> := [];
    var j_id_index_map: map<int, nat> := map[];
    var junction_id: nat := 0;
    while junction_id < layout.max_junction_id
      invariant junction_id <= layout.max_junction_id
      invariant ImageJunctions(js_f_board, js_f_image, j_id_index_map)
                == Interpolated(h, layout, vision, markers_homography, junction_id)
    {
      var found := LocateJunction(h, layout, vision, markers_homography, junction_id);
      if found.Some? {
        var index := |js_f_board|;
        js_f_board := js_f_board + [found.value.f_board];
        js_f_image := js_f_image + [found.value.f_image];
        j_id_index_map := j_id_index_map[junction_id := index];
      }
      junction_id := junction_id + 1;
    }
    j := ImageJunctions(js_f_board, js_f_image, j_id_index_map);
  }

  /** The body of the junction loop for one id: the candidates, their mean,
      the refinement window and the refined corner. */
  method LocateJunction(h: ImageHolder, layout: BoardLayout, vision: Vision, mh: map<int, MarkerHomography>,
                        junction_id: nat)
    returns (found: Option<Found>)
    requires IndexesMarkers(h, mh)
    ensures found == JunctionAt(h, layout, vision, mh, junction_id)
  {
    var adjacent := layout.adjacent_arucos(junction_id);
    var junction_location := layout.junction_location(junction_id);
    var local := CollectCandidates(h, mh, adjacent, junction_location, vision);
    if |local| >= 1 {
      var mean := local[0].junction_f_image;
      if |local| > 1 {
        mean := Midpoint(local[0].junction_f_image, local[1].junction_f_image);
      }
      var win_size := SubPixWinSize(mean, ClosestCorners(local));
      var refined := vision.corner_sub_pix(h.gray, mean, win_size);
      found := Some(Found(Point3(junction_location.x, junction_location.y, 0.0), refined));
    } else {
      found := None;
    }
  }

  /** All of one frame's junctions: ids 0 .. max_junction_id - 1 against the
      frame's own marker homographies. */
  function JunctionsOf(h: ImageHolder, layout: BoardLayout, vision: Vision): ImageJunctions {
    Interpolated(h, layout, vision, MarkersHomography(h, layout, vision, |h.markers|), layout.max_junction_id)
  }
}
