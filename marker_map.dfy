/** The marker map used by localisation (map.cpp:57-129): markers keyed by
    their id, each with its pose in the map frame and a "fixed" flag, and the
    conversions to and from fiducial_vlam_msgs/Map. */
module MarkerMap {
  import opened Wrappers
  import opened FiducialObservations

  /** TransformWithCovariance: the default constructor makes an invalid
      transform; every other constructor makes a valid one (mu is x, y, z,
      roll, pitch, yaw; cov the 6x6 covariance). */
  datatype TransformWithCovariance =
    | DefaultTransform
    | TransformWithCovariance(mu: seq<real>, cov: seq<real>)
  {
    predicate IsValid() {
      TransformWithCovariance?
    }
  }

  /** geometry_msgs/PoseWithCovariance, as mu and covariance. */
  datatype PoseWithCovarianceMsg = PoseWithCovarianceMsg(mu: seq<real>, cov: seq<real>)

  /** to_PoseWithCovariance_msg */
  function ToPoseMsg(t: TransformWithCovariance): PoseWithCovarianceMsg {
    match t
    case DefaultTransform => PoseWithCovarianceMsg([], [])
    case TransformWithCovariance(mu, cov) => PoseWithCovarianceMsg(mu, cov)
  }

  /** to_TransformWithCovariance: a transform built from a message is valid. */
  function OfPoseMsg(m: PoseWithCovarianceMsg): (t: TransformWithCovariance)
    ensures t.IsValid()
  {
    TransformWithCovariance(m.mu, m.cov)
  }

  /** Marker: id, pose of the marker in the map frame, and whether that pose is fixed. */
  datatype Marker = Marker(id: int, t_map_marker: TransformWithCovariance, is_fixed: bool)

  /** fiducial_vlam_msgs/msg/Map: parallel lists indexed by marker. */
  datatype MapMsg = MapMsg(
    header: Header,
    ids: seq<int>,
    poses: seq<PoseWithCovarianceMsg>,
    fixed_flags: seq<int>,
    marker_length: real,
    map_style: int)

  predicate ParallelLists(msg: MapMsg) {
    |msg.ids| == |msg.poses| == |msg.fixed_flags|
  }

  predicate DistinctIds(ids: seq<int>) {
    forall i, j :: 0 <= i < j < |ids| ==> ids[i] != ids[j]
  }

  /** Every marker is stored under its own id. */
  ghost predicate WellKeyed(markers: map<int, Marker>) {
    forall id :: id in markers ==> markers[id].id == id
  }

  /** The marker that entry i of a map message describes. */
  function MarkerOfMsg(msg: MapMsg, i: nat): Marker
    requires ParallelLists(msg) && i < |msg.ids|
  {
    Marker(msg.ids[i], OfPoseMsg(msg.poses[i]), msg.fixed_flags[i] != 0)
  }

  /** The markers of the first n entries of a map message, each added under its id. */
  function MsgMarkers(msg: MapMsg, n: nat): map<int, Marker>
    requires ParallelLists(msg) && n <= |msg.ids|
  {
    if n == 0 then map[] else MsgMarkers(msg, n - 1)[msg.ids[n - 1] := MarkerOfMsg(msg, n - 1)]
  }

  /** With distinct ids, the first n entries give exactly their ids as keys,
      each mapped to the marker its entry describes. */
  lemma {:induction false} MsgMarkersAt(msg: MapMsg, n: nat)
    requires ParallelLists(msg) && n <= |msg.ids| && DistinctIds(msg.ids)
    ensures forall id :: id in MsgMarkers(msg, n) <==> id in msg.ids[..n]
    ensures forall i :: 0 <= i < n ==> MsgMarkers(msg, n)[msg.ids[i]] == MarkerOfMsg(msg, i)
    ensures WellKeyed(MsgMarkers(msg, n))
  {
    if n > 0 {
      MsgMarkersAt(msg, n - 1);
      assert msg.ids[..n] == msg.ids[..n - 1] + [msg.ids[n - 1]];
    }
  }

  /** A message pose read back gives the valid transform it was made from. */
  lemma PoseMsgRoundTrip(t: TransformWithCovariance)
    requires t.IsValid()
    ensures OfPoseMsg(ToPoseMsg(t)) == t
  {
  }

  /** What Map::to_map_msg promises about its message: parallel lists in
      ascending id order, one entry per marker, carrying that marker's pose and
      its fixed flag as 1 or 0. */
  ghost predicate DescribesMarkers(msg: MapMsg, markers: map<int, Marker>) {
    && ParallelLists(msg)
    && |msg.ids| == |markers|
    && (forall i, j :: 0 <= i < j < |msg.ids| ==> msg.ids[i] < msg.ids[j])
    && (forall id :: id in markers <==> id in msg.ids)
    && (forall i :: 0 <= i < |msg.ids| ==>
          (&& msg.ids[i] in markers
           && msg.poses[i] == ToPoseMsg(markers[msg.ids[i]].t_map_marker)
           && msg.fixed_flags[i] == (if markers[msg.ids[i]].is_fixed then 1 else 0)))
  }

  /** A well-keyed set of markers with valid poses survives a trip through
      to_map_msg and Map(msg) unchanged. */
  lemma MapMsgRoundTrip(markers: map<int, Marker>, msg: MapMsg)
    requires WellKeyed(markers)
    requires forall id :: id in markers ==> markers[id].t_map_marker.IsValid()
    requires DescribesMarkers(msg, markers)
    ensures DistinctIds(msg.ids)
    ensures MsgMarkers(msg, |msg.ids|) == markers
  {
    var n := |msg.ids|;
    assert DistinctIds(msg.ids) by {
      forall i, j | 0 <= i < j < n ensures msg.ids[i] != msg.ids[j] {
        assert msg.ids[i] < msg.ids[j];
      }
    }
    MsgMarkersAt(msg, n);
    assert msg.ids[..n] == msg.ids;
    var m := MsgMarkers(msg, n);
    forall id | id in markers ensures id in m && m[id] == markers[id] {
      var i :| 0 <= i < n && msg.ids[i] == id;
      PoseMsgRoundTrip(markers[id].t_map_marker);
      assert m[msg.ids[i]] == MarkerOfMsg(msg, i);
    }
    forall id | id in m ensures id in markers {
      assert id in msg.ids;
    }
  }

  /** An id-sorted walk needs the smallest remaining key. */
  lemma {:induction false} MinimumExists(s: set<int>)
    requires s != {}
    ensures exists k :: k in s && forall r :: r in s ==> k <= r
  {
    Inhabited(s);
    var x :| x in s;
    if s != {x} {
      MinimumExists(s - {x});
      var k :| k in s - {x} && forall r :: r in s - {x} ==> k <= r;
      var least := if x < k then x else k;
      forall r | r in s ensures least <= r {
        if r != x { assert r in s - {x}; }
      }
      assert least in s;
    } else {
      assert forall r :: r in s ==> x <= r;
    }
  }

  /** Map: the markers of one map, keyed by marker id. */
  class Map {
    const map_style: int
    const marker_length: real
    var markers: map<int, Marker>

    ghost predicate Valid()
      reads this
    {
      WellKeyed(markers)
    }

    /** Map(map_style, marker_length): an empty map. */
    constructor (map_style: int, marker_length: real)
      ensures Valid()
      ensures this.map_style == map_style && this.marker_length == marker_length
      ensures markers == map[]
    {
      this.map_style := map_style;
      this.marker_length := marker_length;
      markers := map[];
    }

    /** Map(msg): one marker per message entry, fixed iff its flag is non-zero.
        add_marker asserts that every id is new, so the ids must be distinct. */
    constructor FromMsg(msg: MapMsg)
      requires ParallelLists(msg) && DistinctIds(msg.ids)
      ensures Valid()
      ensures map_style == msg.map_style && marker_length == msg.marker_length
      ensures markers == MsgMarkers(msg, |msg.ids|)
      ensures forall id :: id in markers <==> id in msg.ids
      ensures forall i :: 0 <= i < |msg.ids| ==>
                markers[msg.ids[i]] == Marker(msg.ids[i], OfPoseMsg(msg.poses[i]), msg.fixed_flags[i] != 0)
    {
      map_style := msg.map_style;
      marker_length := msg.marker_length;
      markers := map[];
      new;
      var i := 0;
      while i < |msg.ids|
        invariant 0 <= i <= |msg.ids|
        invariant markers == MsgMarkers(msg, i)
      {
        MsgMarkersAt(msg, i);
        assert msg.ids[i] !in msg.ids[..i];
        AddMarker(MarkerOfMsg(msg, i));
        i := i + 1;
      }
      MsgMarkersAt(msg, i);
      assert msg.ids[..i] == msg.ids;
    }

    /** find_marker / find_marker_const: the stored marker, or None (a null
        pointer) exactly when the id is not a key. */
    method FindMarker(id: int) returns (r: Option<Marker>)
      ensures r.None? <==> id !in markers
      ensures r.Some? ==> id in markers && r.value == markers[id]
    {
      r := if id in markers then Some(markers[id]) else None;
    }

    /** add_marker: the id must be new; afterwards it finds this marker and
        every other id is as before. */
    method AddMarker(marker: Marker)
      requires Valid()
      requires marker.id !in markers
      modifies this
      ensures Valid()
      ensures markers == old(markers)[marker.id := marker]
    {
      markers := markers[marker.id := marker];
    }

    /** reset(map): clear, then add a copy of every marker of the other map.
        Resetting a map from itself therefore empties it. */
    method Reset(other: Map)
      requires Valid() && other.Valid()
      requires map_style == other.map_style && marker_length == other.marker_length
      modifies this
      ensures Valid()
      ensures markers == if other == this then map[] else old(other.markers)
    {
      markers := map[];
      var source := other.markers;
      var remaining := source.Keys;
      while remaining != {}
        invariant Valid() && WellKeyed(source)
        invariant source == if other == this then map[] else old(other.markers)
        invariant remaining <= source.Keys
        invariant markers.Keys == source.Keys - remaining
        invariant forall id :: id in markers ==> markers[id] == source[id]
        decreases remaining
      {
        Inhabited(remaining);
        var id :| id in remaining;
        AddMarker(source[id]);
        remaining := remaining - {id};
      }
      forall id | id in source ensures id in markers {
        assert id !in remaining;
      }
      assert markers.Keys == source.Keys;
      assert forall id :: id in markers ==> markers[id] == source[id];
      assert markers == source;
    }

    /** find_t_map_markers: one transform per observation, in observation
        order: the stored marker's pose, or the default (invalid) transform for
        an unknown id. */
    method FindTMapMarkers(observations: Observations) returns (t_map_markers: seq<TransformWithCovariance>)
      ensures |t_map_markers| == |observations.observations|
      ensures forall i :: 0 <= i < |t_map_markers| ==>
                var id := observations.observations[i].id;
                t_map_markers[i] == if id in markers then markers[id].t_map_marker else DefaultTransform
      ensures forall i :: 0 <= i < |t_map_markers| ==>
                (t_map_markers[i].IsValid() ==> observations.observations[i].id in markers)
    {
      var obs := observations.observations;
      t_map_markers := [];
      var i := 0;
      while i < |obs|
        invariant 0 <= i <= |obs|
        invariant |t_map_markers| == i
        invariant forall k :: 0 <= k < i ==>
                    t_map_markers[k] == if obs[k].id in markers then markers[obs[k].id].t_map_marker else DefaultTransform
      {
        var marker := FindMarker(obs[i].id);
        t_map_markers := t_map_markers + [if marker.Some? then marker.value.t_map_marker else DefaultTransform];
        i := i + 1;
      }
    }

    /** The marker ids in ascending order, as iterating the std::map yields them. */
    method AscendingIds() returns (ids: seq<int>)
      ensures |ids| == |markers.Keys|
      ensures forall i, j :: 0 <= i < j < |ids| ==> ids[i] < ids[j]
      ensures forall id :: id in markers <==> id in ids
    {
      ids := [];
      var remaining := markers.Keys;
      while remaining != {}
        invariant remaining <= markers.Keys
        invariant |ids| + |remaining| == |markers.Keys|
        invariant forall i, j :: 0 <= i < j < |ids| ==> ids[i] < ids[j]
        invariant forall i, r :: 0 <= i < |ids| && r in remaining ==> ids[i] < r
        invariant forall id :: id in markers <==> id in remaining || id in ids
        decreases remaining
      {
        MinimumExists(remaining);
        var id :| id in remaining && forall r :: r in remaining ==> id <= r;
        ids := ids + [id];
        remaining := remaining - {id};
      }
    }

    /** to_map_msg: walk the markers in ascending id order, emitting parallel
        ids, poses and fixed flags, and copy the marker length and map style. */
    method ToMapMsg(header: Header) returns (msg: MapMsg)
      requires Valid()
      ensures DescribesMarkers(msg, markers)
      ensures msg.header == header
      ensures msg.marker_length == marker_length && msg.map_style == map_style
    {
      var ids := AscendingIds();
      forall k | 0 <= k < |ids| ensures ids[k] in markers {
        assert ids[k] in ids;
      }
      var poses: seq<PoseWithCovarianceMsg> := [];
      var flags: seq<int> := [];
      var i := 0;
      while i < |ids|
        invariant 0 <= i <= |ids|
        invariant |poses| == |flags| == i
        invariant forall k :: 0 <= k < |ids| ==> ids[k] in markers
        invariant forall k :: 0 <= k < i ==>
                    (&& poses[k] == ToPoseMsg(markers[ids[k]].t_map_marker)
                     && flags[k] == (if markers[ids[k]].is_fixed then 1 else 0))
      {
        var marker := markers[ids[i]];
        poses := poses + [ToPoseMsg(marker.t_map_marker)];
        flags := flags + [if marker.is_fixed then 1 else 0];
        i := i + 1;
      }
      msg := MapMsg(header, ids, poses, flags, marker_length, map_style);
    }
  }
}
