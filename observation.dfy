/** Marker observations (observation.hpp and map.cpp:14-55): one record per
    detected marker, the ordered container the localiser passes around, and
    their conversions to and from the fiducial_vlam_msgs messages. */
module FiducialObservations {

  /** Observation: a marker id and its four image corners (x0, y0) .. (x3, y3).
      The source's field constructor and const getters are this datatype's
      constructor and destructors; nothing updates a field afterwards. */
  datatype Observation = Observation(
    id: int,
    x0: real, y0: real,
    x1: real, y1: real,
    x2: real, y2: real,
    x3: real, y3: real)

  /** fiducial_vlam_msgs/msg/Observation */
  datatype ObservationMsg = ObservationMsg(
    id: int,
    x0: real, y0: real,
    x1: real, y1: real,
    x2: real, y2: real,
    x3: real, y3: real)

  /** std_msgs/msg/Header */
  datatype Header = Header(stamp: int, frame_id: string)

  /** sensor_msgs/msg/CameraInfo, carried through unchanged. */
  datatype CameraInfoMsg = CameraInfoMsg(content: nat)

  /** fiducial_vlam_msgs/msg/Observations */
  datatype ObservationsMsg = ObservationsMsg(
    header: Header,
    camera_info: CameraInfoMsg,
    observations: seq<ObservationMsg>)

  /** The explicit Observation(const msg &) constructor. */
  function OfMsg(m: ObservationMsg): (o: Observation)
    ensures o.id == m.id
    ensures o.x0 == m.x0 && o.y0 == m.y0 && o.x1 == m.x1 && o.y1 == m.y1
    ensures o.x2 == m.x2 && o.y2 == m.y2 && o.x3 == m.x3 && o.y3 == m.y3
  {
    Observation(m.id, m.x0, m.y0, m.x1, m.y1, m.x2, m.y2, m.x3, m.y3)
  }

  /** The per-observation body of Observations::to_msg. */
  function ToMsg(o: Observation): (m: ObservationMsg)
    ensures m.id == o.id
    ensures m.x0 == o.x0 && m.y0 == o.y0 && m.x1 == o.x1 && m.y1 == o.y1
    ensures m.x2 == o.x2 && m.y2 == o.y2 && m.x3 == o.x3 && m.y3 == o.y3
  {
    ObservationMsg(o.id, o.x0, o.y0, o.x1, o.y1, o.x2, o.y2, o.x3, o.y3)
  }

  /** Converting every message observation, in order. */
  function OfMsgs(ms: seq<ObservationMsg>): (os: seq<Observation>)
  {
    if ms == [] then [] else OfMsgs(ms[..|ms| - 1]) + [OfMsg(ms[|ms| - 1])]
  }

  /** Converting every observation to its message, in order. */
  function ToMsgs(os: seq<Observation>): (ms: seq<ObservationMsg>)
  {
    if os == [] then [] else ToMsgs(os[..|os| - 1]) + [ToMsg(os[|os| - 1])]
  }

  /** Both conversions keep the order: entry i of the result converts entry i. */
  lemma {:induction false} OfMsgsAt(ms: seq<ObservationMsg>)
    ensures |OfMsgs(ms)| == |ms|
    ensures forall i :: 0 <= i < |ms| ==> OfMsgs(ms)[i] == OfMsg(ms[i])
  {
    if ms != [] {
      OfMsgsAt(ms[..|ms| - 1]);
    }
  }

  lemma {:induction false} ToMsgsAt(os: seq<Observation>)
    ensures |ToMsgs(os)| == |os|
    ensures forall i :: 0 <= i < |os| ==> ToMsgs(os)[i] == ToMsg(os[i])
  {
    if os != [] {
      ToMsgsAt(os[..|os| - 1]);
    }
  }

  /** Sending observations as a message and reading them back is the identity,
      in both directions. */
  lemma {:induction false} MsgsRoundTrip(os: seq<Observation>, ms: seq<ObservationMsg>)
    ensures OfMsgs(ToMsgs(os)) == os
    ensures ToMsgs(OfMsgs(ms)) == ms
  {
    ToMsgsAt(os);
    OfMsgsAt(ToMsgs(os));
    OfMsgsAt(ms);
    ToMsgsAt(OfMsgs(ms));
  }

  /** Observations: the ordered list of observations of one frame. */
  class Observations {
    var observations: seq<Observation>

    /** Observations() = default */
    constructor ()
      ensures observations == []
    {
      observations := [];
    }

    /** Observations(const msg &): one observation per message entry, in order. */
    constructor FromMsg(msg: ObservationsMsg)
      ensures observations == OfMsgs(msg.observations)
    {
      observations := [];
      new;
      var i := 0;
      while i < |msg.observations|
        invariant 0 <= i <= |msg.observations|
        invariant observations == OfMsgs(msg.observations[..i])
      {
        assert msg.observations[..i + 1][..i] == msg.observations[..i];
        observations := observations + [OfMsg(msg.observations[i])];
        i := i + 1;
      }
      assert msg.observations[..i] == msg.observations;
    }

    /** size() */
    function Size(): (n: nat)
      reads this
      ensures n == |observations|
    {
      |observations|
    }

    /** add(): one more observation at the end. */
    method Add(observation: Observation)
      modifies this
      ensures observations == old(observations) + [observation]
    {
      observations := observations + [observation];
    }

    /** to_msg(stamp, frame_id, camera_info): the header, the camera info and
        every observation converted in order. */
    method ToObservationsMsg(stamp: int, frame_id: string, camera_info: CameraInfoMsg)
      returns (msg: ObservationsMsg)
      ensures msg.header == Header(stamp, frame_id) && msg.camera_info == camera_info
      ensures msg.observations == ToMsgs(observations)
      ensures OfMsgs(msg.observations) == observations
    {
      var out: seq<ObservationMsg> := [];
      var i := 0;
      while i < |observations|
        invariant 0 <= i <= |observations|
        invariant out == ToMsgs(observations[..i])
      {
        assert observations[..i + 1][..i] == observations[..i];
        out := out + [ToMsg(observations[i])];
        i := i + 1;
      }
      assert observations[..i] == observations;
      MsgsRoundTrip(observations, []);
      msg := ObservationsMsg(Header(stamp, frame_id), camera_info, out);
    }
  }
}
