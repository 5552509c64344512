/** Fingertip extraction with per-id smoothing, and the simple finger-up flags.
    The landmark list is a parameter: it stands for what the pose estimator
    returned for the current frame. */
module HandTracking {
  import opened Wrappers
  import opened Landmarks
  import Gesture

  /** `int(0.5 * current + 0.5 * previous)`: the halves add up exactly, and
      `int` truncates toward zero. So the result is the midpoint, rounded
      toward zero when the sum is odd, and it never leaves the interval
      between the two inputs. */
  function SmoothCoordinate(current: int, previous: int): (r: int)
    ensures current + previous >= 0 ==> 0 <= (current + previous) - 2 * r <= 1
    ensures current + previous < 0 ==> 0 <= 2 * r - (current + previous) <= 1
    ensures current <= previous ==> current <= r <= previous
    ensures previous <= current ==> previous <= r <= current
  {
    var sum := current + previous;
    if sum >= 0 then sum / 2 else -((-sum) / 2)
  }

  function Smooth(current: Point, previous: Point): Point
  {
    (SmoothCoordinate(current.0, previous.0), SmoothCoordinate(current.1, previous.1))
  }

  /** The position of the first entry with the given id, if any. */
  function FirstMatch(positions: seq<Landmark>, fingerId: int): (r: Option<Point>)
    decreases |positions|
    ensures r.None? <==> forall k :: 0 <= k < |positions| ==> positions[k].id != fingerId
    ensures r.Some? ==> exists k :: 0 <= k < |positions| && positions[k].id == fingerId &&
                           (forall j :: 0 <= j < k ==> positions[j].id != fingerId) &&
                           r.value == (positions[k].x, positions[k].y)
  {
    if positions == [] then None
    else if positions[0].id == fingerId then Some((positions[0].x, positions[0].y))
    else
      var rest := FirstMatch(positions[1..], fingerId);
      if rest.Some? then
        ghost var k :| 0 <= k < |positions| - 1 && positions[1..][k].id == fingerId &&
                       (forall j :: 0 <= j < k ==> positions[1..][j].id != fingerId) &&
                       rest.value == (positions[1..][k].x, positions[1..][k].y);
        assert positions[k + 1].id == fingerId;
        rest
      else rest
  }

  /** What `get_finger_position` returns given the remembered positions: the
      first match, averaged with the remembered position when there is one. */
  function SmoothedPosition(positions: seq<Landmark>, fingerId: int, prev: map<int, Point>): Option<Point>
  {
    match FirstMatch(positions, fingerId)
    case None => None
    case Some(p) => Some(if fingerId in prev then Smooth(p, prev[fingerId]) else p)
  }

  /** The landmark ids `get_finger_up_status` looks up. */
  const UpStatusIds: set<int> := {3, 4, 6, 8, 10, 12, 14, 16, 18, 20}

  /** Thumb up when its tip is right of the joint below it; any other finger
      up when its tip is above its middle joint. */
  function FingersUp(lm: map<int, Point>): (flags: seq<bool>)
    requires UpStatusIds <= lm.Keys
    ensures |flags| == 5
  {
    [lm[4].0 > lm[3].0, lm[8].1 < lm[6].1, lm[12].1 < lm[10].1, lm[16].1 < lm[14].1, lm[20].1 < lm[18].1]
  }

  /** A finger the classifier counts as extended is also reported up. */
  lemma ExtendedFingerIsUp(lm: map<int, Point>, k: nat)
    requires UpStatusIds <= lm.Keys && Gesture.Readable(lm)
    requires 1 <= k < 5 && Gesture.FingersExtended(lm)[k]
    ensures FingersUp(lm)[k]
  {
  }

  class HandTracker {
    /** The last position returned for each finger id. */
    var prevPositions: map<int, Point>

    constructor ()
      ensures prevPositions == map[]
    {
      prevPositions := map[];
    }

    /** The smoothed position of the first landmark with id `fingerId`, or
        None when there is no hand or no such landmark. A returned position is
        remembered for that id; no other id's memory changes. */
    method GetFingerPosition(positions: seq<Landmark>, fingerId: int) returns (r: Option<Point>)
      modifies this
      ensures r == SmoothedPosition(positions, fingerId, old(prevPositions))
      ensures r.None? ==> prevPositions == old(prevPositions)
      ensures r.Some? ==> prevPositions == old(prevPositions)[fingerId := r.value]
    {
      if positions == [] {
        return None;
      }
      var fingerPos: Option<Point> := None;
      var i := 0;
      while i < |positions|
        invariant 0 <= i <= |positions|
        invariant forall j :: 0 <= j < i ==> positions[j].id != fingerId
        invariant FirstMatch(positions, fingerId) == FirstMatch(positions[i..], fingerId)
      {
        if positions[i].id == fingerId {
          fingerPos := Some((positions[i].x, positions[i].y));
          break;
        }
        assert positions[i..][1..] == positions[i + 1..];
        i := i + 1;
      }
      if fingerPos.None? {
        return None;
      }
      var pos := fingerPos.value;
      if fingerId in prevPositions {
        var prev := prevPositions[fingerId];
        pos := (SmoothCoordinate(pos.0, prev.0), SmoothCoordinate(pos.1, prev.1));
      }
      prevPositions := prevPositions[fingerId := pos];
      return Some(pos);
    }

    /** Five finger-up flags for the frame's hand, thumb first; all down when
        there is no hand. */
    method GetFingerUpStatus(positions: seq<Landmark>) returns (fingersUp: seq<bool>)
      requires positions != [] ==> UpStatusIds <= LandmarkMap(positions).Keys
      ensures positions == [] ==> fingersUp == [false, false, false, false, false]
      ensures positions != [] ==> fingersUp == FingersUp(LandmarkMap(positions))
    {
      if positions == [] {
        return [false, false, false, false, false];
      }
      var landmarks := LandmarkMap(positions);
      var fingerPips := [6, 10, 14, 18];
      var fingerTips := [8, 12, 16, 20];
      fingersUp := [];
      if landmarks[4].0 > landmarks[3].0 {
        fingersUp := fingersUp + [true];
      } else {
        fingersUp := fingersUp + [false];
      }
      for k := 0 to 4
        invariant |fingersUp| == k + 1
        invariant fingersUp[0] == (landmarks[4].0 > landmarks[3].0)
        invariant forall j :: 0 <= j < k ==> fingersUp[j + 1] == (landmarks[fingerTips[j]].1 < landmarks[fingerPips[j]].1)
      {
        if landmarks[fingerTips[k]].1 < landmarks[fingerPips[k]].1 {
          fingersUp := fingersUp + [true];
        } else {
          fingersUp := fingersUp + [false];
        }
      }
      forall j | 1 <= j < 5 ensures fingersUp[j] == FingersUp(landmarks)[j] {
        assert fingersUp[(j - 1) + 1] == (landmarks[fingerTips[j - 1]].1 < landmarks[fingerPips[j - 1]].1);
      }
    }
  }
}
