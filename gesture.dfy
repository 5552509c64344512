/** The geometric gesture classifier: one landmark table in, one gesture symbol out. */
module Gesture {
  import opened Landmarks

  datatype GestureType = NONE | DRAW | ERASE | SELECT | CLEAR

  /** Thumb-tip to index-tip distance, in pixels, below which the hand pinches. */
  const PinchThreshold := 75

  /** The landmark ids the classifier looks up: wrist, thumb tip, and the
      base, middle joint and tip of the four other fingers. */
  const ClassifierIds: set<int> := {0, 4, 5, 6, 8, 9, 10, 12, 13, 14, 16, 17, 18, 20}

  /** (tip, middle joint, base) ids of index, middle, ring and pinky, in that order. */
  const FingerJoints: seq<(int, int, int)> := [(8, 6, 5), (12, 10, 9), (16, 14, 13), (20, 18, 17)]

  predicate Readable(lm: map<int, Point>)
  {
    ClassifierIds <= lm.Keys
  }

  function SquaredDistance(p: Point, q: Point): int
  {
    (p.0 - q.0) * (p.0 - q.0) + (p.1 - q.1) * (p.1 - q.1)
  }

  /** `sqrt(dx² + dy²) < 75` on integer pixels, without the square root. */
  predicate IsPinch(lm: map<int, Point>)
    requires Readable(lm)
  {
    SquaredDistance(lm[4], lm[8]) < PinchThreshold * PinchThreshold
  }

  /** The thumb tip lies left of the palm centre, the mean x of the wrist and
      the four finger bases (`x4 < sum / 5`, multiplied out). */
  predicate ThumbExtended(lm: map<int, Point>)
    requires Readable(lm)
  {
    5 * lm[4].0 < lm[0].0 + lm[5].0 + lm[9].0 + lm[13].0 + lm[17].0
  }

  /** A finger is extended when tip, middle joint and base rise strictly upward. */
  predicate FingerExtended(lm: map<int, Point>, joints: (int, int, int))
    requires joints.0 in lm && joints.1 in lm && joints.2 in lm
  {
    lm[joints.0].1 < lm[joints.1].1 < lm[joints.2].1
  }

  /** The five extension flags, thumb first, then index to pinky. */
  function FingersExtended(lm: map<int, Point>): (flags: seq<bool>)
    requires Readable(lm)
    ensures |flags| == 5
  {
    [ThumbExtended(lm),
     FingerExtended(lm, FingerJoints[0]), FingerExtended(lm, FingerJoints[1]),
     FingerExtended(lm, FingerJoints[2]), FingerExtended(lm, FingerJoints[3])]
  }

  predicate AllTrue(flags: seq<bool>)
  {
    forall k :: 0 <= k < |flags| ==> flags[k]
  }

  /** The flag list, built as the source builds it: the thumb flag, then one
      flag appended per finger. */
  method CheckFingersExtended(lm: map<int, Point>) returns (flags: seq<bool>)
    requires Readable(lm)
    ensures flags == FingersExtended(lm)
  {
    var palmSum := lm[0].0 + lm[5].0 + lm[9].0 + lm[13].0 + lm[17].0;
    var thumbExtended := 5 * lm[4].0 < palmSum;
    var fingers: seq<bool> := [];
    for k := 0 to |FingerJoints|
      invariant |fingers| == k
      invariant forall j :: 0 <= j < k ==> fingers[j] == FingerExtended(lm, FingerJoints[j])
    {
      var (tip, mid, base) := FingerJoints[k];
      var fingerExtended := lm[tip].1 < lm[mid].1 < lm[base].1;
      fingers := fingers + [fingerExtended];
    }
    flags := [thumbExtended] + fingers;
  }

  /** Within 30 degrees of straight up, i.e. |atan2(dx, -dy)| < 30°, exactly:
      either no displacement at all, or upward with |dx| < |dy| · tan 30°. */
  predicate IsVertical(dx: int, dy: int)
  {
    (dx == 0 && dy == 0) || (dy < 0 && 3 * dx * dx < dy * dy)
  }

  /** A vertical, non-degenerate index segment points upward and leans less
      than 45 degrees either way. */
  lemma VerticalPointsUp(dx: int, dy: int)
    requires IsVertical(dx, dy) && (dx, dy) != (0, 0)
    ensures dy < 0 && -dy > dx && -dy > -dx
  {
  }

  /** The pointing pose: index extended, the other three fingers not, the index
      segment from middle joint to tip vertical, and the index tip strictly
      higher than the other three tips. */
  predicate IsSelectGesture(lm: map<int, Point>, flags: seq<bool>)
    requires Readable(lm) && |flags| == 5
  {
    var indexExtended := flags[1];
    var otherFingersCurled := !(flags[2] || flags[3] || flags[4]);
    var dx := lm[8].0 - lm[6].0;
    var dy := lm[8].1 - lm[6].1;
    var isHighest := lm[8].1 < lm[12].1 && lm[8].1 < lm[16].1 && lm[8].1 < lm[20].1;
    indexExtended && otherFingersCurled && IsVertical(dx, dy) && isHighest
  }

  /** The classification of one non-empty landmark table: pinch first, then the
      open palm, then pointing. CLEAR is never produced; a pinch is DRAW
      whatever the fingers do, and SELECT is exactly the pointing pose without
      a pinch (the open palm cannot intercept it, since pointing needs the
      middle finger curled). */
  function Classify(lm: map<int, Point>): (g: GestureType)
    requires Readable(lm)
    ensures g != CLEAR
    ensures g == DRAW <==> IsPinch(lm)
    ensures g == ERASE <==> !IsPinch(lm) && AllTrue(FingersExtended(lm))
    ensures g == SELECT <==>
              && !IsPinch(lm)
              && FingerExtended(lm, (8, 6, 5))
              && !FingerExtended(lm, (12, 10, 9))
              && !FingerExtended(lm, (16, 14, 13))
              && !FingerExtended(lm, (20, 18, 17))
              && IsVertical(lm[8].0 - lm[6].0, lm[8].1 - lm[6].1)
              && lm[8].1 < lm[12].1 && lm[8].1 < lm[16].1 && lm[8].1 < lm[20].1
  {
    var flags := FingersExtended(lm);
    if IsPinch(lm) then DRAW
    else if AllTrue(flags) then assert flags[2]; ERASE
    else if IsSelectGesture(lm, flags) then SELECT
    else NONE
  }

  class GestureRecogniser {
    var currentGesture: GestureType
    /** State of the hold timer for CLEAR; only the no-hand branch touches it. */
    var clearGestureStart: int
    var isClearGesture: bool

    constructor ()
      ensures currentGesture == NONE && clearGestureStart == 0 && !isClearGesture
    {
      currentGesture := NONE;
      clearGestureStart := 0;
      isClearGesture := false;
    }

    /** Classifies one frame's landmark list. An empty list is no hand: NONE,
        and the hold timer is reset. Otherwise the result is the classification
        of the list's table and no field changes. */
    method RecogniseGesture(landmarkList: seq<Landmark>) returns (g: GestureType)
      requires landmarkList != [] ==> Readable(LandmarkMap(landmarkList))
      modifies this
      ensures landmarkList == [] ==>
                g == NONE && !isClearGesture && clearGestureStart == 0 && currentGesture == old(currentGesture)
      ensures landmarkList != [] ==>
                g == Classify(LandmarkMap(landmarkList)) && unchanged(this)
    {
      if landmarkList == [] {
        isClearGesture := false;
        clearGestureStart := 0;
        return NONE;
      }
      var landmarks := LandmarkMap(landmarkList);
      var fingersExtended := CheckFingersExtended(landmarks);
      if SquaredDistance(landmarks[4], landmarks[8]) < PinchThreshold * PinchThreshold {
        return DRAW;
      }
      fingersExtended := CheckFingersExtended(landmarks);
      if AllTrue(fingersExtended) {
        return ERASE;
      }
      if IsSelectGesture(landmarks, fingersExtended) {
        return SELECT;
      }
      return NONE;
    }
  }
}
