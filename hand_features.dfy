/** Hand landmarks and the finger features the letter classifier reads.

    A detected hand is a sequence of landmarks: index 0 is the wrist and the
    fingers use indices 1-4 (thumb), 5-8 (index), 9-12 (middle), 13-16 (ring)
    and 17-20 (pinky), base joint first and tip last. Image y grows downwards,
    so a smaller y is higher up.
 */
module HandFeatures {

  /** One landmark as the detector reports it: x, y and a depth that no rule reads. */
  datatype Point = Point(x: real, y: real, z: real)

  type Landmarks = seq<Point>

  /** The angle, in degrees, of the vector (dx, dy), taken as `(dy, dx)` like
      `Math.atan2(dy, dx) * 180 / Math.PI`. Trigonometry is not modelled: the
      extractor is parameterised by whatever function the platform provides. */
  type Atan2Degrees = (real, real) -> real

  /** The landmark indices of each finger, base first, tip last. */
  const ThumbIndices: seq<nat> := [1, 2, 3, 4]
  const IndexFingerIndices: seq<nat> := [5, 6, 7, 8]
  const MiddleFingerIndices: seq<nat> := [9, 10, 11, 12]
  const RingFingerIndices: seq<nat> := [13, 14, 15, 16]
  const PinkyIndices: seq<nat> := [17, 18, 19, 20]

  /** A finger's four indices all name a landmark of `lm`. */
  predicate IsFingerOf(finger: seq<nat>, lm: Landmarks)
  {
    |finger| == 4 && forall k :: 0 <= k < 4 ==> finger[k] < |lm|
  }

  /** The features extracted from one hand: five "extended" flags, four
      "bent" flags, four fingertip x values and two angles in degrees. */
  datatype Features = Features(
    thumb: bool, indexFinger: bool, middleFinger: bool, ringFinger: bool, pinky: bool,
    indexBent: bool, middleBent: bool, ringBent: bool, pinkyBent: bool,
    indexX: real, middleX: real, ringX: real, pinkyX: real,
    thumbAngle: real, indexAngle: real)

  function TipY(finger: seq<nat>, lm: Landmarks): real
    requires IsFingerOf(finger, lm)
  {
    lm[finger[3]].y
  }

  function BaseY(finger: seq<nat>, lm: Landmarks): real
    requires IsFingerOf(finger, lm)
  {
    lm[finger[0]].y
  }

  function MidY(finger: seq<nat>, lm: Landmarks): real
    requires IsFingerOf(finger, lm)
  {
    lm[finger[2]].y
  }

  function TipX(finger: seq<nat>, lm: Landmarks): real
    requires IsFingerOf(finger, lm)
  {
    lm[finger[3]].x
  }

  function BaseX(finger: seq<nat>, lm: Landmarks): real
    requires IsFingerOf(finger, lm)
  {
    lm[finger[0]].x
  }

  /** A stand-alone helper that nothing in the program calls: a finger is open
      when its tip is above its base. */
  function FingerIsOpen(finger: seq<nat>, lm: Landmarks): bool
    requires |finger| >= 4 && finger[0] < |lm| && finger[3] < |lm|
  {
    lm[finger[3]].y < lm[finger[0]].y
  }

  function FingerAngle(finger: seq<nat>, lm: Landmarks, atan2Degrees: Atan2Degrees): real
    requires IsFingerOf(finger, lm)
  {
    var dx := TipX(finger, lm) - BaseX(finger, lm);
    var dy := TipY(finger, lm) - BaseY(finger, lm);
    atan2Degrees(dy, dx)
  }

  /** The feature record of one hand. The contract states each feature in
      terms of the anatomical landmark numbers, and ties the extended flags to
      the stand-alone helper `FingerIsOpen`. */
  function FingerPositions(lm: Landmarks, atan2Degrees: Atan2Degrees): (pos: Features)
    requires |lm| >= 21
    // extended: tip above base, for landmarks 4/1, 8/5, 12/9, 16/13, 20/17
    ensures pos.thumb == (lm[4].y < lm[1].y)
    ensures pos.indexFinger == (lm[8].y < lm[5].y)
    ensures pos.middleFinger == (lm[12].y < lm[9].y)
    ensures pos.ringFinger == (lm[16].y < lm[13].y)
    ensures pos.pinky == (lm[20].y < lm[17].y)
    ensures pos.thumb == FingerIsOpen(ThumbIndices, lm)
    ensures pos.indexFinger == FingerIsOpen(IndexFingerIndices, lm)
    ensures pos.middleFinger == FingerIsOpen(MiddleFingerIndices, lm)
    ensures pos.ringFinger == FingerIsOpen(RingFingerIndices, lm)
    ensures pos.pinky == FingerIsOpen(PinkyIndices, lm)
    // bent: third landmark of the finger above its tip (no thumb flag)
    ensures pos.indexBent == (lm[7].y < lm[8].y)
    ensures pos.middleBent == (lm[11].y < lm[12].y)
    ensures pos.ringBent == (lm[15].y < lm[16].y)
    ensures pos.pinkyBent == (lm[19].y < lm[20].y)
    // horizontal tip positions
    ensures pos.indexX == lm[8].x && pos.middleX == lm[12].x
    ensures pos.ringX == lm[16].x && pos.pinkyX == lm[20].x
    // angles of the tip seen from the base
    ensures pos.thumbAngle == atan2Degrees(lm[4].y - lm[1].y, lm[4].x - lm[1].x)
    ensures pos.indexAngle == atan2Degrees(lm[8].y - lm[5].y, lm[8].x - lm[5].x)
  {
    Features(
      thumb := TipY(ThumbIndices, lm) < BaseY(ThumbIndices, lm),
      indexFinger := TipY(IndexFingerIndices, lm) < BaseY(IndexFingerIndices, lm),
      middleFinger := TipY(MiddleFingerIndices, lm) < BaseY(MiddleFingerIndices, lm),
      ringFinger := TipY(RingFingerIndices, lm) < BaseY(RingFingerIndices, lm),
      pinky := TipY(PinkyIndices, lm) < BaseY(PinkyIndices, lm),
      indexBent := MidY(IndexFingerIndices, lm) < TipY(IndexFingerIndices, lm),
      middleBent := MidY(MiddleFingerIndices, lm) < TipY(MiddleFingerIndices, lm),
      ringBent := MidY(RingFingerIndices, lm) < TipY(RingFingerIndices, lm),
      pinkyBent := MidY(PinkyIndices, lm) < TipY(PinkyIndices, lm),
      indexX := TipX(IndexFingerIndices, lm),
      middleX := TipX(MiddleFingerIndices, lm),
      ringX := TipX(RingFingerIndices, lm),
      pinkyX := TipX(PinkyIndices, lm),
      thumbAngle := FingerAngle(ThumbIndices, lm, atan2Degrees),
      indexAngle := FingerAngle(IndexFingerIndices, lm, atan2Degrees))
  }

  /** The features read only the y of landmarks 1, 4, 5, 7-9, 11-13, 15-17,
      19, 20 and the x of landmarks 1, 4, 5, 8, 12, 16, 20: two hands that
      agree there (whatever their wrist, depth and second joints) give the
      same record. */
  lemma FeaturesAreLocal(lm1: Landmarks, lm2: Landmarks, atan2Degrees: Atan2Degrees)
    requires |lm1| >= 21 && |lm2| >= 21
    requires forall k :: k in {1, 4, 5, 7, 8, 9, 11, 12, 13, 15, 16, 17, 19, 20} ==> lm1[k].y == lm2[k].y
    requires forall k :: k in {1, 4, 5, 8, 12, 16, 20} ==> lm1[k].x == lm2[k].x
    ensures FingerPositions(lm1, atan2Degrees) == FingerPositions(lm2, atan2Degrees)
  {
  }

  /** When every landmark sits at the same place, no finger is extended or
      bent and both angles are the angle of the zero vector. */
  lemma CoincidentLandmarks(lm: Landmarks, atan2Degrees: Atan2Degrees)
    requires |lm| >= 21
    requires forall k :: 0 <= k < |lm| ==> lm[k] == lm[0]
    ensures var pos := FingerPositions(lm, atan2Degrees);
      && !pos.thumb && !pos.indexFinger && !pos.middleFinger && !pos.ringFinger && !pos.pinky
      && !pos.indexBent && !pos.middleBent && !pos.ringBent && !pos.pinkyBent
      && pos.thumbAngle == pos.indexAngle == atan2Degrees(0.0, 0.0)
  {
  }
}
