/**
 One detected hand as the hand tracker reports it (a handedness and 21
 normalised landmark points), and the three readings the classifier takes
 from it: which of the four long fingers are extended, whether the thumb is
 out, and how high the wrist is as a 0..127 control value.
 */
module Landmarks {
  import opened Midi

  /** A normalised image point; `y` grows downwards. */
  datatype Landmark = Landmark(x: real, y: real)

  datatype Hand = Left | Right

  function Other(h: Hand): Hand {
    if h == Left then Right else Left
  }

  /** Landmark indices of the hand tracker's 21-point hand model. */
  const LandmarkCount: int := 21
  const Wrist: int := 0
  const ThumbIp: int := 3
  const ThumbTip: int := 4
  /** Tips of the index, middle, ring and pinky fingers, in that order. */
  const Tips: seq<int> := [8, 12, 16, 20]
  /** Each fingertip is compared with the joint two indices below it (the PIP joint). */
  const JointBelowTip: int := 2

  /** Extended flags of index, middle, ring and pinky. */
  datatype Fingers = Fingers(index: bool, middle: bool, ring: bool, pinky: bool)

  const NoneUp := Fingers(false, false, false, false)
  const AllUp := Fingers(true, true, true, true)
  const PinkyOnly := Fingers(false, false, false, true)
  const IndexOnly := Fingers(true, false, false, false)
  const IndexMiddle := Fingers(true, true, false, false)

  /** The k-th flag, in the order of `Tips`. */
  function Flag(f: Fingers, k: int): bool
    requires 0 <= k < 4
  {
    if k == 0 then f.index else if k == 1 then f.middle else if k == 2 then f.ring else f.pinky
  }

  function Count(b: bool): nat {
    if b then 1 else 0
  }

  /** `sum(fingers)`: how many of the four fingers are extended. */
  function Raised(f: Fingers): (n: nat)
    ensures n <= 4
    ensures n == 0 <==> f == NoneUp
    ensures n == 4 <==> f == AllUp
  {
    Count(f.index) + Count(f.middle) + Count(f.ring) + Count(f.pinky)
  }

  /** `fingers_up`: a finger is extended iff its tip lies strictly above its PIP joint. */
  function FingersUp(lm: seq<Landmark>): (f: Fingers)
    requires |lm| >= LandmarkCount
    ensures forall k :: 0 <= k < 4 ==> (Flag(f, k) <==> lm[Tips[k]].y < lm[Tips[k] - JointBelowTip].y)
  {
    Fingers(lm[8].y < lm[6].y, lm[12].y < lm[10].y, lm[16].y < lm[14].y, lm[20].y < lm[18].y)
  }

  /**
   `thumb_out`: the thumb tip lies outside its IP joint, where "outside" is
   towards smaller x for a Right hand and towards larger x otherwise.
   */
  function ThumbOut(lm: seq<Landmark>, hand: Hand): (out: bool)
    requires |lm| >= LandmarkCount
    ensures lm[ThumbTip].x == lm[ThumbIp].x ==> !out
  {
    if hand == Right then lm[ThumbTip].x < lm[ThumbIp].x else lm[ThumbTip].x > lm[ThumbIp].x
  }

  /** Unless the thumb is exactly vertical, exactly one of the two hands reads it as out. */
  lemma ThumbOutForExactlyOneHand(lm: seq<Landmark>)
    requires |lm| >= LandmarkCount
    ensures lm[ThumbTip].x != lm[ThumbIp].x <==> ThumbOut(lm, Left) != ThumbOut(lm, Right)
  {
  }

  /** `int((1 - y) * 127)` for a wrist at height `y`. */
  function Height(y: real): (v: int)
    ensures 0.0 <= y <= 1.0 ==> 0 <= v <= DataMax
    ensures 0.0 <= y <= 1.0 ==> v as real <= (1.0 - y) * DataMax as real < v as real + 1.0
    ensures y == 0.0 ==> v == DataMax
    ensures y == 1.0 ==> v == 0
    ensures y <= 0.0 ==> v >= DataMax
    ensures 1.0 <= y ==> v <= 0
  {
    Trunc((1.0 - y) * DataMax as real)
  }

  /** A higher wrist (smaller y) never gives a smaller value. */
  lemma HeightNonIncreasing(y1: real, y2: real)
    requires y1 <= y2
    ensures Height(y2) <= Height(y1)
  {
  }

  /** `vertical_value`: the wrist height as a control value. */
  function VerticalValue(lm: seq<Landmark>): (v: int)
    requires |lm| >= LandmarkCount
    ensures 0.0 <= lm[Wrist].y <= 1.0 ==> 0 <= v <= DataMax
    ensures 0.0 <= lm[Wrist].y <= 1.0 ==>
              v as real <= (1.0 - lm[Wrist].y) * DataMax as real < v as real + 1.0
  {
    Height(lm[Wrist].y)
  }

  /** Of two hands, the one whose wrist is higher in the image never gets the smaller value. */
  lemma VerticalValueNonIncreasing(lm1: seq<Landmark>, lm2: seq<Landmark>)
    requires |lm1| >= LandmarkCount && |lm2| >= LandmarkCount
    requires lm1[Wrist].y <= lm2[Wrist].y
    ensures VerticalValue(lm2) <= VerticalValue(lm1)
  {
    HeightNonIncreasing(lm1[Wrist].y, lm2[Wrist].y);
  }

  /** The landmarks of the horizontally flipped image. */
  function Mirror(lm: seq<Landmark>): seq<Landmark> {
    seq(|lm|, i requires 0 <= i < |lm| => Landmark(1.0 - lm[i].x, lm[i].y))
  }

  /** Flipping twice gives back the original landmarks. */
  lemma MirrorInvolution(lm: seq<Landmark>)
    ensures Mirror(Mirror(lm)) == lm
  {
  }

  /**
   The handedness-dependent thumb test compensates exactly for a horizontal
   flip: the mirrored image of a hand, read as the other hand, has its thumb
   out iff the original does; finger flags and height are unaffected.
   */
  lemma MirrorSwapsHands(lm: seq<Landmark>, hand: Hand)
    requires |lm| >= LandmarkCount
    ensures ThumbOut(Mirror(lm), Other(hand)) == ThumbOut(lm, hand)
    ensures FingersUp(Mirror(lm)) == FingersUp(lm)
    ensures VerticalValue(Mirror(lm)) == VerticalValue(lm)
  {
  }

}
