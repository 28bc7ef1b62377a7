/**
 The per-hand gesture classifier `process_hand`: an ordered decision table
 over the finger flags and the thumb test, yielding a label and at most one
 MIDI message, plus the per-hand PLAY throttle, the only state that survives
 from one call to the next. The clock reading is an argument, and the message
 is returned instead of being sent.
 */
module Gesture {
  import opened Wrappers
  import opened Midi
  import opened Landmarks

  datatype Label = Null | Play | Volume | LowEq | MidEq | HighEq {

    /** The text the classifier returns and the overlay shows. */
    function Name(): string {
      match this
      case Null => "NULL"
      case Play => "PLAY"
      case Volume => "VOLUME"
      case LowEq => "LOW EQ"
      case MidEq => "MID EQ"
      case HighEq => "HIGH EQ"
    }

    /** Labels whose gesture drives a continuous control. */
    predicate IsControl() {
      Volume? || LowEq? || MidEq? || HighEq?
    }

    /** Controller number of a control label before the deck offset is added. */
    function ControllerBase(): int
      requires IsControl()
    {
      if Volume? then 1 else if LowEq? then 2 else if MidEq? then 3 else 4
    }
  }

  /** Distinct labels are reported as distinct texts. */
  lemma NamesDistinct(a: Label, b: Label)
    requires a != b
    ensures a.Name() != b.Name()
  {
  }

  /**
   The `last_play` dictionary: for each hand, the time (in seconds) its last
   PLAY note was sent. It has exactly one entry per hand.
   */
  datatype Throttle = Throttle(left: real, right: real) {

    function At(hand: Hand): real {
      match hand
      case Left => left
      case Right => right
    }

    /** `last_play[hand] = now`. */
    function Set(hand: Hand, now: real): (t: Throttle)
      ensures t.At(hand) == now
      ensures t.At(Other(hand)) == At(Other(hand))
    {
      match hand
      case Left => Throttle(now, right)
      case Right => Throttle(left, now)
    }
  }

  /** The throttle of a freshly started controller. */
  const Initial: Throttle := Throttle(0.0, 0.0)

  /** A throttle is determined by its two lookups: it holds exactly one entry per hand. */
  lemma ThrottleDeterminedByEntries(a: Throttle, b: Throttle)
    requires a.At(Left) == b.At(Left) && a.At(Right) == b.At(Right)
    ensures a == b
  {
  }

  /**
   Both entries of a fresh controller are 0, so its first PLAY sends a note
   iff the clock reads more than 0.6 s.
   */
  lemma InitialThrottle(hand: Hand, height: int, now: real)
    ensures Initial.At(hand) == 0.0
    ensures SentNote(Step(AllUp, true, hand, height, now, Initial)) <==> now > PlayGap
  {
  }

  /** A PLAY note needs strictly more than this many seconds since the hand's last one. */
  const PlayGap: real := 0.6

  const PlayNote: int := 60

  const RightDeckOffset: int := 10

  /** Left drives deck A (offset 0); every other hand drives deck B. */
  function DeckOffset(hand: Hand): (off: int)
    ensures off == 0 <==> hand == Left
    ensures 0 <= off && PlayNote + off <= DataMax
  {
    if hand == Left then 0 else RightDeckOffset
  }

  /** The two decks never share a controller number or a note number. */
  lemma DecksNeverCollide(a: Label, b: Label)
    requires a.IsControl() && b.IsControl()
    ensures a.ControllerBase() + DeckOffset(Left) != b.ControllerBase() + DeckOffset(Right)
    ensures PlayNote + DeckOffset(Left) != PlayNote + DeckOffset(Right)
  {
  }

  /** What one call yields: the label, the message it sent if any, and the new throttle. */
  datatype Outcome = Outcome(gesture: Label, msg: Option<Msg>, throttle: Throttle)

  predicate SentNote(o: Outcome) {
    o.msg.Some? && o.msg.value.NoteOn?
  }

  predicate SentControl(o: Outcome) {
    o.msg.Some? && o.msg.value.ControlChange?
  }

  /**
   One classification: the rules are tried in the order fist, PLAY, VOLUME,
   LOW EQ, MID EQ, HIGH EQ, and NULL when none applies.
   */
  function Step(f: Fingers, thumb: bool, hand: Hand, height: int, now: real, last: Throttle): (r: Outcome)
    // the label, as a condition on the inputs independent of rule order
    ensures r.gesture == Play <==> f == AllUp && thumb
    ensures r.gesture == Volume <==> f == PinkyOnly && thumb
    ensures r.gesture == LowEq <==> f == PinkyOnly && !thumb
    ensures r.gesture == MidEq <==> f == IndexOnly
    ensures r.gesture == HighEq <==> f == IndexMiddle
    ensures Raised(f) == 0 ==> r.gesture == Null && r.msg == None && r.throttle == last
    // the message
    ensures r.gesture == Null ==> r.msg == None
    ensures SentControl(r) <==> r.gesture.IsControl()
    ensures r.gesture.IsControl() ==>
              r.msg == Some(ControlChange(r.gesture.ControllerBase() + DeckOffset(hand), Clamp(height)))
    ensures SentNote(r) <==> r.gesture == Play && now - last.At(hand) > PlayGap
    ensures SentNote(r) ==> r.msg == Some(NoteOn(PlayNote + DeckOffset(hand), DataMax))
    ensures r.msg.Some? ==> IsValid(r.msg.value)
    ensures SentControl(r) ==> r.msg.value.control in (if hand == Left then {1, 2, 3, 4} else {11, 12, 13, 14})
    ensures SentNote(r) ==> r.msg.value.note == (if hand == Left then 60 else 70)
    // the throttle
    ensures r.throttle == (if SentNote(r) then last.Set(hand, now) else last)
    ensures r.throttle.At(Other(hand)) == last.At(Other(hand))
    ensures last.At(hand) <= r.throttle.At(hand)
  {
    var offset := DeckOffset(hand);
    if Raised(f) == 0 then
      Outcome(Null, None, last)
    else if Raised(f) == 4 && thumb then
      if now - last.At(hand) > PlayGap then
        Outcome(Play, Some(SendPlay(PlayNote + offset)), last.Set(hand, now))
      else
        Outcome(Play, None, last)
    else if thumb && f == PinkyOnly then
      Outcome(Volume, Some(SendCc(1 + offset, height as real)), last)
    else if f == PinkyOnly && !thumb then
      Outcome(LowEq, Some(SendCc(2 + offset, height as real)), last)
    else if f == IndexOnly then
      Outcome(MidEq, Some(SendCc(3 + offset, height as real)), last)
    else if f == IndexMiddle then
      Outcome(HighEq, Some(SendCc(4 + offset, height as real)), last)
    else
      Outcome(Null, None, last)
  }

  /** `process_hand`: read the hand's landmarks, then classify. */
  function ProcessHand(lm: seq<Landmark>, hand: Hand, now: real, last: Throttle): (r: Outcome)
    requires |lm| >= LandmarkCount
    ensures r.msg.Some? ==> IsValid(r.msg.value)
    ensures r.gesture == Play <==>
              FingersUp(lm) == AllUp &&
              (if hand == Right then lm[ThumbTip].x < lm[ThumbIp].x else lm[ThumbTip].x > lm[ThumbIp].x)
    ensures r.gesture == Volume <==>
              FingersUp(lm) == PinkyOnly &&
              (if hand == Right then lm[ThumbTip].x < lm[ThumbIp].x else lm[ThumbTip].x > lm[ThumbIp].x)
    ensures r.gesture != Null ==> Raised(FingersUp(lm)) > 0
    ensures SentControl(r) && 0.0 <= lm[Wrist].y <= 1.0 ==> r.msg.value.value == VerticalValue(lm)
    ensures r.throttle.At(Other(hand)) == last.At(Other(hand))
  {
    Step(FingersUp(lm), ThumbOut(lm, hand), hand, VerticalValue(lm), now, last)
  }

  /**
   The label depends only on the pose, never on the clock or the throttle, and
   the mirror image of a hand read as the other hand gets the same label.
   */
  lemma MirroredHandSameLabel(lm: seq<Landmark>, hand: Hand, now: real, now': real, last: Throttle, last': Throttle)
    requires |lm| >= LandmarkCount
    ensures ProcessHand(Mirror(lm), Other(hand), now', last').gesture == ProcessHand(lm, hand, now, last).gesture
  {
  }

  /** The CC value sent for a control pose never grows as the wrist moves down the image. */
  lemma ControlValueNonIncreasing(f: Fingers, thumb: bool, hand: Hand, y1: real, y2: real, now: real, last: Throttle)
    requires y1 <= y2
    requires Step(f, thumb, hand, Height(y1), now, last).gesture.IsControl()
    ensures Step(f, thumb, hand, Height(y2), now, last).msg.value.value
            <= Step(f, thumb, hand, Height(y1), now, last).msg.value.value
  {
  }

  /** A wrist above the top edge sends 127 and one below the bottom edge sends 0. */
  lemma ControlValueSaturates(f: Fingers, thumb: bool, hand: Hand, y: real, now: real, last: Throttle)
    requires Step(f, thumb, hand, Height(y), now, last).gesture.IsControl()
    ensures y <= 0.0 ==> Step(f, thumb, hand, Height(y), now, last).msg.value.value == DataMax
    ensures 1.0 <= y ==> Step(f, thumb, hand, Height(y), now, last).msg.value.value == 0
  {
  }

}
