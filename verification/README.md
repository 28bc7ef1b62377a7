# GestureDJ gesture classifier, modelled in Dafny

GestureDJ turns hand poses seen by a webcam into MIDI messages for DJ
software. Per detected hand, `process_hand` reads three things from the 21
hand landmarks: which of the index, middle, ring and pinky fingers are
extended, whether the thumb is out (the test's direction depends on
handedness), and the wrist height as a 0..127 value. It then walks a fixed
decision table: fist, PLAY, VOLUME, LOW EQ, MID EQ, HIGH EQ, and NULL when
nothing applies. It returns the label and sends at most one MIDI message: a
control change with controller `base + deck offset`, or a note-on 60 + deck
offset at velocity 127 for PLAY. The deck offset is 0 for the Left hand and
10 otherwise. PLAY notes are throttled per hand: a note goes out only if
strictly more than 0.6 s have passed since that hand's last one. The
`last_play` timestamps are the only state kept between calls.

The model has six modules:

- `Wrappers`: `Option`, for "at most one message".
- `Midi`: the two messages, Python's `int()` (`Trunc`, rounding toward zero),
  the clamp, and the `send_cc` / `send_play` emitters as functions that
  return the message instead of sending it.
- `Landmarks`: landmarks, handedness, the four finger flags and the three
  helpers `fingers_up`, `thumb_out` and `vertical_value`, all over exact reals.
  Also the horizontal flip the frame loop applies (`Mirror`, a helper), used to
  state why the thumb test depends on handedness.
- `Gesture`: labels, the per-hand throttle, `Step` (the decision table and
  throttle over the finger flags, thumb flag, hand, height, clock and
  throttle), and `ProcessHand` (landmarks, then `Step`).
- `Rules`: the decision table written as data, with six guarded rows tried in
  order, first match wins. `StepFollowsTable` shows the if-chain returns the
  first match of this table, and `PosesExclusive` shows the guards never
  overlap, so any order of the rows gives the same labels.
- `Trace`: a sequence of calls threading the throttle. It states, over whole
  runs, that the two hands are independent, that one hand's notes are more than
  0.6 s apart, that PLAY calls already more than 0.6 s apart are never
  suppressed, and that the throttle holds the time of the last note.

Points of the code worth knowing when reading the model:

- The height is `int((1 - y) * 127)` (GestureMidi.py:61), and `int()` truncates
  toward zero.
- `send_cc` truncates, then clamps (GestureMidi.py:46).
- The throttle comparison at GestureMidi.py:81 is strict, so a PLAY exactly
  0.6 s after the previous note sends nothing.
- Both throttle entries start at 0 (GestureMidi.py:42). So with a clock that
  itself starts at 0, a PLAY at 0.0 s sends no note (`Trace.ClockZeroScenario`).
  With the wall clock, which counts seconds since the epoch, the first PLAY
  always sends (`Trace.WallClockScenario`).

## Model

| member | source | states |
|---|---|---|
| Midi.Trunc | GestureMidi.py:46 | `int()` of a float is the integer between 0 and the argument that is less than 1 away from it (truncation toward zero, not floor) |
| Midi.TruncMonotone | GestureMidi.py:61 | truncation preserves order: `x <= y` implies `int(x) <= int(y)` |
| Midi.Clamp | GestureMidi.py:46 | `max(0, min(127, v))` lies in 0..127, is `v` when `v` is already in range, 0 below the range and 127 above it |
| Midi.SendCc | GestureMidi.py:45-47 | the control-change message keeps the controller number; its value is always a 7-bit value; a value in [0,128) only loses its fraction; values below 1 give 0 and values of 128 or more give 127 |
| Midi.SendCcKeepsInRangeInt | GestureMidi.py:46 | an integral value already in 0..127 passes through `send_cc` unchanged |
| Midi.SendPlay | GestureMidi.py:49-50 | the note-on carries the requested note, and it is a well-formed MIDI message (note and velocity both 7-bit) whenever the note is in 0..127 |
| Landmarks.Raised | GestureMidi.py:75-79 | `sum(fingers)` is at most 4; it is 0 exactly for the fist vector and 4 exactly for the all-up vector |
| Landmarks.FingersUp | GestureMidi.py:53-55 | for each tip index 8, 12, 16, 20 in turn, the finger flag holds iff the tip's y is strictly smaller than the y of the landmark two indices below it |
| Landmarks.ThumbOut | GestureMidi.py:57-58 | a thumb whose tip and IP joint have the same x is never out, for either hand; the per-hand direction (`tip.x < ip.x` for Right, `tip.x > ip.x` otherwise) is stated in landmark coordinates by the PLAY and VOLUME clauses of `Gesture.ProcessHand` |
| Landmarks.ThumbOutForExactlyOneHand | GestureMidi.py:58 | exactly one of the two hands reads the thumb as out iff the tip and IP joint differ in x: the two directions are opposite comparisons |
| Landmarks.Height | GestureMidi.py:61 | for y in [0,1] the value is the integer part of `(1 - y) * 127` (at most it, and less than 1 below it: truncation, not rounding) and lies in 0..127; it is 127 at y = 0 and 0 at y = 1; it is at least 127 above the frame and at most 0 below it |
| Landmarks.HeightNonIncreasing | GestureMidi.py:61 | the height value never increases as the wrist moves down the image |
| Landmarks.VerticalValue | GestureMidi.py:60-61 | whenever the wrist is inside the frame, `vertical_value` is the truncated `(1 - wrist.y) * 127` (at most it and less than 1 below it) and lies in 0..127 |
| Landmarks.VerticalValueNonIncreasing | GestureMidi.py:60-61 | of two landmark sets, the one whose wrist is higher in the image (smaller y) never gets the smaller value |
| Landmarks.MirrorSwapsHands | GestureMidi.py:53-61 | for a flipped hand read as the other hand, the thumb test gives the same answer; finger flags and height are unchanged |
| Gesture.Throttle.Set | GestureMidi.py:83 | `last_play[hand] = now`: afterwards the hand's entry is `now` and the other hand's entry is unchanged |
| Gesture.ThrottleDeterminedByEntries | GestureMidi.py:42 | the throttle holds exactly one entry per hand: two throttles with the same Left and Right entries are equal |
| Gesture.InitialThrottle | GestureMidi.py:42 | both entries of a fresh controller are 0, so its first PLAY sends a note iff the clock reads more than 0.6 s |
| Gesture.DeckOffset | GestureMidi.py:70 | the offset is 0 exactly for the Left hand; it is never negative and keeps note 60 + offset within 0..127 |
| Gesture.DecksNeverCollide | GestureMidi.py:70 | no Left-hand controller (1..4) equals a Right-hand controller (11..14), and the two PLAY notes differ |
| Gesture.NamesDistinct | GestureMidi.py:72-106 | the six labels returned are six distinct strings |
| Gesture.Step | GestureMidi.py:64-106 | PLAY iff all four fingers are up and the thumb is out. VOLUME iff pinky-only with thumb out; LOW EQ iff pinky-only with thumb in. MID EQ iff index-only; HIGH EQ iff index+middle, whatever the thumb. A fist gives NULL, no message and an unchanged throttle. NULL never sends. A control message is sent iff the label is a control label, with controller `base + offset` (1..4 for Left, 11..14 for Right) and value clamp(height). A note is sent iff PLAY and `now - last[hand] > 0.6`, and it is note 60 (Left) or 70 (Right) at velocity 127. Every message is valid 7-bit MIDI. The throttle becomes `last[hand := now]` exactly when a note is sent and is otherwise unchanged. The other hand's entry never changes and the acting hand's never decreases. |
| Gesture.ProcessHand | GestureMidi.py:64-67 | every message is valid MIDI. PLAY iff all four tips are above their joints and the thumb tip is left of its IP joint for a Right hand (right of it otherwise); VOLUME iff only the pinky tip is above its joint, with the same thumb condition. A non-NULL label implies some finger is up. Inside the frame the CC value equals `vertical_value` with no clamping. The other hand's throttle entry is untouched. |
| Gesture.MirroredHandSameLabel | GestureMidi.py:57-67 | the label ignores the clock and the throttle, and a flipped hand read as the other hand gets the same label |
| Gesture.ControlValueNonIncreasing | GestureMidi.py:60-61 | for a control pose, the CC value sent never grows as the wrist moves down the image |
| Gesture.ControlValueSaturates | GestureMidi.py:46-61 | for a control pose, a wrist at or above the top edge sends 127 and one at or below the bottom edge sends 0 |
| Rules.FirstMatch | GestureMidi.py:72-106 | the label is that of the first row whose guard holds (no earlier row matching); a label other than NULL comes from a matching row; when no guard holds the label is NULL |
| Rules.PosesExclusive | GestureMidi.py:75-104 | no input satisfies two of the six guards |
| Rules.StepFollowsTable | GestureMidi.py:64-106 | the if-chain's label equals the first-match label of the six-row table in the source's order, for every input |
| Rules.FirstMatchOfUnique | GestureMidi.py:72-106 | if a matching pose occurs in a row list, the first match is that pose's label |
| Rules.OrderIrrelevant | GestureMidi.py:72-106 | every ordering of the six rows classifies every input exactly as the source's order does |
| Trace.RunIgnoresOtherHand | GestureMidi.py:79-84 | after any sequence of calls, a hand's throttle entry equals what its own calls alone would produce from its own starting entry |
| Trace.NotesSpaced | GestureMidi.py:79-84 | within any sequence of calls, every PLAY note of a hand comes more than 0.6 s after its starting entry and after each earlier note of that hand |
| Trace.SpacedPlaysAllSent | GestureMidi.py:79-84 | when every PLAY call of a hand is more than 0.6 s after its starting entry and after its previous PLAY call, every one of them sends its note: the notes sent are exactly the PLAY calls |
| Trace.RunRecordsLastNote | GestureMidi.py:81-83 | after any sequence of calls, a hand's entry is the time of its last note, or its starting entry if it sent none, and never decreases |
| Trace.ReplayAfterNote | GestureMidi.py:79-84 | after a note at t, a second PLAY at t' is still labelled PLAY and sends iff t' - t > 0.6; at exactly t + 0.6 it sends nothing |
| Trace.ClockZeroScenario | GestureMidi.py:42 | from the initial throttle (both entries 0), PLAY at 0.0 s and 0.3 s sends nothing and PLAY at 0.7 s sends note 60 |
| Trace.WallClockScenario | GestureMidi.py:79-84 | from the initial throttle with a clock above 0.6 s, PLAY at t, t + 0.3 and t + 0.7 sends note 60 the first and third time only |

## Left out

- The frame loop `run` (GestureMidi.py:108-140) is not modelled: camera capture, frame flipping, colour conversion, landmark drawing, text overlays, the window and the exit key are I/O and UI. Only the flip's effect on coordinates appears, as `Landmarks.Mirror`.
- Hand detection by the tracking library, and MIDI port enumeration, opening and `send` (GestureMidi.py:27-40, 47, 50), are foreign library calls. Messages are returned as values. The startup failure when no MIDI port exists is not modelled.
- The wall clock `time.time()` (GestureMidi.py:80) becomes the caller-supplied `now`, in seconds as a real.
- Floating point is not modelled. Landmark coordinates, the clock and `(1 - y) * 127` are exact reals, so rounding in float arithmetic near an integer boundary is not represented. `int()` is modelled exactly as truncation toward zero.
- Handedness is the two-valued `Hand`, following the tracker's contract that it reports exactly "Left" or "Right". The source compares strings, so any other string would count as the right deck for the offset and use the left-hand thumb test, and a PLAY with it would fail on the missing `last_play` key. That case is not modelled.
- The finger list `[index, middle, ring, pinky]` is the record `Fingers`, and `sum(fingers)` is `Raised`.
- `ProcessHand` requires at least 21 landmarks. The source indexes landmarks up to 20, and the tracker always supplies 21.
