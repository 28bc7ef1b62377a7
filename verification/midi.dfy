/**
 The two MIDI messages the controller emits (control-change and note-on), and
 the shaping of a control value on its way to the port: Python's `int()`
 (truncation toward zero) followed by clamping into the 7-bit data range.
 The port itself is not modelled: a "sent" message is a returned value.
 */
module Midi {

  /** Largest 7-bit MIDI data value. */
  const DataMax: int := 127

  datatype Msg =
    | ControlChange(control: int, value: int)
    | NoteOn(note: int, velocity: int)

  /** Every number the message carries fits in a 7-bit MIDI data byte. */
  predicate IsValid(m: Msg) {
    match m
    case ControlChange(c, v) => 0 <= c <= DataMax && 0 <= v <= DataMax
    case NoteOn(n, v) => 0 <= n <= DataMax && 0 <= v <= DataMax
  }

  /** Python's `int()` applied to a float: rounds toward zero. */
  function Trunc(x: real): (r: int)
    ensures 0.0 <= x ==> 0 <= r && r as real <= x < r as real + 1.0
    ensures x < 0.0 ==> r <= 0 && r as real - 1.0 < x <= r as real
  {
    if x >= 0.0 then x.Floor else -((-x).Floor)
  }

  /** Truncation toward zero never reverses the order of its arguments. */
  lemma TruncMonotone(x: real, y: real)
    requires x <= y
    ensures Trunc(x) <= Trunc(y)
  {
  }

  /** `max(0, min(127, v))`. */
  function Clamp(v: int): (r: int)
    ensures 0 <= r <= DataMax
    ensures 0 <= v <= DataMax ==> r == v
    ensures v < 0 ==> r == 0
    ensures DataMax < v ==> r == DataMax
  {
    var capped := if v < DataMax then v else DataMax;
    if capped > 0 then capped else 0
  }

  /**
   The control-change message `send_cc(cc, value)` puts on the port: the value
   is truncated first and clamped second, so whatever real arrives, the data
   byte is a 7-bit value, and a value already in range only loses its fraction.
   */
  function SendCc(cc: int, value: real): (m: Msg)
    ensures m.ControlChange? && m.control == cc
    ensures 0 <= m.value <= DataMax
    ensures 0.0 <= value < (DataMax + 1) as real ==> m.value as real <= value < m.value as real + 1.0
    ensures value < 1.0 ==> m.value == 0
    ensures (DataMax + 1) as real <= value ==> m.value == DataMax
  {
    ControlChange(cc, Clamp(Trunc(value)))
  }

  /** An integral value in the 7-bit range reaches the port unchanged. */
  lemma SendCcKeepsInRangeInt(cc: int, v: int)
    requires 0 <= v <= DataMax
    ensures SendCc(cc, v as real) == ControlChange(cc, v)
  {
  }

  /**
   The note-on message `send_play(note)` puts on the port, always at full
   velocity; it is a well-formed MIDI message whenever the note is a 7-bit value.
   */
  function SendPlay(note: int): (m: Msg)
    ensures m.NoteOn? && m.note == note
    ensures 0 <= note <= DataMax ==> IsValid(m)
  {
    NoteOn(note, DataMax)
  }

}
