/**
 Successive calls of `process_hand` on one controller, threading the PLAY
 throttle from each call to the next. These lemmas state what the throttle
 promises over a whole run: the two hands never influence each other, a
 hand's PLAY notes are always more than 0.6 s apart, and the throttle always
 holds the time of the hand's last note.
 */
module Trace {
  import opened Wrappers
  import opened Midi
  import opened Landmarks
  import opened Gesture

  /** One call of the classifier: the hand's readings and the clock value. */
  datatype Call = Call(fingers: Fingers, thumb: bool, hand: Hand, height: int, now: real)

  function Apply(c: Call, last: Throttle): Outcome {
    Step(c.fingers, c.thumb, c.hand, c.height, c.now, last)
  }

  /** The throttle after all the calls, in order. */
  function Run(calls: seq<Call>, last: Throttle): Throttle
    decreases |calls|
  {
    if calls == [] then last else Run(calls[1..], Apply(calls[0], last).throttle)
  }

  /** The calls made for one hand, in order. */
  function OnlyHand(calls: seq<Call>, hand: Hand): (r: seq<Call>)
    ensures |r| <= |calls|
    ensures forall i :: 0 <= i < |r| ==> r[i].hand == hand
    ensures (forall i :: 0 <= i < |calls| ==> calls[i].hand == hand) ==> r == calls
  {
    if calls == [] then []
    else if calls[0].hand == hand then [calls[0]] + OnlyHand(calls[1..], hand)
    else OnlyHand(calls[1..], hand)
  }

  /** The clock values of the calls that sent a PLAY note for `hand`, in order. */
  function NoteTimes(calls: seq<Call>, last: Throttle, hand: Hand): seq<real>
    decreases |calls|
  {
    if calls == [] then []
    else
      var o := Apply(calls[0], last);
      var rest := NoteTimes(calls[1..], o.throttle, hand);
      if calls[0].hand == hand && SentNote(o) then [calls[0].now] + rest else rest
  }

  /** The clock values of the calls that showed the PLAY pose with `hand`, in order. */
  function PlayTimes(calls: seq<Call>, hand: Hand): seq<real>
    decreases |calls|
  {
    if calls == [] then []
    else
      var rest := PlayTimes(calls[1..], hand);
      var c := calls[0];
      if c.hand == hand && c.fingers == AllUp && c.thumb then [c.now] + rest else rest
  }

  /** Every note comes more than `PlayGap` after `start` and after every earlier note. */
  predicate Spaced(ts: seq<real>, start: real) {
    && (forall i :: 0 <= i < |ts| ==> ts[i] - start > PlayGap)
    && (forall i, j :: 0 <= i < j < |ts| ==> ts[j] - ts[i] > PlayGap)
  }

  /**
   A hand's throttle entry after a run depends only on that hand's own calls
   and its own starting entry: the other hand's calls and entry are irrelevant.
   */
  lemma {:induction false} RunIgnoresOtherHand(calls: seq<Call>, last: Throttle, last': Throttle, hand: Hand)
    requires last.At(hand) == last'.At(hand)
    ensures Run(calls, last).At(hand) == Run(OnlyHand(calls, hand), last').At(hand)
    decreases |calls|
  {
    if calls != [] {
      var c := calls[0];
      if c.hand == hand {
        assert OnlyHand(calls, hand) == [c] + OnlyHand(calls[1..], hand);
        assert ([c] + OnlyHand(calls[1..], hand))[1..] == OnlyHand(calls[1..], hand);
        RunIgnoresOtherHand(calls[1..], Apply(c, last).throttle, Apply(c, last').throttle, hand);
      } else {
        RunIgnoresOtherHand(calls[1..], Apply(c, last).throttle, last', hand);
      }
    }
  }

  /** Two PLAY notes of the same hand are always more than 0.6 s apart. */
  lemma {:induction false} NotesSpaced(calls: seq<Call>, last: Throttle, hand: Hand)
    ensures Spaced(NoteTimes(calls, last, hand), last.At(hand))
    decreases |calls|
  {
    if calls != [] {
      var c := calls[0];
      var o := Apply(c, last);
      var rest := NoteTimes(calls[1..], o.throttle, hand);
      NotesSpaced(calls[1..], o.throttle, hand);
      if c.hand == hand && SentNote(o) {
        var ts := [c.now] + rest;
        assert o.throttle.At(hand) == c.now;
        forall i, j | 0 <= i < j < |ts|
          ensures ts[j] - ts[i] > PlayGap
        {
          if i > 0 {
            assert ts[j] == rest[j - 1] && ts[i] == rest[i - 1];
          } else {
            assert ts[j] == rest[j - 1];
          }
        }
        forall i | 0 <= i < |ts|
          ensures ts[i] - last.At(hand) > PlayGap
        {
          if i > 0 {
            assert ts[i] == rest[i - 1];
          }
        }
      } else {
        assert o.throttle.At(hand) == last.At(hand);
      }
    }
  }

  /**
   The throttle suppresses nothing it need not: when a hand's PLAY calls are
   each more than 0.6 s after its starting entry and after its previous PLAY
   call, every one of them sends its note.
   */
  lemma {:induction false} SpacedPlaysAllSent(calls: seq<Call>, last: Throttle, hand: Hand)
    requires Spaced(PlayTimes(calls, hand), last.At(hand))
    ensures NoteTimes(calls, last, hand) == PlayTimes(calls, hand)
    decreases |calls|
  {
    if calls != [] {
      var c := calls[0];
      var o := Apply(c, last);
      var rest := PlayTimes(calls[1..], hand);
      if c.hand == hand && c.fingers == AllUp && c.thumb {
        var ts := [c.now] + rest;
        assert ts[0] - last.At(hand) > PlayGap;
        assert o.throttle.At(hand) == c.now;
        forall i | 0 <= i < |rest|
          ensures rest[i] - c.now > PlayGap
        {
          assert ts[i + 1] - ts[0] > PlayGap;
        }
        forall i, j | 0 <= i < j < |rest|
          ensures rest[j] - rest[i] > PlayGap
        {
          assert ts[j + 1] - ts[i + 1] > PlayGap;
        }
        SpacedPlaysAllSent(calls[1..], o.throttle, hand);
      } else {
        assert o.throttle.At(hand) == last.At(hand);
        SpacedPlaysAllSent(calls[1..], o.throttle, hand);
      }
    }
  }

  /**
   After a run, a hand's throttle entry is the time of its last PLAY note, or
   its starting entry when it sent none; it never decreases.
   */
  lemma {:induction false} RunRecordsLastNote(calls: seq<Call>, last: Throttle, hand: Hand)
    ensures var ts := NoteTimes(calls, last, hand);
            Run(calls, last).At(hand) == if ts == [] then last.At(hand) else ts[|ts| - 1]
    ensures last.At(hand) <= Run(calls, last).At(hand)
    decreases |calls|
  {
    if calls != [] {
      var o := Apply(calls[0], last);
      RunRecordsLastNote(calls[1..], o.throttle, hand);
    }
  }

  /**
   After a hand's PLAY note at time `t`, another PLAY of that hand at `t'`
   sends its note iff `t' - t > 0.6`: a gap of exactly 0.6 s sends nothing.
   */
  lemma ReplayAfterNote(hand: Hand, height: int, t: real, t': real, last: Throttle, height': int)
    requires SentNote(Step(AllUp, true, hand, height, t, last))
    ensures var second := Step(AllUp, true, hand, height', t', Step(AllUp, true, hand, height, t, last).throttle);
            second.gesture == Play && (SentNote(second) <==> t' - t > PlayGap)
    ensures t' == t + PlayGap ==>
              Step(AllUp, true, hand, height', t', Step(AllUp, true, hand, height, t, last).throttle).msg == None
  {
  }

  /**
   From a fresh controller whose clock starts at 0 s: open-hand PLAY at 0.0 s
   and 0.3 s sends nothing (the entry starts at 0 and the gap is strict), and
   at 0.7 s sends note 60.
   */
  lemma ClockZeroScenario()
    ensures var o1 := Step(AllUp, true, Left, 101, 0.0, Initial);
            var o2 := Step(AllUp, true, Left, 101, 0.3, o1.throttle);
            var o3 := Step(AllUp, true, Left, 101, 0.7, o2.throttle);
            && o1.gesture == Play && o1.msg == None
            && o2.gesture == Play && o2.msg == None
            && o3.gesture == Play && o3.msg == Some(NoteOn(60, 127))
  {
  }

  /**
   With a clock far from 0 (the wall clock in seconds since the epoch), PLAY
   at t, t + 0.3 and t + 0.7 sends a note the first and the third time only.
   */
  lemma WallClockScenario(t: real)
    requires t > PlayGap
    ensures var o1 := Step(AllUp, true, Left, 101, t, Initial);
            var o2 := Step(AllUp, true, Left, 101, t + 0.3, o1.throttle);
            var o3 := Step(AllUp, true, Left, 101, t + 0.7, o2.throttle);
            && o1.msg == Some(NoteOn(60, 127))
            && o2.gesture == Play && o2.msg == None
            && o3.msg == Some(NoteOn(60, 127))
  {
  }

}
