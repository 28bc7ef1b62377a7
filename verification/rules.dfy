/**
 The classifier's decision table written as data: six poses, each with its
 own guard and label, tried in a fixed order with the first match winning.
 `StepFollowsTable` shows the if-chain returns the first match of this table,
 and `PosesExclusive` shows the guards never overlap, so the order of the rows
 cannot change a label.
 */
module Rules {
  import opened Landmarks
  import opened Gesture

  datatype Pose = Fist | OpenHand | ThumbAndPinky | Pinky | IndexFinger | IndexAndMiddle

  /** The guard of each row of the table. */
  predicate Matches(p: Pose, f: Fingers, thumb: bool) {
    match p
    case Fist => Raised(f) == 0
    case OpenHand => Raised(f) == 4 && thumb
    case ThumbAndPinky => thumb && f == PinkyOnly
    case Pinky => f == PinkyOnly && !thumb
    case IndexFinger => f == IndexOnly
    case IndexAndMiddle => f == IndexMiddle
  }

  function LabelOf(p: Pose): Label {
    match p
    case Fist => Null
    case OpenHand => Play
    case ThumbAndPinky => Volume
    case Pinky => LowEq
    case IndexFinger => MidEq
    case IndexAndMiddle => HighEq
  }

  /** The order in which the source tries the rows. */
  const Precedence: seq<Pose> := [Fist, OpenHand, ThumbAndPinky, Pinky, IndexFinger, IndexAndMiddle]

  /** The label of the first row of `rules` whose guard holds; NULL when none does. */
  function FirstMatch(rules: seq<Pose>, f: Fingers, thumb: bool): (l: Label)
    ensures l != Null ==> exists i :: 0 <= i < |rules| && Matches(rules[i], f, thumb) && LabelOf(rules[i]) == l
    ensures (forall i :: 0 <= i < |rules| ==> !Matches(rules[i], f, thumb)) ==> l == Null
    ensures forall i ::
              (0 <= i < |rules| && Matches(rules[i], f, thumb) &&
               forall j :: 0 <= j < i ==> !Matches(rules[j], f, thumb))
              ==> l == LabelOf(rules[i])
  {
    if rules == [] then Null
    else if Matches(rules[0], f, thumb) then LabelOf(rules[0])
    else FirstMatch(rules[1..], f, thumb)
  }

  /** No finger vector and thumb reading satisfies two guards. */
  lemma PosesExclusive(p: Pose, q: Pose, f: Fingers, thumb: bool)
    requires Matches(p, f, thumb) && Matches(q, f, thumb)
    ensures p == q
  {
  }

  /** `process_hand`'s if-chain computes exactly the first-match label of the table. */
  lemma StepFollowsTable(f: Fingers, thumb: bool, hand: Hand, height: int, now: real, last: Throttle)
    ensures Step(f, thumb, hand, height, now, last).gesture == FirstMatch(Precedence, f, thumb)
  {
  }

  /** If the only matching pose occurs in `rules`, the first match is that pose's label. */
  lemma {:induction false} FirstMatchOfUnique(rules: seq<Pose>, p: Pose, f: Fingers, thumb: bool)
    requires p in rules
    requires Matches(p, f, thumb)
    ensures FirstMatch(rules, f, thumb) == LabelOf(p)
  {
    if rules[0] != p {
      if Matches(rules[0], f, thumb) {
        PosesExclusive(rules[0], p, f, thumb);
      }
      assert p in rules[1..];
      FirstMatchOfUnique(rules[1..], p, f, thumb);
    }
  }

  /** Any ordering of the six rows classifies every input the same way. */
  lemma OrderIrrelevant(rules: seq<Pose>, f: Fingers, thumb: bool)
    requires forall p: Pose :: p in rules
    ensures FirstMatch(rules, f, thumb) == FirstMatch(Precedence, f, thumb)
  {
    if p :| Matches(p, f, thumb) {
      FirstMatchOfUnique(rules, p, f, thumb);
      FirstMatchOfUnique(Precedence, p, f, thumb);
    }
  }

}
