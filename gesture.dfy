/** Hand-pose classification from hand landmarks (pos_server.py, get_gesture_state).

    The hand tracker reports 21 landmarks per hand; only their vertical image
    coordinates matter here. Image y grows downwards, so a fingertip "above" its
    PIP joint has the smaller y. Coordinates are modelled as integers: the
    classifier only compares them with `<`. */
module Gesture {
  datatype Pose = Open | Closed | Unknown

  /** Number of landmarks the hand tracker reports for one hand. */
  const LandmarkCount: nat := 21

  /** Landmark indices of the index, middle, ring and little fingertips ... */
  const Tips: seq<nat> := [8, 12, 16, 20]
  /** ... and of the PIP joint of the same four fingers. */
  const Pips: seq<nat> := [6, 10, 14, 18]

  /** Finger `i` (0 to 3) is extended: its tip lies above its PIP joint. */
  predicate Extended(ys: seq<int>, i: nat)
    requires |ys| == LandmarkCount && i < 4
  {
    ys[Tips[i]] < ys[Pips[i]]
  }

  /** How many of the first `n` fingers are extended. */
  function CountExtended(ys: seq<int>, n: nat): nat
    requires |ys| == LandmarkCount && n <= 4
  {
    if n == 0 then 0
    else CountExtended(ys, n - 1) + (if Extended(ys, n - 1) then 1 else 0)
  }

  /** The count is at most `n`; it reaches `n` exactly when every finger counted
      is extended, and is 0 exactly when none is. */
  lemma {:induction false} CountExtendedBounds(ys: seq<int>, n: nat)
    requires |ys| == LandmarkCount && n <= 4
    ensures CountExtended(ys, n) <= n
    ensures CountExtended(ys, n) == n <==> forall i :: 0 <= i < n ==> Extended(ys, i)
    ensures CountExtended(ys, n) == 0 <==> forall i :: 0 <= i < n ==> !Extended(ys, i)
  {
    if n > 0 {
      CountExtendedBounds(ys, n - 1);
    }
  }

  /** The pose of a hand: OPEN when all four fingers are extended, CLOSED when
      none is, UNKNOWN otherwise (the threshold mapping on the count). */
  function Classify(ys: seq<int>): (p: Pose)
    requires |ys| == LandmarkCount
    ensures p == Open <==> forall i :: 0 <= i < 4 ==> Extended(ys, i)
    ensures p == Closed <==> forall i :: 0 <= i < 4 ==> !Extended(ys, i)
    ensures p == Unknown <==>
      (exists i :: 0 <= i < 4 && Extended(ys, i)) && (exists j :: 0 <= j < 4 && !Extended(ys, j))
  {
    CountExtendedBounds(ys, 4);
    var extendedCount := CountExtended(ys, 4);
    if extendedCount >= 4 then Open
    else if extendedCount == 0 then Closed
    else Unknown
  }

  /** get_gesture_state: counts the extended fingers in a loop, then maps the count. */
  method GetGestureState(ys: seq<int>) returns (g: Pose)
    requires |ys| == LandmarkCount
    ensures g == Classify(ys)
  {
    var extendedCount := 0;
    for i := 0 to 4
      invariant extendedCount == CountExtended(ys, i)
    {
      if ys[Tips[i]] < ys[Pips[i]] {
        extendedCount := extendedCount + 1;
      }
    }
    if extendedCount >= 4 {
      g := Open;
    } else if extendedCount == 0 {
      g := Closed;
    } else {
      g := Unknown;
    }
  }
}
