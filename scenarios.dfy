/** Concrete runs of the frame model. */
module Scenarios {
  import opened Options
  import opened Gesture
  import opened ShoppingCart
  import opened Handshake
  import opened Session

  /** Landmark y values of an open hand (every fingertip above its PIP joint) ... */
  function OpenHand(): (ys: seq<int>)
    ensures |ys| == LandmarkCount && Classify(ys) == Open
  {
    var ys := seq(21, i => if i % 4 == 0 then 0 else 10);
    assert forall i :: 0 <= i < 4 ==> Extended(ys, i);
    ys
  }

  /** ... and of a fist (every fingertip below its PIP joint). */
  function Fist(): (ys: seq<int>)
    ensures |ys| == LandmarkCount && Classify(ys) == Closed
  {
    var ys := seq(21, i => if i % 4 == 0 then 10 else 0);
    assert forall i :: 0 <= i < 4 ==> !Extended(ys, i);
    ys
  }

  /** A whole checkout from a fresh session: a handshake starts the scan, a can
      of Coke (class id 3) is added, a second handshake pays and empties the
      cart, and the kiosk goes back to IDLE once the hold time has passed. */
  lemma Checkout()
    ensures var s1 := FrameStep(Initial(), [], Some(OpenHand()), 10000).next;
      var r2 := FrameStep(s1, [], Some(Fist()), 10500);
      var r3 := FrameStep(r2.next, [3], None, 11000);
      var s4 := FrameStep(r3.next, [], Some(OpenHand()), 13000).next;
      var r5 := FrameStep(s4, [], Some(Fist()), 13500);
      var r6 := FrameStep(r5.next, [], None, 16000);
      r2.next.mode == Scanning && r2.next.cart == [] && r2.next.total == 0 &&
      r3.next.cart == [Line("Coke in Can", 4500, 1)] && r3.next.total == 4500 &&
      r3.snapshot.feedback == "Added Coke in Can!" &&
      r5.next.mode == Paid && r5.next.cart == [] && r5.next.total == 0 &&
      r6.next.mode == Idle
  {
    var coke := [Line("Coke in Can", 4500, 1)];
    var s1 := State(Idle, [], 0, 0, Memory(Open, 10000, 0));
    var s2 := State(Scanning, [], 0, 0, Memory(Closed, 10500, 10500));
    var s3 := State(Scanning, coke, 4500, 11000, Memory(Unknown, 10500, 10500));
    var s4 := State(Scanning, coke, 4500, 11000, Memory(Open, 13000, 10500));
    var s5 := State(Paid, [], 0, 11000, Memory(Closed, 13500, 13500));
    assert FrameStep(Initial(), [], Some(OpenHand()), 10000).next == s1;
    assert FrameStep(s1, [], Some(Fist()), 10500).next == s2;
    CheckoutScan(s2, coke);
    assert FrameStep(s3, [], Some(OpenHand()), 13000).next == s4;
    assert FrameStep(s4, [], Some(Fist()), 13500).next == s5;
    assert FrameStep(s5, [], None, 16000).next.mode == Idle;
  }

  /** The frame of Checkout that scans the can. */
  lemma CheckoutScan(s: State, coke: seq<Line>)
    requires s == State(Scanning, [], 0, 0, Memory(Closed, 10500, 10500))
    requires coke == [Line("Coke in Can", 4500, 1)]
    ensures var r := FrameStep(s, [3], None, 11000);
      r.next == State(Scanning, coke, 4500, 11000, Memory(Unknown, 10500, 10500)) &&
      r.snapshot.feedback == "Added Coke in Can!"
  {
    assert [3][..0] == [];
  }
}
