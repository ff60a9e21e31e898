/** KioskState and the websocket loop's per-frame body (pos_server.py, lines
    85-95 and 113-235), as a class whose fields each frame updates in place. */
module Kiosk {
  import opened Options
  import opened Catalog
  import opened Gesture
  import opened ShoppingCart
  import opened Handshake
  import opened Session

  class KioskState {
    var mode: Mode
    var cart: Cart
    var total: int
    var lastScanTime: int
    var lastGesture: Pose
    var lastGestureTime: int
    var gestureDebounce: int

    /** The state as a value. */
    ghost function Abs(): State
      reads this, cart
    {
      State(mode, cart.lines, total, lastScanTime, Memory(lastGesture, lastGestureTime, gestureDebounce))
    }

    ghost predicate Valid()
      reads this, cart
    {
      Inv(Abs())
    }

    constructor ()
      ensures Valid() && Abs() == Initial() && fresh(cart)
    {
      mode := Idle;
      cart := new Cart();
      total := 0;
      lastScanTime := 0;
      lastGesture := Unknown;
      gestureDebounce := 0;
      lastGestureTime := 0;
    }

    /** Process one frame and return the response sent for it. */
    method Frame(detectedClassIds: seq<int>, hand: Option<seq<int>>, now: int) returns (response: Snapshot)
      requires Valid()
      requires hand.Some? ==> |hand.value| == LandmarkCount
      modifies this, cart
      ensures Valid()
      ensures Abs() == FrameStep(old(Abs()), detectedClassIds, hand, now).next
      ensures response == FrameStep(old(Abs()), detectedClassIds, hand, now).snapshot
    {
      ghost var s := Abs();
      // the response captures mode and total by value, the cart object by reference
      var responseMode := mode;
      var responseCart := cart;
      var responseTotal := total;
      var feedback := "";
      var boxes: seq<int> := [];

      // object detection, only while scanning
      var productDetected := false;
      if mode == Scanning {
        productDetected := |detectedClassIds| > 0;
        feedback, boxes := AddDetections(detectedClassIds, now);
      }

      // hand pose, only when no product was detected
      var currentGesture := Unknown;
      if !productDetected && hand.Some? {
        currentGesture := GetGestureState(hand.value);
      }

      // gesture sequencer
      var triggerAction := ObserveGesture(currentGesture, now);

      // state machine
      feedback := RunStateMachine(triggerAction, now, feedback);

      // the response as sent
      response := Snapshot(responseMode, feedback, responseCart.lines, responseTotal, boxes, currentGesture);
      FrameKeepsInv(s, detectedClassIds, hand, now);
    }

    /** The cart accumulator: feed every detected class id, in order, to the cart. */
    method AddDetections(ids: seq<int>, now: int) returns (feedback: string, boxes: seq<int>)
      modifies this, cart
      ensures cart == old(cart) && mode == old(mode)
      ensures lastGesture == old(lastGesture) && lastGestureTime == old(lastGestureTime)
      ensures gestureDebounce == old(gestureDebounce)
      ensures Scan(cart.lines, total, lastScanTime, feedback) ==
        ScanAll(Scan(old(cart.lines), old(total), old(lastScanTime), ""), ids, now)
      ensures boxes == ids
    {
      ghost var start := Scan(cart.lines, total, lastScanTime, "");
      feedback := "";
      boxes := [];
      var i := 0;
      while i < |ids|
        invariant 0 <= i <= |ids|
        invariant cart == old(cart) && mode == old(mode)
        invariant lastGesture == old(lastGesture) && lastGestureTime == old(lastGestureTime)
        invariant gestureDebounce == old(gestureDebounce)
        invariant Scan(cart.lines, total, lastScanTime, feedback) == ScanAll(start, ids[..i], now)
        invariant boxes == ids[..i]
      {
        assert ids[..i + 1][..i] == ids[..i];
        var clsId := ids[i];
        boxes := boxes + [clsId];
        if clsId in ItemDb {
          var item := ItemDb[clsId];
          if now - lastScanTime > ScanCooldown {
            cart.Add(item);
            total := total + item.price;
            lastScanTime := now;
            feedback := AddedMessage(item.name);
          }
        }
        i := i + 1;
      }
      assert ids[..|ids|] == ids;
    }

    /** The gesture sequencer, on the fields that remember the last pose. */
    method ObserveGesture(currentGesture: Pose, now: int) returns (triggerAction: bool)
      modifies this
      ensures var o := Observe(old(Memory(lastGesture, lastGestureTime, gestureDebounce)), currentGesture, now);
        Memory(lastGesture, lastGestureTime, gestureDebounce) == o.memory && triggerAction == o.trigger
      ensures mode == old(mode) && cart == old(cart) && total == old(total) && lastScanTime == old(lastScanTime)
    {
      triggerAction := false;
      if currentGesture != Unknown {
        if now - lastGestureTime > GestureTimeout {
          lastGesture := Unknown;
        }
        if now - gestureDebounce > DebounceGuard {
          if lastGesture == Open && currentGesture == Closed {
            if now - lastGestureTime <= GestureTimeout {
              triggerAction := true;
              gestureDebounce := now;
            }
          }
        }
        if currentGesture != lastGesture {
          lastGesture := currentGesture;
          lastGestureTime := now;
        }
      } else {
        lastGesture := Unknown;
      }
    }

    /** The session state machine: choose the feedback and take the mode's edge. */
    method RunStateMachine(triggerAction: bool, now: int, scanFeedback: string) returns (feedback: string)
      modifies this
      ensures mode == NextMode(old(mode), triggerAction, now, gestureDebounce)
      ensures feedback == Feedback(old(mode), scanFeedback)
      ensures Clears(old(mode), triggerAction) ==> fresh(cart) && cart.lines == [] && total == 0
      ensures !Clears(old(mode), triggerAction) ==> cart == old(cart) && total == old(total)
      ensures lastScanTime == old(lastScanTime) && lastGesture == old(lastGesture)
      ensures lastGestureTime == old(lastGestureTime) && gestureDebounce == old(gestureDebounce)
    {
      feedback := scanFeedback;
      if mode == Idle {
        feedback := StartPrompt;
        if triggerAction {
          mode := Scanning;
          cart := new Cart();
          total := 0;
        }
      } else if mode == Scanning {
        if feedback == "" {
          feedback := ScanPrompt;
        }
        if triggerAction {
          mode := Paid;
          cart := new Cart();
          total := 0;
        }
      } else {
        feedback := PaidMessage;
        if now - gestureDebounce > PaidHold {
          mode := Idle;
        }
      }
    }

    /** The client went away: back to IDLE, the cart left as it is. */
    method Disconnect()
      requires Valid()
      modifies this
      ensures Valid()
      ensures Abs() == old(Abs()).(mode := Idle)
    {
      mode := Idle;
    }
  }
}
