/** One kiosk session, frame by frame, as values: the cart accumulator, the
    three-state session machine and the per-frame orchestration that feeds the
    detector's and the hand tracker's outputs through them
    (pos_server.py, lines 85-95 and 113-235). Times are in milliseconds and
    money in cents. */
module Session {
  import opened Options
  import opened Catalog
  import opened Gesture
  import opened ShoppingCart
  import opened Handshake

  datatype Mode = Idle | Scanning | Paid

  /** Minimum time between two accepted scans, shared by all products (2.5 s). */
  const ScanCooldown: int := 2500
  /** How long the kiosk shows PAID after the paying handshake (2.0 s). */
  const PaidHold: int := 2000

  const StartPrompt: string := "Open Hand ✋ then Fist ✊ to Start"
  const ScanPrompt: string := "Scanning... Open Hand ✋ then Fist ✊ to Pay"
  const PaidMessage: string := "Paid! Resetting..."

  function AddedMessage(name: string): string
  {
    "Added " + name + "!"
  }

  /** Everything KioskState holds. */
  datatype State = State(mode: Mode, cart: seq<Line>, total: int, lastScanTime: int, memory: Memory)

  /** KioskState's initial values. */
  function Initial(): State
  {
    State(Idle, [], 0, 0, Memory(Unknown, 0, 0))
  }

  /** What holds of every reachable state: the total is what the cart comes to,
      there is one line per product name, every line is a catalog product, and a
      paid session has an empty cart. */
  predicate Inv(s: State)
  {
    Total(s.cart) == s.total && NamesDistinct(s.cart) && FromCatalog(s.cart) &&
    (s.mode == Paid ==> s.cart == [] && s.total == 0)
  }

  lemma InitialInv()
    ensures Inv(Initial())
  {
  }

  // ----- Cart accumulator -----

  /** The part of the state the accumulator works on, and the feedback it writes. */
  datatype Scan = Scan(cart: seq<Line>, total: int, lastScanTime: int, feedback: string)

  /** Accepting a detection of `item`: add it to the cart and the total, restart
      the cooldown, and announce it. */
  function Accept(sc: Scan, item: Product, now: int): Scan
  {
    Scan(Added(sc.cart, item), sc.total + item.price, now, AddedMessage(item.name))
  }

  /** One detected class id: accepted when it is a catalog product and the
      cooldown has expired; otherwise nothing happens. */
  function ScanOne(sc: Scan, id: int, now: int): Scan
  {
    if id in ItemDb && now - sc.lastScanTime > ScanCooldown then Accept(sc, ItemDb[id], now) else sc
  }

  /** All detections of a frame, in the order the detector reports them. */
  function ScanAll(sc: Scan, ids: seq<int>, now: int): Scan
    decreases |ids|
  {
    if ids == [] then sc else ScanOne(ScanAll(sc, ids[..|ids| - 1], now), ids[|ids| - 1], now)
  }

  /** Index of the first catalog product among the detected ids (|ids| if none). */
  function FirstListed(ids: seq<int>): (k: nat)
    ensures k <= |ids|
    ensures k < |ids| ==> ids[k] in ItemDb
    ensures forall j :: 0 <= j < k ==> ids[j] !in ItemDb
  {
    if ids == [] then 0
    else if ids[0] in ItemDb then 0
    else 1 + FirstListed(ids[1..])
  }

  /** The cooldown gate: a frame accepts at most one detection, and it accepts
      one exactly when the cooldown has expired and some detected id is a catalog
      product; the one accepted is the first such id. Otherwise cart, total,
      cooldown clock and feedback stay as they were. */
  lemma {:induction false} CooldownGate(sc: Scan, ids: seq<int>, now: int)
    ensures ScanAll(sc, ids, now) ==
      if now - sc.lastScanTime > ScanCooldown && FirstListed(ids) < |ids|
      then Accept(sc, ItemDb[ids[FirstListed(ids)]], now)
      else sc
    decreases |ids|
  {
    if ids != [] {
      var n := |ids|;
      var init := ids[..n - 1];
      CooldownGate(sc, init, now);
      FirstListedSnoc(ids);
      var mid := ScanAll(sc, init, now);
      if now - sc.lastScanTime > ScanCooldown && FirstListed(init) < |init| {
        assert mid.lastScanTime == now;
        assert ScanOne(mid, ids[n - 1], now) == mid;
        assert ids[FirstListed(ids)] == init[FirstListed(init)];
      }
    }
  }

  /** The first catalog id of a non-empty list, from that of all but its last id. */
  lemma FirstListedSnoc(ids: seq<int>)
    requires ids != []
    ensures var init := ids[..|ids| - 1];
      FirstListed(ids) ==
        if FirstListed(init) < |init| then FirstListed(init)
        else if ids[|ids| - 1] in ItemDb then |ids| - 1
        else |ids|
  {
    var n := |ids|;
    var init := ids[..n - 1];
    var g := FirstListed(init);
    if g < |init| {
      assert init[g] == ids[g];
    } else {
      forall j | 0 <= j < n - 1
        ensures ids[j] !in ItemDb
      {
        assert ids[j] == init[j];
      }
    }
  }

  /** The accumulator keeps the cart invariants: the total still matches the
      cart, names stay distinct, and lines stay catalog products. */
  lemma {:induction false} ScanAllKeepsCart(sc: Scan, ids: seq<int>, now: int)
    requires Total(sc.cart) == sc.total && NamesDistinct(sc.cart) && FromCatalog(sc.cart)
    ensures var r := ScanAll(sc, ids, now);
      Total(r.cart) == r.total && NamesDistinct(r.cart) && FromCatalog(r.cart)
    decreases |ids|
  {
    if ids != [] {
      var n := |ids|;
      ScanAllKeepsCart(sc, ids[..n - 1], now);
      var mid := ScanAll(sc, ids[..n - 1], now);
      var id := ids[n - 1];
      assert ScanAll(sc, ids, now) == ScanOne(mid, id, now);
      if id in ItemDb && now - mid.lastScanTime > ScanCooldown {
        var item := ItemDb[id];
        assert ScanOne(mid, id, now).cart == Added(mid.cart, item);
        assert ScanOne(mid, id, now).total == mid.total + item.price;
        AddedFromCatalog(mid.cart, id);
        OneLinePerName(mid.cart, item);
      }
    }
  }

  /** Feedback is written only by an accepted detection, and what it says. */
  lemma ScanFeedback(sc: Scan, ids: seq<int>, now: int)
    requires sc.feedback == ""
    ensures var r := ScanAll(sc, ids, now);
      (r.feedback == "" <==> r == sc) &&
      (r.feedback != "" ==> exists k :: 0 <= k < |ids| && ids[k] in ItemDb && r.feedback == AddedMessage(ItemDb[ids[k]].name))
  {
    CooldownGate(sc, ids, now);
    var r := ScanAll(sc, ids, now);
    if r != sc {
      assert r.feedback == AddedMessage(ItemDb[ids[FirstListed(ids)]].name);
      assert |r.feedback| > 0;
    }
  }

  // ----- Session state machine -----

  /** The mode after a frame, given whether a handshake fired and the debounce
      stamp after the sequencer ran. */
  function NextMode(mode: Mode, trigger: bool, now: int, debounce: int): Mode
  {
    match mode
    case Idle => if trigger then Scanning else Idle
    case Scanning => if trigger then Paid else Scanning
    case Paid => if now - debounce > PaidHold then Idle else Paid
  }

  /** A handshake in IDLE or SCANNING empties the cart. */
  predicate Clears(mode: Mode, trigger: bool)
  {
    trigger && mode != Paid
  }

  /** The feedback text for a frame that started in `mode`. */
  function Feedback(mode: Mode, scanFeedback: string): string
  {
    match mode
    case Idle => StartPrompt
    case Scanning => if scanFeedback == "" then ScanPrompt else scanFeedback
    case Paid => PaidMessage
  }

  // ----- Per-frame orchestration -----

  /** What the frame sends back. `mode` and `total` are read when the frame
      starts; `cart` is the cart object the frame started with, read when the
      response is sent. `boxes` holds the detected class ids. */
  datatype Snapshot = Snapshot(mode: Mode, feedback: string, cart: seq<Line>, total: int, boxes: seq<int>, gesture: Pose)

  datatype Outcome = Outcome(next: State, snapshot: Snapshot)

  /** The pose the sequencer sees: the hand's pose only when the detector saw
      nothing this frame and the hand tracker found a hand. */
  function FramePose(detected: bool, hand: Option<seq<int>>): Pose
    requires hand.Some? ==> |hand.value| == LandmarkCount
  {
    if !detected && hand.Some? then Classify(hand.value) else Unknown
  }

  /** Whether a product was detected: only a SCANNING frame runs the detector. */
  function Detected(s: State, ids: seq<int>): bool
  {
    s.mode == Scanning && |ids| > 0
  }

  /** Whether the frame's handshake fires. */
  function Triggered(s: State, ids: seq<int>, hand: Option<seq<int>>, now: int): bool
    requires hand.Some? ==> |hand.value| == LandmarkCount
  {
    Observe(s.memory, FramePose(Detected(s, ids), hand), now).trigger
  }

  /** One frame: `ids` are the class ids the detector would report, `hand` the
      landmark y coordinates of the hand the tracker would find, `now` the clock. */
  function FrameStep(s: State, ids: seq<int>, hand: Option<seq<int>>, now: int): Outcome
    requires hand.Some? ==> |hand.value| == LandmarkCount
  {
    var start := Scan(s.cart, s.total, s.lastScanTime, "");
    var sc := if s.mode == Scanning then ScanAll(start, ids, now) else start;
    var pose := FramePose(Detected(s, ids), hand);
    var o := Observe(s.memory, pose, now);
    var clears := Clears(s.mode, o.trigger);
    var next := State(NextMode(s.mode, o.trigger, now, o.memory.gestureDebounce),
                      if clears then [] else sc.cart, if clears then 0 else sc.total,
                      sc.lastScanTime, o.memory);
    Outcome(next, Snapshot(s.mode, Feedback(s.mode, sc.feedback), sc.cart, s.total,
                           if s.mode == Scanning then ids else [], pose))
  }

  /** Every frame keeps the invariant. */
  lemma FrameKeepsInv(s: State, ids: seq<int>, hand: Option<seq<int>>, now: int)
    requires hand.Some? ==> |hand.value| == LandmarkCount
    requires Inv(s)
    ensures Inv(FrameStep(s, ids, hand, now).next)
  {
    ScanAllKeepsCart(Scan(s.cart, s.total, s.lastScanTime, ""), ids, now);
  }

  /** The cooldown gate at frame level: the cart, total and cooldown clock change
      only through an accepted detection (a SCANNING frame, an expired cooldown,
      a catalog product), which restarts the clock at `now`, or through the
      clearing handshake. */
  lemma FrameCooldownGate(s: State, ids: seq<int>, hand: Option<seq<int>>, now: int)
    requires hand.Some? ==> |hand.value| == LandmarkCount
    ensures var next := FrameStep(s, ids, hand, now).next;
      var accepts := s.mode == Scanning && now - s.lastScanTime > ScanCooldown &&
        exists k :: 0 <= k < |ids| && ids[k] in ItemDb;
      var clears := Clears(s.mode, Triggered(s, ids, hand, now));
      (accepts ==> next.lastScanTime == now) &&
      (!accepts ==>
        (next.lastScanTime == s.lastScanTime &&
         next.cart == (if clears then [] else s.cart) && next.total == (if clears then 0 else s.total)))
  {
    CooldownGate(Scan(s.cart, s.total, s.lastScanTime, ""), ids, now);
  }

  /** A detected product suppresses the gesture: the frame sees no pose, no
      handshake fires, the remembered pose is forgotten, and the session stays
      in SCANNING. */
  lemma ProductSuppressesGesture(s: State, ids: seq<int>, hand: Option<seq<int>>, now: int)
    requires hand.Some? ==> |hand.value| == LandmarkCount
    requires s.mode == Scanning && |ids| > 0
    ensures var r := FrameStep(s, ids, hand, now);
      !Triggered(s, ids, hand, now) &&
      r.snapshot.gesture == Unknown && r.next.mode == Scanning &&
      r.next.memory == s.memory.(lastGesture := Unknown)
  {
  }

  /** The transition table. From IDLE a handshake starts a scan; from SCANNING a
      handshake pays; PAID returns to IDLE once more than the hold time has passed
      since the last handshake (a handshake while PAID restarts the hold). No
      other mode change happens, and entering SCANNING or PAID empties the cart. */
  lemma TransitionTable(s: State, ids: seq<int>, hand: Option<seq<int>>, now: int)
    requires hand.Some? ==> |hand.value| == LandmarkCount
    ensures var next := FrameStep(s, ids, hand, now).next;
      var t := Triggered(s, ids, hand, now);
      (s.mode == Idle ==> (next.mode == Scanning <==> t) && next.mode != Paid) &&
      (s.mode == Scanning ==> (next.mode == Paid <==> t) && next.mode != Idle) &&
      (s.mode == Paid ==>
        (next.mode == Idle <==> !t && now - s.memory.gestureDebounce > PaidHold) && next.mode != Scanning) &&
      (s.mode != Paid && t ==> next.cart == [] && next.total == 0)
  {
  }

  /** The feedback rules: IDLE always prompts to start, PAID always says it has
      been paid, and SCANNING announces the accepted product, or prompts to scan
      when none was accepted. */
  lemma FeedbackRules(s: State, ids: seq<int>, hand: Option<seq<int>>, now: int)
    requires hand.Some? ==> |hand.value| == LandmarkCount
    ensures var fb := FrameStep(s, ids, hand, now).snapshot.feedback;
      (s.mode == Idle ==> fb == StartPrompt) &&
      (s.mode == Paid ==> fb == PaidMessage) &&
      (s.mode == Scanning ==>
        if now - s.lastScanTime > ScanCooldown && FirstListed(ids) < |ids|
        then fb == AddedMessage(ItemDb[ids[FirstListed(ids)]].name)
        else fb == ScanPrompt)
  {
    CooldownGate(Scan(s.cart, s.total, s.lastScanTime, ""), ids, now);
  }

  /** The response shows the mode and total the frame started with, the cart the
      frame started with including what this frame added to it in place, but not
      a clearing made by this frame's handshake. */
  lemma SnapshotContents(s: State, ids: seq<int>, hand: Option<seq<int>>, now: int)
    requires hand.Some? ==> |hand.value| == LandmarkCount
    ensures var r := FrameStep(s, ids, hand, now);
      r.snapshot.mode == s.mode && r.snapshot.total == s.total &&
      (Clears(s.mode, Triggered(s, ids, hand, now)) ==> r.snapshot.cart == s.cart) &&
      (!Clears(s.mode, Triggered(s, ids, hand, now)) ==> r.snapshot.cart == r.next.cart)
  {
  }

  /** The response's total is read before the frame's detections are added, its
      cart after: a SCANNING frame that accepts a product sends a cart whose sum
      exceeds the total sent alongside it by exactly that product's price. */
  lemma SnapshotTotalLagsCart(s: State, ids: seq<int>, hand: Option<seq<int>>, now: int)
    requires hand.Some? ==> |hand.value| == LandmarkCount
    requires Inv(s) && s.mode == Scanning
    requires now - s.lastScanTime > ScanCooldown && FirstListed(ids) < |ids|
    ensures var r := FrameStep(s, ids, hand, now).snapshot;
      Total(r.cart) == r.total + ItemDb[ids[FirstListed(ids)]].price &&
      Total(r.cart) != r.total
  {
    var id := ids[FirstListed(ids)];
    CooldownGate(Scan(s.cart, s.total, s.lastScanTime, ""), ids, now);
    AddedFromCatalog(s.cart, id);
    PricesPositive(id);
  }
}
