# Kiosk session controller

A model of the session controller of a self-checkout kiosk server. For each
camera frame, a product detector reports class ids and a hand tracker reports
hand landmarks. From these the controller keeps a cart with a running total,
recognises an "open hand, then fist" handshake, and moves a three-state session
(IDLE, SCANNING, PAID) through its lifecycle. It answers every frame with a
state snapshot.

The source writes all of this inline in one websocket loop. It is modelled
here in parts:

- `Catalog`: the fixed product table, keyed by class id. Prices are in cents.
- `Gesture`: the pose classifier, as a pure `Classify` and as the counting loop
  `GetGestureState`.
- `ShoppingCart`: cart lines, the merge-or-append step `Added`, and the `Cart`
  object whose `Add` method runs the source's search loop with `break`.
- `Handshake`: the debounced OPEN-then-CLOSED sequencer `Observe`.
- `Session`: the whole session as a value. `FrameStep` runs one frame: the
  accumulator (`ScanAll`), the sequencer, and the state machine (`NextMode`,
  `Feedback`). The lemmas about it live here too.
- `Kiosk`: the `KioskState` class. Its fields are the source's mutable fields;
  the two it never changes, `cooldown` and `gesture_timeout`, are the constants
  `Session.ScanCooldown` and `Handshake.GestureTimeout`. Its `Frame` method updates them in place, in the source's order, and is proved
  equal to `FrameStep`.
- `Scenarios`: a concrete run of a full checkout.

Timestamps are integer milliseconds taken once per frame. So the cooldown is
2500, the handshake timeout 3000, the debounce guard 1500 and the paid hold
2000. Landmark y coordinates are integers; the classifier only compares them
with `<`.

The response keeps the source's aliasing. The source copies `mode` and `total`
into it when the frame starts. It stores a reference to the cart list itself. The
model gives the cart its own object (`ShoppingCart.Cart`), and the response
holds the object the frame started with. So products added in place during the
frame appear in the response. A cart emptied by that frame's handshake is
replaced by a new object, so the emptying does not appear. One consequence is
proved in `Session.SnapshotTotalLagsCart`: every frame that adds a product sends
the new cart with the old total, so the cart's sum exceeds the total sent by the
product's price.

The model follows the code on these points, where a reader might expect otherwise:

- A trigger does not end the sequencer step early. The code then records CLOSED
  as the last gesture, with the current time (pos_server.py:207-209).
- Nothing empties the cart on the step from PAID back to IDLE
  (pos_server.py:232-235). The cart is already empty in PAID, as `Session.Inv`
  states.
- Each accepted detection overwrites the feedback, so the last one would win
  (pos_server.py:161). With one clock reading per frame, at most one detection
  is accepted per frame (`Session.CooldownGate`), so first-wins and last-wins
  give the same result.
- The handshake timeout runs from the first frame of an OPEN, not the last. A
  repeated OPEN within the timeout keeps its first clock (pos_server.py:207-209),
  so OPEN at 0 ms, OPEN again at 2900 ms and CLOSED at 3100 ms fires nothing
  (`Handshake.HeldOpenKeepsFirstClock`).
- Disconnecting sets the mode to IDLE and leaves the cart and total as they are
  (pos_server.py:242).

## Model

| member | source | states |
|---|---|---|
| `Catalog.IdOfNameInverse` | pos_server.py:34-69 | No two catalog entries share a name: from an entry's name you get back its class id |
| `Catalog.PricesPositive` | pos_server.py:34-69 | Every catalog product has a price above zero |
| `Gesture.CountExtendedBounds` | pos_server.py:75-78 | The extended-finger count is at most the number of fingers counted. It equals that number iff every counted finger has its tip above its PIP joint, and is 0 iff none has |
| `Gesture.Classify` | pos_server.py:72-82 | OPEN iff all four fingertips have a smaller y than their PIP joints; CLOSED iff none does; UNKNOWN iff some do and some do not |
| `Gesture.GetGestureState` | pos_server.py:72-82 | The counting loop returns exactly the pose `Classify` defines |
| `ShoppingCart.FindName` | pos_server.py:149-154 | The cart search stops at the first line with the name, or past the end when there is none |
| `ShoppingCart.OneLinePerName` | pos_server.py:149-157 | With distinct names, adding a product already in the cart increments exactly that line and changes nothing else. Adding a new product appends exactly one line with quantity 1. Names stay distinct |
| `ShoppingCart.TotalAdded` | pos_server.py:150-159 | If every line with the product's name has the product's price, adding the product raises the cart's sum of price * quantity by exactly that price |
| `ShoppingCart.AddedFromCatalog` | pos_server.py:144-159 | Adding a catalog product keeps every line a catalog product with quantity at least 1, and raises the sum by the catalog price |
| `ShoppingCart.Cart.constructor` | pos_server.py:88 | A new cart has no lines |
| `ShoppingCart.Cart.Add` | pos_server.py:149-157 | The in-place search, increment and append leave the lines equal to `Added` of the old lines |
| `Handshake.Observe` | pos_server.py:192-211 | A handshake fires iff the pose is CLOSED, the remembered pose is OPEN and at most 3 s old, and the last handshake is more than 1.5 s ago. A handshake stamps the debounce time and nothing else changes it. A visible pose becomes the remembered one. A frame with no pose forgets the remembered pose and keeps both clocks |
| `Handshake.TriggersSpaced` | pos_server.py:198-203 | Over any stream of poses, each handshake is more than 1.5 s after the previous one; the first is more than 1.5 s after the stamp it started from |
| `Handshake.HandshakeFires` | pos_server.py:192-209 | A fresh OPEN, then CLOSED at most 3 s later, with no handshake in the 1.5 s before, fires exactly once, at the CLOSED frame |
| `Handshake.HandshakeExpires` | pos_server.py:194-201 | CLOSED more than 3 s after a fresh OPEN fires nothing |
| `Handshake.HeldOpenKeepsFirstClock` | pos_server.py:192-209 | A fresh OPEN, OPEN again within 3 s, then CLOSED more than 3 s after the first OPEN fires nothing: a repeated pose keeps its first clock |
| `Session.InitialInv` | pos_server.py:85-95 | The initial state has an empty cart, total 0 and mode IDLE, so it meets the invariant |
| `Session.FirstListed` | pos_server.py:143-144 | Finds the first detected id that is in the catalog, or returns the list length when there is none |
| `Session.CooldownGate` | pos_server.py:143-161 | A frame's detections accept at most one product. One is accepted iff the cooldown has expired (strictly more than 2.5 s) and some detected id is in the catalog; it is the first such id, and it restarts the cooldown at `now`. Otherwise cart, total, cooldown clock and feedback are unchanged |
| `Session.ScanAllKeepsCart` | pos_server.py:150-159 | Accepting detections keeps the total equal to the cart's sum, keeps one line per name, and keeps every line a catalog product |
| `Session.ScanFeedback` | pos_server.py:161 | The accumulator's feedback stays empty iff nothing was accepted. Otherwise it is "Added {name}!" for a detected catalog product |
| `Session.FrameKeepsInv` | pos_server.py:113-235 | Every frame preserves the invariant: total equals the cart's sum, one line per name, lines from the catalog, and an empty cart in PAID |
| `Session.FrameCooldownGate` | pos_server.py:127-160 | The cooldown clock moves only through an accepted detection in a SCANNING frame. Without one, cart and total change only through the clearing handshake |
| `Session.ProductSuppressesGesture` | pos_server.py:124-131 | A SCANNING frame with any detected box sees no pose, fires no handshake, forgets the remembered pose and stays in SCANNING |
| `Session.TransitionTable` | pos_server.py:213-235 | The only mode changes are IDLE to SCANNING on a handshake, SCANNING to PAID on a handshake, and PAID to IDLE once more than 2 s have passed since the last handshake. A handshake in PAID keeps it in PAID. Entering SCANNING or PAID empties the cart and zeroes the total |
| `Session.FeedbackRules` | pos_server.py:214-233 | IDLE always gets the start prompt and PAID always gets "Paid! Resetting...". SCANNING gets "Added {name}!" for the accepted product, or the scanning prompt when none was accepted |
| `Session.SnapshotContents` | pos_server.py:113-121 | The response carries the mode and total the frame started with. Its cart includes the frame's additions but not a clearing made by that frame |
| `Session.SnapshotTotalLagsCart` | pos_server.py:113-159 | In any SCANNING frame that accepts a product, the response's cart sums to the response's total plus that product's price, so the two never match |
| `Kiosk.KioskState.constructor` | pos_server.py:85-95 | The initial field values, meeting the invariant |
| `Kiosk.KioskState.Frame` | pos_server.py:113-238 | One frame updates the fields and returns the response exactly as `FrameStep` defines, and keeps the invariant |
| `Kiosk.KioskState.AddDetections` | pos_server.py:127-161 | The detection loop leaves cart, total, cooldown clock and feedback as `ScanAll` defines. The boxes are the detected ids. The gesture fields and the mode are untouched |
| `Kiosk.KioskState.ObserveGesture` | pos_server.py:188-211 | The in-place sequencer leaves the gesture fields and the trigger as `Observe` defines |
| `Kiosk.KioskState.RunStateMachine` | pos_server.py:213-235 | Takes the `NextMode` edge, chooses the `Feedback` text, and replaces the cart with a new empty one only on a clearing handshake |
| `Kiosk.KioskState.Disconnect` | pos_server.py:240-242 | A disconnect sets the mode to IDLE and changes nothing else |
| `Scenarios.Checkout` | pos_server.py:113-235 | In a full checkout, a handshake starts scanning with an empty cart. Scanning class id 3 gives one "Coke in Can" line at 45.00 and the feedback "Added Coke in Can!". A second handshake pays and empties the cart, and 2.5 s later the kiosk is IDLE |

## Left out

- Model loading and inference (the object detector and the hand tracker) are calls into other libraries. Their results are parameters of `Frame`: the detected class ids, and the hand's 21 landmark y values or none.
- Image decoding, the websocket receive and send, JSON serialisation and the server entry point are I/O.
- The beep subprocess and the log prints are side effects with no effect on state.
- Box coordinates and the response's `hand_coords` are floats passed through to the client. Boxes are represented by their class ids; `hand_coords` is omitted.
- Prices are integer cents, not floats, so the float rounding drift of the running total is not modelled.
- Timestamps are integers, and `now` is read once per frame. The source reads the clock again for each detection and for the PAID hold check, so it can see slightly different times within one frame.
- Only the `<` comparison of landmark y values matters, so they are integers rather than floats.
- The session object is shared by every connection in the source. One session is modelled, with no concurrency.
- Errors other than a disconnect end the loop without changing state, which is not modelled.
- test_detection.py, download_dataset.py and detect_rocm.py are stand-alone scripts with no session logic.
