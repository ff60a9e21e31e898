/** The gesture sequencer (pos_server.py, lines 188-211): a debounced OPEN then
    CLOSED "handshake" recognised over a stream of per-frame poses. Times are in
    milliseconds. */
module Handshake {
  import opened Gesture

  /** How long an OPEN pose waits for the CLOSED that completes it (3.0 s). */
  const GestureTimeout: int := 3000
  /** Minimum time between two handshakes (1.5 s). */
  const DebounceGuard: int := 1500

  /** What the sequencer remembers between frames: the most recent distinct pose,
      when it started, and when the last handshake fired. */
  datatype Memory = Memory(lastGesture: Pose, lastGestureTime: int, gestureDebounce: int)

  datatype Observation = Observation(memory: Memory, trigger: bool)

  /** A pose as seen by the sequencer after the expiry reset: a remembered pose
      older than the timeout counts as no pose. */
  function Held(m: Memory, now: int): Pose
  {
    if now - m.lastGestureTime > GestureTimeout then Unknown else m.lastGesture
  }

  /** One frame of the sequencer. */
  function Observe(m: Memory, pose: Pose, now: int): (r: Observation)
    // a handshake fires exactly when a CLOSED pose follows, within the timeout,
    // an OPEN pose, and the last handshake is more than the guard ago
    ensures r.trigger <==>
      pose == Closed && m.lastGesture == Open &&
      now - m.lastGestureTime <= GestureTimeout && now - m.gestureDebounce > DebounceGuard
    // a handshake stamps the debounce time; nothing else changes it
    ensures r.memory.gestureDebounce == if r.trigger then now else m.gestureDebounce
    // a visible pose becomes the remembered one; a new pose starts its clock now
    ensures pose != Unknown ==> r.memory.lastGesture == pose
    ensures pose != Unknown ==>
      r.memory.lastGestureTime == if pose != Held(m, now) then now else m.lastGestureTime
    // a frame without a pose forgets the remembered pose and keeps the clocks
    ensures pose == Unknown ==> r.memory == m.(lastGesture := Unknown)
  {
    if pose != Unknown then
      var held := Held(m, now);
      var trigger := now - m.gestureDebounce > DebounceGuard && held == Open && pose == Closed &&
        now - m.lastGestureTime <= GestureTimeout;
      var debounce := if trigger then now else m.gestureDebounce;
      if pose != held then Observation(Memory(pose, now, debounce), trigger)
      else Observation(Memory(held, m.lastGestureTime, debounce), trigger)
    else
      Observation(m.(lastGesture := Unknown), false)
  }

  /** One frame's input to the sequencer. */
  datatype Sample = Sample(pose: Pose, now: int)

  /** The times at which handshakes fire over a stream of samples. */
  function TriggerTimes(m: Memory, samples: seq<Sample>): seq<int>
    decreases |samples|
  {
    if samples == [] then []
    else
      var o := Observe(m, samples[0].pose, samples[0].now);
      (if o.trigger then [samples[0].now] else []) + TriggerTimes(o.memory, samples[1..])
  }

  /** Each time is more than the guard after the one before it (the first: after `since`). */
  predicate Spaced(since: int, times: seq<int>)
    decreases |times|
  {
    times == [] || (times[0] - since > DebounceGuard && Spaced(times[0], times[1..]))
  }

  /** The debounce guard holds over any stream: two handshakes are always more
      than 1.5 s apart, and the first is more than 1.5 s after the last one
      remembered. */
  lemma {:induction false} TriggersSpaced(m: Memory, samples: seq<Sample>)
    ensures Spaced(m.gestureDebounce, TriggerTimes(m, samples))
    decreases |samples|
  {
    if samples != [] {
      var o := Observe(m, samples[0].pose, samples[0].now);
      TriggersSpaced(o.memory, samples[1..]);
      var rest := TriggerTimes(o.memory, samples[1..]);
      if o.trigger {
        assert ([samples[0].now] + rest)[1..] == rest;
      } else {
        assert TriggerTimes(m, samples) == rest;
      }
    }
  }

  /** A handshake completes: a fresh OPEN at t0 and a CLOSED at t1 no later than the
      timeout after it, with the last handshake more than the guard before t1,
      fire exactly once, at t1. */
  lemma HandshakeFires(m: Memory, t0: int, t1: int)
    requires Held(m, t0) != Open
    requires t1 - t0 <= GestureTimeout
    requires t1 - m.gestureDebounce > DebounceGuard
    ensures TriggerTimes(m, [Sample(Open, t0), Sample(Closed, t1)]) == [t1]
  {
    var o := Observe(m, Open, t0);
    assert [Sample(Open, t0), Sample(Closed, t1)][1..] == [Sample(Closed, t1)];
    assert TriggerTimes(o.memory, [Sample(Closed, t1)]) == [t1] + TriggerTimes(Observe(o.memory, Closed, t1).memory, []);
  }

  /** A handshake that takes too long does not fire: CLOSED more than the timeout
      after a fresh OPEN triggers nothing. */
  lemma HandshakeExpires(m: Memory, t0: int, t1: int)
    requires Held(m, t0) != Open
    requires t1 - t0 > GestureTimeout
    ensures TriggerTimes(m, [Sample(Open, t0), Sample(Closed, t1)]) == []
  {
    var o := Observe(m, Open, t0);
    assert [Sample(Open, t0), Sample(Closed, t1)][1..] == [Sample(Closed, t1)];
    assert TriggerTimes(o.memory, [Sample(Closed, t1)]) == TriggerTimes(Observe(o.memory, Closed, t1).memory, []);
  }

  /** The timeout runs from the first frame of an OPEN, not the last: an OPEN
      repeated within the timeout keeps its first clock, so a CLOSED more than
      the timeout after the first OPEN fires nothing, however recent the repeat. */
  lemma HeldOpenKeepsFirstClock(m: Memory, t0: int, t1: int, t2: int)
    requires Held(m, t0) != Open
    requires t1 - t0 <= GestureTimeout && t2 - t0 > GestureTimeout
    ensures TriggerTimes(m, [Sample(Open, t0), Sample(Open, t1), Sample(Closed, t2)]) == []
  {
    var samples := [Sample(Open, t0), Sample(Open, t1), Sample(Closed, t2)];
    var o0 := Observe(m, Open, t0);
    var o1 := Observe(o0.memory, Open, t1);
    assert o1.memory.lastGestureTime == t0;
    assert samples[1..] == [Sample(Open, t1), Sample(Closed, t2)];
    assert samples[1..][1..] == [Sample(Closed, t2)];
    assert TriggerTimes(o1.memory, [Sample(Closed, t2)]) == TriggerTimes(Observe(o1.memory, Closed, t2).memory, []);
  }
}
