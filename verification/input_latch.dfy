/** The edge-triggered key latches shared by the two state-machine
    controllers. An input callback records a press or a release between
    fixed ticks; the fixed tick reads the latch and then clears its edges. */
module InputLatch {

  /** `pressed`: the key went down since the last fixed tick; `held`: the
      key is down; `released`: the key went up since the last fixed tick. */
  datatype Latch = Latch(pressed: bool, held: bool, released: bool)

  const Idle: Latch := Latch(false, false, false)

  /** `HandleJumpKeyInput` / `HandleCrouchKeyInput`: a press raises
      `pressed` and `held`, a release raises `released` and drops `held`;
      the opposite edge flag is left as it was. */
  function Record(k: Latch, isPressed: bool): (r: Latch)
    ensures r.held == isPressed
    ensures isPressed ==> r.pressed && r.released == k.released
    ensures !isPressed ==> r.released && r.pressed == k.pressed
  {
    if isPressed then k.(pressed := true, held := true) else k.(released := true, held := false)
  }

  /** `ResetJumpKeys` / `ResetCrouchKeys`: both edges dropped, `held` kept. */
  function ClearEdges(k: Latch): (r: Latch)
    ensures !r.pressed && !r.released && r.held == k.held
  {
    k.(pressed := false, released := false)
  }

  /** Pressing or releasing is idempotent; the key state after an event
      sequence is the last event; clearing the edges of a freshly pressed key
      leaves it held and edge-free. */
  lemma LatchLaws(k: Latch, isPressed: bool, next: bool)
    ensures Record(Record(k, isPressed), isPressed) == Record(k, isPressed)
    ensures Record(Record(k, isPressed), next).held == next
    ensures Record(Record(k, true), false).pressed && Record(Record(k, true), false).released
    ensures ClearEdges(Record(k, true)) == Latch(false, true, false)
    ensures ClearEdges(Record(k, false)) == Latch(false, false, false)
    ensures ClearEdges(ClearEdges(k)) == ClearEdges(k)
  {
  }

  /** The input callbacks that arrive between two fixed ticks, in order. */
  function RecordAll(k: Latch, events: seq<bool>): Latch
    decreases |events|
  {
    if |events| == 0 then k else RecordAll(Record(k, events[0]), events[1..])
  }

  /** Every edge that arrives between two ticks is seen by the next tick,
      even when the key went down and up again in between; `held` follows
      the last event. */
  lemma {:induction false} RecordAllSeesEveryEdge(k: Latch, events: seq<bool>)
    ensures RecordAll(k, events).pressed <==> k.pressed || true in events
    ensures RecordAll(k, events).released <==> k.released || false in events
    ensures |events| > 0 ==> RecordAll(k, events).held == events[|events| - 1]
    ensures |events| == 0 ==> RecordAll(k, events) == k
    decreases |events|
  {
    if |events| > 0 {
      RecordAllSeesEveryEdge(Record(k, events[0]), events[1..]);
      assert events == [events[0]] + events[1..];
      if |events| > 1 {
        assert events[1..][|events[1..]| - 1] == events[|events| - 1];
      }
    }
  }
}
