/** The smoothing of a door controller's sensors: a circular window of eight readings that
    is stable when all of them agree. */
module SensorWindow {
  import opened DoorMachine

  const SIZE := 8

  /** What the window holds before the first reading. */
  const INITIAL := [Open, Closed, Locked, Fault, Closed, Closed, Closed, Closed]

  /** The reading of the two contacts: never a fault, and locked only if both are made. */
  function Classify(closed: bool, locked: bool): (state: DoorState)
    ensures state != Fault
    ensures state == Open <==> !closed
    ensures state == Locked <==> closed && locked
  {
    if closed then (if locked then Locked else Closed) else Open
  }

  /** The last eight readings, oldest first, after the given ones were taken. */
  function LastReadings(readings: seq<DoorState>): (window: seq<DoorState>)
    ensures |window| == SIZE
  {
    (INITIAL + readings)[|readings|..]
  }

  ghost predicate Agree(window: seq<DoorState>, state: DoorState) {
    forall i :: 0 <= i < |window| ==> window[i] == state
  }

  lemma LastReadingsMoveOn(readings: seq<DoorState>, state: DoorState)
    ensures LastReadings(readings + [state]) == LastReadings(readings)[1..] + [state]
  {
    assert INITIAL + (readings + [state]) == (INITIAL + readings) + [state];
  }

  class Window {
    ghost var readings: seq<DoorState>   // all readings so far
    const states: array<DoorState>
    var next: nat

    ghost predicate Valid()
      reads this, states
    {
      && states.Length == SIZE && next < SIZE
      && LastReadings(readings) == states[next..] + states[..next]
    }

    constructor ()
      ensures Valid() && readings == [] && fresh(states)
    {
      states := new DoorState[SIZE](i requires 0 <= i < SIZE => INITIAL[i]);
      next := 0;
      readings := [];
      new;
      assert LastReadings([]) == INITIAL == states[..];
    }

    /** Takes a reading into the place of the oldest one. */
    method Push(state: DoorState)
      requires Valid()
      modifies this, states
      ensures Valid() && readings == old(readings) + [state]
    {
      ghost var newer, older := states[next+1..], states[..next];
      assert LastReadings(readings)[1..] == newer + older;
      states[next] := state;
      assert states[next+1..] == newer && states[..next+1] == older + [state];
      next := next + 1;
      if next >= SIZE {
        next := 0;
      }
      LastReadingsMoveOn(readings, state);
      readings := readings + [state];
      assert (newer + older) + [state] == newer + (older + [state]);
    }

    /** The state all readings in the window agree on, if there is one. */
    method Smoothed() returns (ok: bool, state: DoorState)
      requires Valid()
      ensures ok ==> Agree(LastReadings(readings), state)
      ensures !ok ==> state == Fault && forall s :: !Agree(LastReadings(readings), s)
    {
      ghost var window := states[next..] + states[..next];
      assert forall i | 0 <= i < SIZE :: states[i] == window[if i < next then SIZE - next + i else i - next];
      var filter := states[0];
      for i := 1 to SIZE
        invariant forall k :: 0 <= k < i ==> states[k] == filter
      {
        if states[i] != filter {
          return false, Fault;
        }
      }
      return true, filter;
    }
  }

  // ---- What stability means ----

  predicate Sane(readings: seq<DoorState>) {
    Fault !in readings
  }

  /** Once eight readings were taken, the window is stable exactly when these eight agree. */
  lemma StableWhenLastEightAgree(readings: seq<DoorState>, state: DoorState)
    requires |readings| >= SIZE
    ensures Agree(LastReadings(readings), state) <==> Agree(readings[|readings|-SIZE..], state)
  {
    assert LastReadings(readings) == readings[|readings|-SIZE..];
  }

  /** Before that it is stable only in one case: at least four readings were taken and all
      of them found the door closed, as the rest of the initial window happens to say. */
  lemma StableBeforeEightReadings(readings: seq<DoorState>, state: DoorState)
    requires |readings| < SIZE && Sane(readings)
    ensures Agree(LastReadings(readings), state) <==>
            state == Closed && |readings| >= 4 && Agree(readings, Closed)
  {
    var window, n := LastReadings(readings), |readings|;
    assert forall i | 0 <= i < SIZE - n :: window[i] == INITIAL[n + i];
    assert forall i | 0 <= i < n :: window[SIZE - n + i] == readings[i];
    if n < 4 {
      assert window[3 - n] == Fault && window[4 - n] == Closed;
    } else {
      assert window[SIZE - n - 1] == Closed;
    }
  }

  /** No sane reading ever makes the window agree on a fault. */
  lemma StableIsNeverFault(readings: seq<DoorState>, state: DoorState)
    requires Sane(readings) && Agree(LastReadings(readings), state)
    ensures state != Fault
  {
    if |readings| >= SIZE {
      StableWhenLastEightAgree(readings, state);
      assert readings[|readings| - 1] in readings && readings[|readings|-SIZE..][SIZE-1] == state;
    } else {
      StableBeforeEightReadings(readings, state);
    }
  }
}
