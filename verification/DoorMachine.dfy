/** The state machine of one door controller: what it does on a change of the door and on
    an order, as values and as the object the firmware updates in place. */
module DoorMachine {

  const TIMEOUT_BUTTON_PRESS := 100       // ms
  const TIMEOUT_ENGAGE_BOLT := 20000      // ms
  const TIMEOUT_DISENGAGE_BOLT := 20000   // ms
  const TIMEOUT_USER_OPEN := 60000        // ms
  const TIMEOUT_USER_CLOSE := 30000       // ms

  datatype DoorState = Closed | Locked | Open | Fault

  datatype Logic = Idle | InitOpen | WaitForUnlocked | WaitForOpen | WaitForClosed | InitLock | WaitForLocked

  datatype Order = OpenSafe | OpenUnsafe | Close | Timeout

  datatype Outcome = Success | InProgress | Unexpected

  datatype Signal =
    | SignalOpening | SignalLocking | SignalUnlocked | SignalOpened
    | SignalNoEntry | SignalLocked | SignalErrorLocking | SignalErrorOpening
    | SignalCloseTimeout | SignalWaitForDoorClosed
    | SignalManuallyUnlocked | SignalManuallyLocked

  /** The machine's fields and the two motor pins it drives. */
  datatype Door = Door(logic: Logic, state: DoorState, unsafeAction: bool, openPin: bool, closePin: bool)

  /** What the machine asks of its timeout: nothing, to stop, or to start afresh. */
  datatype TimerRequest = Keep | Stop | Start(ms: nat)

  datatype Reaction = Reaction(door: Door, timer: TimerRequest, signals: seq<Signal>)

  function Boot(state: DoorState): Door {
    Door(Idle, state, false, false, false)
  }

  /** Entering a state, after signalling `said`. */
  function Enter(d: Door, said: seq<Signal>, logic: Logic): Reaction {
    var e := d.(logic := logic);
    match logic
    case Idle => Reaction(e.(openPin := false, closePin := false, unsafeAction := false), Stop, said)
    case InitOpen => Reaction(e.(openPin := true), Start(TIMEOUT_BUTTON_PRESS), said + [SignalOpening])
    case WaitForUnlocked => Reaction(e.(openPin := false), Start(TIMEOUT_DISENGAGE_BOLT), said)
    case WaitForOpen => Reaction(e, Start(TIMEOUT_USER_OPEN), said)
    case WaitForClosed => Reaction(e, Start(TIMEOUT_USER_CLOSE), said + [SignalWaitForDoorClosed])
    case InitLock => Reaction(e.(closePin := true), Start(TIMEOUT_BUTTON_PRESS), said)
    case WaitForLocked => Reaction(e.(closePin := false), Start(TIMEOUT_ENGAGE_BOLT), said)
  }

  function Stay(d: Door): Reaction {
    Reaction(d, Keep, [])
  }

  /** The reaction to a report of the door's state. */
  function OnReport(d: Door, state: DoorState): Reaction {
    if d.state == state then Stay(d) else
    var e := d.(state := state);
    match d.logic
    case InitOpen => Stay(e)
    case InitLock => Stay(e)
    case Idle =>
      Reaction(e, Keep,
        (if state == Locked then [SignalManuallyLocked] else []) +
        (if d.state == Locked then [SignalManuallyUnlocked] else []))
    case WaitForUnlocked =>
      if state != Closed && state != Open then Stay(e)
      else if d.unsafeAction then Enter(e, [SignalUnlocked], Idle)
      else if state == Closed then Enter(e, [SignalUnlocked], WaitForOpen)
      else Enter(e, [SignalUnlocked, SignalOpened], Idle)
    case WaitForOpen => if state == Open then Enter(e, [SignalOpened], Idle) else Stay(e)
    case WaitForClosed => if state == Closed then Enter(e, [SignalLocking], InitLock) else Stay(e)
    case WaitForLocked => if state == Locked then Enter(e, [SignalLocked], Idle) else Stay(e)
  }

  /** The reaction to an order, and what the order's sender is told. */
  function OnOrder(d: Door, order: Order): (Reaction, Outcome) {
    match order
    case Timeout =>
      (match d.logic
       case Idle => (Stay(d), Success)
       case InitOpen => (Enter(d, [], WaitForUnlocked), Success)
       case WaitForUnlocked => (Enter(d, [SignalErrorOpening], Idle), Success)
       case WaitForOpen => (Enter(d, [SignalNoEntry], InitLock), Success)
       case WaitForClosed => (Enter(d, [SignalCloseTimeout], Idle), Success)
       case InitLock => (Enter(d, [], WaitForLocked), Success)
       case WaitForLocked => (Enter(d, [], Idle).(signals := [SignalErrorLocking]), Success))
    case Close =>
      if d.logic != Idle then (Stay(d), InProgress)
      else (match d.state
        case Open => (Enter(d, [], WaitForClosed), Success)
        case Closed => (Enter(d, [], InitLock), Success)
        case Locked => (Stay(d), Success)
        case Fault => (Stay(d), Unexpected))
    case _ =>
      if d.logic != Idle then (Stay(d), InProgress)
      else
        var e := d.(unsafeAction := order == OpenUnsafe);
        match d.state
        case Locked => (Enter(e, [], InitOpen), Success)
        case Fault => (Stay(e), Unexpected)
        case _ => (Stay(e), Success)
  }

  // ---- The object ----

  class StateMachine {
    var doorState: DoorState
    var logicState: Logic
    var unsafeAction: bool

    // what the callbacks have done so far
    var openPin: bool
    var closePin: bool
    var timer: TimerRequest      // the last request, `Keep` if there was none
    var signals: seq<Signal>

    ghost function Value(): Door
      reads this
    {
      Door(logicState, doorState, unsafeAction, openPin, closePin)
    }

    constructor (initial: DoorState)
      ensures Value() == Boot(initial) && timer == Keep && signals == []
    {
      doorState, logicState, unsafeAction := initial, Idle, false;
      openPin, closePin, timer, signals := false, false, Keep, [];
    }

    /** The object has done what a reaction says, since the machine said `before`. */
    ghost predicate Did(r: Reaction, before: seq<Signal>, timerBefore: TimerRequest)
      reads this
    {
      && Value() == r.door
      && signals == before + r.signals
      && timer == if r.timer == Keep then timerBefore else r.timer
    }

    method Say(signal: Signal)
      modifies this`signals
      ensures signals == old(signals) + [signal]
    {
      signals := signals + [signal];
    }

    method SetTimeout(ms: nat)
      modifies this`timer
      ensures timer == if ms == 0 then Stop else Start(ms)
    {
      timer := if ms == 0 then Stop else Start(ms);
    }

    /** Enters a state, with everything that has to happen on entry. */
    method SetState(state: Logic)
      modifies this
      ensures Did(Enter(old(Value()), [], state), old(signals), old(timer))
    {
      logicState := state;
      match state
      case Idle =>
        closePin := false;
        openPin := false;
        SetTimeout(0);
        unsafeAction := false;
      case InitOpen =>
        openPin := true;
        SetTimeout(TIMEOUT_BUTTON_PRESS);
        Say(SignalOpening);
      case WaitForUnlocked =>
        openPin := false;
        SetTimeout(TIMEOUT_DISENGAGE_BOLT);
      case WaitForOpen =>
        SetTimeout(TIMEOUT_USER_OPEN);
      case WaitForClosed =>
        SetTimeout(TIMEOUT_USER_CLOSE);
        Say(SignalWaitForDoorClosed);
      case InitLock =>
        closePin := true;
        SetTimeout(TIMEOUT_BUTTON_PRESS);
      case WaitForLocked =>
        closePin := false;
        SetTimeout(TIMEOUT_ENGAGE_BOLT);
    }

    /** Takes note of the door's state. */
    method ChangeDoorState(newState: DoorState)
      modifies this
      ensures Did(OnReport(old(Value()), newState), old(signals), old(timer))
    {
      if doorState == newState {
        return;
      }
      var oldState := doorState;
      doorState := newState;
      match logicState
      case InitOpen =>
      case InitLock =>
      case Idle =>
        if newState == Locked {
          Say(SignalManuallyLocked);
        }
        if oldState == Locked {
          Say(SignalManuallyUnlocked);
        }
      case WaitForUnlocked =>
        if newState == Closed || newState == Open {
          Say(SignalUnlocked);
          if unsafeAction {
            SetState(Idle);
          } else if newState == Closed {
            SetState(WaitForOpen);
          } else {
            Say(SignalOpened);
            SetState(Idle);
          }
        }
      case WaitForOpen =>
        if newState == Open {
          Say(SignalOpened);
          SetState(Idle);
        }
      case WaitForClosed =>
        if newState == Closed {
          Say(SignalLocking);
          SetState(InitLock);
        }
      case WaitForLocked =>
        if newState == Locked {
          Say(SignalLocked);
          SetState(Idle);
        }
    }

    /** Carries out an order. */
    method SendEvent(order: Order) returns (outcome: Outcome)
      modifies this
      ensures var (reaction, told) := OnOrder(old(Value()), order);
              outcome == told && Did(reaction, old(signals), old(timer))
    {
      match order
      case OpenSafe => outcome := SendOpen(order);
      case OpenUnsafe => outcome := SendOpen(order);
      case Close =>
        if logicState != Idle {
          return InProgress;
        }
        match doorState {
          case Open => SetState(WaitForClosed);
          case Closed => SetState(InitLock);
          case Locked =>
          case Fault => return Unexpected;
        }
        return Success;
      case Timeout =>
        match logicState {
          case Idle =>
          case InitOpen => SetState(WaitForUnlocked);
          case WaitForUnlocked =>
            Say(SignalErrorOpening);
            SetState(Idle);
          case WaitForOpen =>
            Say(SignalNoEntry);
            SetState(InitLock);
          case WaitForClosed =>
            Say(SignalCloseTimeout);
            SetState(Idle);
          case InitLock => SetState(WaitForLocked);
          case WaitForLocked =>
            SetState(Idle);
            Say(SignalErrorLocking);
        }
        return Success;
    }

    /** Carries out an order to open. */
    method SendOpen(order: Order) returns (outcome: Outcome)
      requires order == OpenSafe || order == OpenUnsafe
      modifies this
      ensures var (reaction, told) := OnOrder(old(Value()), order);
              outcome == told && Did(reaction, old(signals), old(timer))
    {
      if logicState != Idle {
        return InProgress;
      }
      unsafeAction := order == OpenUnsafe;
      match doorState {
        case Locked => SetState(InitOpen);
        case Open =>
        case Closed =>
        case Fault => return Unexpected;
      }
      return Success;
    }
  }
}
