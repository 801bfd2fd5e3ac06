/** The coordination logic of the portal daemon as a transition table.

    The daemon decides what an event means by walking through some seventeen guarded
    branches in order.  Here the same reaction is written as a table, one function per
    activity, in which no entry depends on the order of the others.  Module
    PortalStateMachine holds the ordered branches and proves them equal to this table. */
module PortalMachine {

  datatype Event =
    | DoorB2Opened | DoorB2Closed | DoorB2Locked
    | DoorC2Opened | DoorC2Closed | DoorC2Locked
    | SshOpenFront | SshOpenBack | SshClose
    | ButtonC2 | ButtonB2
    | DoorbellFront
    | Timeout

  datatype Signal =
    | OpenDoorB | OpenDoorC
    | OpenDoorB2Safe | OpenDoorC2Safe
    | OpenDoorB2Unsafe | OpenDoorC2Unsafe
    | LockAll
    | ChangeKeyholder | StateChange | NoStateChange
    | UnlockSuccessful | LockSuccessful | OpenSuccessful
    | CannotHandleRequest | UserRequestedTimedOut | UnlockTimeout
    | StartTimeout | CancelTimeout

  /** What the daemon believes about one inner door. */
  datatype DoorView = Unobserved | Opened | Closed | Locked

  datatype Shack = ShackUnobserved | ShackOpen | UnlockedViaB2 | UnlockedViaC2 | ShackLocked

  datatype Activity = Idle | WaitForLocked | WaitForOpenViaB | WaitForOpenViaC

  datatype Machine = Machine(activity: Activity, doorC2: DoorView, doorB2: DoorView, lastShack: Shack)

  const Initial := Machine(Idle, Unobserved, Unobserved, ShackUnobserved)

  datatype Door = B2 | C2

  function Other(door: Door): Door {
    if door == B2 then C2 else B2
  }

  /** The part of an event that reports a door state. */
  datatype News = NoNews | News(door: Door, view: DoorView)

  function NewsOf(e: Event): News {
    match e
    case DoorB2Opened => News(B2, Opened)
    case DoorB2Closed => News(B2, Closed)
    case DoorB2Locked => News(B2, Locked)
    case DoorC2Opened => News(C2, Opened)
    case DoorC2Closed => News(C2, Closed)
    case DoorC2Locked => News(C2, Locked)
    case _ => NoNews
  }

  function View(m: Machine, door: Door): DoorView {
    if door == B2 then m.doorB2 else m.doorC2
  }

  /** The machine after taking note of the door state an event reports. */
  function Observe(m: Machine, e: Event): Machine {
    match NewsOf(e)
    case NoNews => m
    case News(B2, view) => m.(doorB2 := view)
    case News(C2, view) => m.(doorC2 := view)
  }

  function ShackOf(b2: DoorView, c2: DoorView): Shack {
    match (b2, c2)
    case (Unobserved, _) => ShackUnobserved
    case (_, Unobserved) => ShackUnobserved
    case (Locked, Locked) => ShackLocked
    case (Locked, _) => UnlockedViaC2
    case (_, Locked) => UnlockedViaB2
    case (_, _) => ShackOpen
  }

  function ShackState(m: Machine): Shack {
    ShackOf(m.doorB2, m.doorC2)
  }

  function WaitForOpenVia(door: Door): Activity {
    if door == B2 then WaitForOpenViaB else WaitForOpenViaC
  }

  /** Doorbell and leave buttons are served whatever the daemon is doing. */
  function CourtesyReply(e: Event, shack: Shack): seq<Signal> {
    match e
    case DoorbellFront => if shack == ShackOpen then [OpenDoorB] else []
    case ButtonC2 => if shack == ShackLocked then [OpenDoorC] else []
    case ButtonB2 => if shack == ShackLocked then [OpenDoorB] else []
    case _ => []
  }

  function IdleReply(e: Event, shack: Shack): (Activity, seq<Signal>) {
    match e
    case SshOpenFront =>
      if shack == ShackOpen then (Idle, [OpenDoorB, ChangeKeyholder])
      else (WaitForOpenViaB, [StartTimeout, OpenDoorB2Safe, OpenDoorB])
    case SshOpenBack =>
      if shack == ShackOpen then (Idle, [OpenDoorC, ChangeKeyholder])
      else (WaitForOpenViaC, [StartTimeout, OpenDoorC2Safe, OpenDoorC])
    case SshClose =>
      if shack == ShackLocked then (Idle, [NoStateChange, OpenDoorB]) else (WaitForLocked, [StartTimeout, LockAll])
    case ButtonC2 =>
      if shack == ShackLocked then (Idle, CourtesyReply(e, shack)) else (WaitForLocked, [StartTimeout, LockAll])
    case ButtonB2 =>
      if shack == ShackLocked then (Idle, CourtesyReply(e, shack)) else (WaitForLocked, [StartTimeout, LockAll])
    case _ => (Idle, CourtesyReply(e, shack))
  }

  function LockingReply(e: Event, shack: Shack): (Activity, seq<Signal>) {
    match e
    case Timeout => (Idle, [UserRequestedTimedOut])
    case SshOpenFront => (WaitForLocked, [CannotHandleRequest])
    case SshOpenBack => (WaitForLocked, [CannotHandleRequest])
    case SshClose => (WaitForLocked, [CannotHandleRequest])
    case _ =>
      var news := NewsOf(e);
      if news.News? && news.view == Locked && shack == ShackLocked then
        (Idle, [CancelTimeout, LockSuccessful, OpenDoorB])
      else
        (WaitForLocked, CourtesyReply(e, shack))
  }

  /** The reaction while waiting for somebody to enter through `via`; `before` is the
      view of that door before the event. */
  function OpeningReply(via: Door, before: DoorView, e: Event, shack: Shack): (Activity, seq<Signal>) {
    match e
    case Timeout => (Idle, [UserRequestedTimedOut])
    case SshOpenFront => (WaitForOpenVia(via), [CannotHandleRequest])
    case SshOpenBack => (WaitForOpenVia(via), [CannotHandleRequest])
    case SshClose => (WaitForOpenVia(via), [CannotHandleRequest])
    case _ =>
      var news := NewsOf(e);
      if news.NoNews? then
        (WaitForOpenVia(via), CourtesyReply(e, shack))
      else if news.view != Locked && shack == ShackOpen then
        (Idle, [CancelTimeout, OpenSuccessful])
      else if news == News(via, Opened) then
        (WaitForOpenVia(via), [if via == B2 then OpenDoorC2Unsafe else OpenDoorB2Unsafe])
      else if news == News(via, Locked) && before != Locked then
        (WaitForLocked, [StartTimeout, UnlockTimeout])
      else
        (WaitForOpenVia(via), [])
  }

  function Reply(m: Machine, e: Event, shack: Shack): (Activity, seq<Signal>) {
    match m.activity
    case Idle => IdleReply(e, shack)
    case WaitForLocked => LockingReply(e, shack)
    case WaitForOpenViaB => OpeningReply(B2, m.doorB2, e, shack)
    case WaitForOpenViaC => OpeningReply(C2, m.doorC2, e, shack)
  }

  /** The machine after an event, and the signals it emits on the way. */
  function Step(m: Machine, e: Event): (Machine, seq<Signal>) {
    var seen := Observe(m, e);
    var shack := ShackState(seen);
    var notice := if shack == m.lastShack then [] else [StateChange];
    var (activity, reply) := Reply(m, e, shack);
    (seen.(activity := activity, lastShack := shack), notice + reply)
  }

  function Next(m: Machine, e: Event): Machine {
    Step(m, e).0
  }

  function Signals(m: Machine, e: Event): seq<Signal> {
    Step(m, e).1
  }
}
