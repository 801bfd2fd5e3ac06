/** The daemon's state machine as the program runs it: ordered guarded branches that update
    fields in place and push each signal into the ring buffer. */
module PortalStateMachine {
  import opened PortalMachine
  import opened SignalRing

  /** The client on whose behalf an event is applied, if any. */
  datatype Context = NoContext | Client(id: ClientId)

  function IdOf(context: Context): ClientId {
    match context
    case NoContext => INVALID_CLIENT
    case Client(id) => id
  }

  /** The ring entries for signals emitted on behalf of one client. */
  function Tagged(signals: seq<Signal>, id: ClientId): (entries: seq<Entry>)
    ensures |entries| == |signals|
  {
    seq(|signals|, i requires 0 <= i < |signals| => Entry(signals[i], id))
  }

  /** Which doors an event filter accepts. */
  datatype DoorFilter = OnlyB2 | OnlyC2 | AnyDoor

  predicate IsOpenRequest(event: Event) {
    event == SshOpenFront || event == SshOpenBack
  }

  predicate IsCloseRequest(event: Event, shack: Shack) {
    || event == SshClose
    || (event == ButtonC2 && shack != ShackLocked)
    || (event == ButtonB2 && shack != ShackLocked)
  }

  predicate IsDoorUnlockEvent(event: Event, filter: DoorFilter) {
    || (event in {DoorB2Opened, DoorB2Closed} && filter != OnlyC2)
    || (event in {DoorC2Opened, DoorC2Closed} && filter != OnlyB2)
  }

  predicate IsDoorLockEvent(event: Event, filter: DoorFilter) {
    || (event == DoorB2Locked && filter != OnlyC2)
    || (event == DoorC2Locked && filter != OnlyB2)
  }

  predicate IsStateWaitForOpen(state: Activity) {
    state == WaitForOpenViaB || state == WaitForOpenViaC
  }

  predicate IsSshRequest(event: Event) {
    event == SshOpenBack || event == SshOpenFront || event == SshClose
  }

  /** The guards from the doorbell onwards, in the order of the program. */
  function OrderedService(smState: Activity, event: Event, shack: Shack): (Activity, seq<Signal>) {
    if event == DoorbellFront && shack == ShackOpen then
      (smState, [OpenDoorB])
    else if event == ButtonC2 && shack == ShackLocked then
      (smState, [OpenDoorC])
    else if event == ButtonB2 && shack == ShackLocked then
      (smState, [OpenDoorB])
    else if event == SshOpenFront && shack != ShackOpen && smState == Idle then
      (WaitForOpenViaB, [StartTimeout, OpenDoorB2Safe, OpenDoorB])
    else if event == SshOpenBack && shack != ShackOpen && smState == Idle then
      (WaitForOpenViaC, [StartTimeout, OpenDoorC2Safe, OpenDoorC])
    else if IsOpenRequest(event) && shack == ShackOpen && smState == Idle then
      (smState, [if event == SshOpenFront then OpenDoorB else OpenDoorC, ChangeKeyholder])
    else if IsCloseRequest(event, shack) && shack != ShackLocked && smState == Idle then
      (WaitForLocked, [StartTimeout, LockAll])
    else if IsSshRequest(event) && smState != Idle then
      (smState, [CannotHandleRequest])
    else if event == SshClose && shack == ShackLocked then
      (smState, [NoStateChange, OpenDoorB])
    else if IsSshRequest(event) then
      (smState, [CannotHandleRequest])
    else
      (smState, [])
  }

  /** The reaction to an event, decided guard by guard in the order of the program.
      `previousB2` and `previousC2` are the door views before the event, `shack` is the
      state computed after it. */
  function OrderedReply(smState: Activity, previousB2: DoorView, previousC2: DoorView, event: Event, shack: Shack): (Activity, seq<Signal>) {
    if event == Timeout && smState != Idle then
      (Idle, [UserRequestedTimedOut])
    else if previousB2 != Locked && event == DoorB2Locked && smState == WaitForOpenViaB then
      (WaitForLocked, [StartTimeout, UnlockTimeout])
    else if previousC2 != Locked && event == DoorC2Locked && smState == WaitForOpenViaC then
      (WaitForLocked, [StartTimeout, UnlockTimeout])
    else if event == DoorB2Opened && shack != ShackOpen && smState == WaitForOpenViaB then
      (smState, [OpenDoorC2Unsafe])
    else if event == DoorC2Opened && shack != ShackOpen && smState == WaitForOpenViaC then
      (smState, [OpenDoorB2Unsafe])
    else if IsDoorUnlockEvent(event, AnyDoor) && shack == ShackOpen && IsStateWaitForOpen(smState) then
      (Idle, [CancelTimeout, OpenSuccessful])
    else if IsDoorLockEvent(event, AnyDoor) && shack == ShackLocked && smState == WaitForLocked then
      (Idle, [CancelTimeout, LockSuccessful, OpenDoorB])
    else
      OrderedService(smState, event, shack)
  }

  lemma OrderedGuardsWhileIdle(before: Machine, event: Event, shack: Shack)
    requires before.activity == Idle
    ensures OrderedReply(before.activity, before.doorB2, before.doorC2, event, shack) == IdleReply(event, shack)
  {
    match event case SshOpenFront => case SshOpenBack => case SshClose => case _ =>
  }

  lemma OrderedGuardsWhileLocking(before: Machine, event: Event, shack: Shack)
    requires before.activity == WaitForLocked
    ensures OrderedReply(before.activity, before.doorB2, before.doorC2, event, shack) == LockingReply(event, shack)
  {
  }

  lemma OrderedGuardsWhileOpening(before: Machine, event: Event, via: Door)
    requires before.activity == WaitForOpenVia(via) && NewsOf(event).NoNews?
    ensures var shack := ShackState(Observe(before, event));
            OrderedReply(before.activity, before.doorB2, before.doorC2, event, shack)
            == OpeningReply(via, View(before, via), event, shack)
  {
  }

  lemma OrderedGuardsWhileOpeningOnNews(before: Machine, event: Event, via: Door)
    requires before.activity == WaitForOpenVia(via) && NewsOf(event).News?
    ensures var shack := ShackState(Observe(before, event));
            OrderedReply(before.activity, before.doorB2, before.doorC2, event, shack)
            == OpeningReply(via, View(before, via), event, shack)
  {
    match NewsOf(event) case News(B2, _) => case News(C2, _) =>
  }

  /** The order of the guards does not matter for what they decide: together they are the
      transition table.  In particular the last guard is never reached. */
  lemma OrderedGuardsAreTheTable(before: Machine, event: Event)
    ensures var shack := ShackState(Observe(before, event));
            OrderedReply(before.activity, before.doorB2, before.doorC2, event, shack) == Reply(before, event, shack)
  {
    match before.activity
    case Idle => OrderedGuardsWhileIdle(before, event, ShackState(Observe(before, event)));
    case WaitForLocked => OrderedGuardsWhileLocking(before, event, ShackState(Observe(before, event)));
    case _ =>
      var via := if before.activity == WaitForOpenViaB then B2 else C2;
      if NewsOf(event).News? {
        OrderedGuardsWhileOpeningOnNews(before, event, via);
      } else {
        OrderedGuardsWhileOpening(before, event, via);
      }
  }

  lemma StepThroughGuards(before: Machine, event: Event)
    ensures var seen := Observe(before, event);
            var shack := ShackState(seen);
            var (activity, reply) := OrderedReply(before.activity, before.doorB2, before.doorC2, event, shack);
            && Next(before, event) == seen.(activity := activity, lastShack := shack)
            && Signals(before, event) == (if shack == before.lastShack then [] else [StateChange]) + reply
  {
    OrderedGuardsAreTheTable(before, event);
  }

  class StateMachine {
    var state: Activity
    var doorC2: DoorView
    var doorB2: DoorView
    var lastShackState: Shack
    const ring: Ring

    ghost function Value(): Machine
      reads this
    {
      Machine(state, doorC2, doorB2, lastShackState)
    }

    constructor (ring: Ring)
      ensures Value() == Initial && this.ring == ring
    {
      state := Idle;
      doorC2, doorB2 := Unobserved, Unobserved;
      lastShackState := ShackUnobserved;
      this.ring := ring;
    }

    /** The shack state computed from the two door fields. */
    method GetShackState() returns (shack: Shack)
      ensures shack == ShackState(Value())
    {
      if doorC2 == Unobserved || doorB2 == Unobserved {
        return ShackUnobserved;
      }
      var lockedB2 := doorB2 == Locked;
      var lockedC2 := doorC2 == Locked;
      if lockedB2 && lockedC2 {
        return ShackLocked;
      } else if !lockedB2 && !lockedC2 {
        return ShackOpen;
      } else if !lockedC2 {
        return UnlockedViaC2;
      } else {
        return UnlockedViaB2;
      }
    }

    /** Notes the door state an event reports. */
    method ChangeDoorState(event: Event)
      modifies this`doorB2, this`doorC2
      ensures Value() == Observe(old(Value()), event)
    {
      if event == DoorB2Opened { doorB2 := Opened; }
      if event == DoorB2Closed { doorB2 := Closed; }
      if event == DoorB2Locked { doorB2 := Locked; }
      if event == DoorC2Opened { doorC2 := Opened; }
      if event == DoorC2Closed { doorC2 := Closed; }
      if event == DoorC2Locked { doorC2 := Locked; }
    }

    /** The ring holds what it held as `queue`, followed by `sent` on behalf of `context`
        as far as there was room. */
    ghost predicate Queued(context: Context, queue: seq<Entry>, sent: seq<Signal>)
      reads ring, ring.signals, ring.clientIds
    {
      && ring.Valid() && |queue| <= MAX_ITEMS
      && ring.contents == EnqueueAll(queue, Tagged(sent, IdOf(context)))
    }

    /** The signal callback: pushes one signal into the ring, which drops it when full.
        `sent` lists the signals already pushed since the ring held `queue`. */
    method SendSignal(context: Context, signal: Signal, ghost queue: seq<Entry>, ghost sent: seq<Signal>)
      returns (ghost sent': seq<Signal>)
      requires Queued(context, queue, sent)
      modifies ring, ring.signals, ring.clientIds
      ensures sent' == sent + [signal] && Queued(context, queue, sent')
    {
      var clientId := match context case Client(id) => id case NoContext => INVALID_CLIENT;
      var _ := ring.Push(signal, clientId);
      sent' := sent + [signal];
      EnqueueOneMore(queue, Tagged(sent, clientId), Entry(signal, clientId));
      assert Tagged(sent', clientId) == Tagged(sent, clientId) + [Entry(signal, clientId)];
    }

    /** Applies one event. */
    method ApplyEvent(event: Event, context: Context)
      requires ring.Valid()
      modifies this, ring, ring.signals, ring.clientIds
      ensures ring.Valid()
      ensures Value() == Next(old(Value()), event)
      ensures ring.contents ==
              EnqueueAll(old(ring.contents), Tagged(Signals(old(Value()), event), IdOf(context)))
    {
      ghost var before, queue, sent := Value(), ring.contents, [];
      var previousB2, previousC2 := doorB2, doorC2;
      ChangeDoorState(event);
      var shack := GetShackState();
      if shack != lastShackState {
        lastShackState := shack;
        sent := SendSignal(context, StateChange, queue, sent);
      }
      assert sent == if shack == before.lastShack then [] else [StateChange];
      React(event, context, previousB2, previousC2, shack, queue, sent);
      assert Value() == Observe(before, event).(activity := state, lastShack := shack);
      StepThroughGuards(before, event);
    }

    /** The guarded branches of `ApplyEvent`, taken after the shack state was compared. */
    method React(event: Event, context: Context, previousB2: DoorView, previousC2: DoorView, shack: Shack,
                 ghost queue: seq<Entry>, ghost sent: seq<Signal>)
      requires Queued(context, queue, sent)
      modifies this`state, ring, ring.signals, ring.clientIds
      ensures var (activity, reply) := OrderedReply(old(state), previousB2, previousC2, event, shack);
              state == activity && Queued(context, queue, sent + reply)
    {
      var smState := state;
      ghost var start, sent := sent, sent;

      if event == Timeout && smState != Idle {
        state := Idle;
        sent := SendSignal(context, UserRequestedTimedOut, queue, sent);
        return;
      }
      if previousB2 != Locked && event == DoorB2Locked && smState == WaitForOpenViaB {
        state := WaitForLocked;
        sent := SendSignal(context, StartTimeout, queue, sent);
        sent := SendSignal(context, UnlockTimeout, queue, sent);
        assert sent == start + [StartTimeout, UnlockTimeout];
        return;
      }
      if previousC2 != Locked && event == DoorC2Locked && smState == WaitForOpenViaC {
        state := WaitForLocked;
        sent := SendSignal(context, StartTimeout, queue, sent);
        sent := SendSignal(context, UnlockTimeout, queue, sent);
        assert sent == start + [StartTimeout, UnlockTimeout];
        return;
      }
      if event == DoorB2Opened && shack != ShackOpen && smState == WaitForOpenViaB {
        sent := SendSignal(context, OpenDoorC2Unsafe, queue, sent);
        return;
      }
      if event == DoorC2Opened && shack != ShackOpen && smState == WaitForOpenViaC {
        sent := SendSignal(context, OpenDoorB2Unsafe, queue, sent);
        return;
      }
      if IsDoorUnlockEvent(event, AnyDoor) && shack == ShackOpen && IsStateWaitForOpen(smState) {
        state := Idle;
        sent := SendSignal(context, CancelTimeout, queue, sent);
        sent := SendSignal(context, OpenSuccessful, queue, sent);
        assert sent == start + [CancelTimeout, OpenSuccessful];
        return;
      }
      if IsDoorLockEvent(event, AnyDoor) && shack == ShackLocked && smState == WaitForLocked {
        state := Idle;
        sent := SendSignal(context, CancelTimeout, queue, sent);
        sent := SendSignal(context, LockSuccessful, queue, sent);
        sent := SendSignal(context, OpenDoorB, queue, sent);
        assert sent == start + [CancelTimeout, LockSuccessful, OpenDoorB];
        return;
      }
      Serve(event, context, shack, queue, sent);
    }

    /** The guards from the doorbell onwards: requests that do not advance an operation. */
    method Serve(event: Event, context: Context, shack: Shack, ghost queue: seq<Entry>, ghost sent: seq<Signal>)
      requires Queued(context, queue, sent)
      modifies this`state, ring, ring.signals, ring.clientIds
      ensures var (activity, reply) := OrderedService(old(state), event, shack);
              state == activity && Queued(context, queue, sent + reply)
    {
      var smState := state;
      ghost var start, sent := sent, sent;

      if event == DoorbellFront && shack == ShackOpen {
        sent := SendSignal(context, OpenDoorB, queue, sent);
        return;
      }
      if event == ButtonC2 && shack == ShackLocked {
        sent := SendSignal(context, OpenDoorC, queue, sent);
        return;
      }
      if event == ButtonB2 && shack == ShackLocked {
        sent := SendSignal(context, OpenDoorB, queue, sent);
        return;
      }
      if event == SshOpenFront && shack != ShackOpen && smState == Idle {
        state := WaitForOpenViaB;
        sent := SendSignal(context, StartTimeout, queue, sent);
        sent := SendSignal(context, OpenDoorB2Safe, queue, sent);
        sent := SendSignal(context, OpenDoorB, queue, sent);
        assert sent == start + [StartTimeout, OpenDoorB2Safe, OpenDoorB];
        return;
      }
      if event == SshOpenBack && shack != ShackOpen && smState == Idle {
        state := WaitForOpenViaC;
        sent := SendSignal(context, StartTimeout, queue, sent);
        sent := SendSignal(context, OpenDoorC2Safe, queue, sent);
        sent := SendSignal(context, OpenDoorC, queue, sent);
        assert sent == start + [StartTimeout, OpenDoorC2Safe, OpenDoorC];
        return;
      }
      if IsOpenRequest(event) && shack == ShackOpen && smState == Idle {
        if event == SshOpenFront {
          sent := SendSignal(context, OpenDoorB, queue, sent);
        }
        if event == SshOpenBack {
          sent := SendSignal(context, OpenDoorC, queue, sent);
        }
        sent := SendSignal(context, ChangeKeyholder, queue, sent);
        assert sent == start + [if event == SshOpenFront then OpenDoorB else OpenDoorC, ChangeKeyholder];
        return;
      }
      if IsCloseRequest(event, shack) && shack != ShackLocked && smState == Idle {
        state := WaitForLocked;
        sent := SendSignal(context, StartTimeout, queue, sent);
        sent := SendSignal(context, LockAll, queue, sent);
        assert sent == start + [StartTimeout, LockAll];
        return;
      }
      if IsSshRequest(event) && smState != Idle {
        sent := SendSignal(context, CannotHandleRequest, queue, sent);
        return;
      }
      if event == SshClose && shack == ShackLocked {
        sent := SendSignal(context, NoStateChange, queue, sent);
        sent := SendSignal(context, OpenDoorB, queue, sent);
        assert sent == start + [NoStateChange, OpenDoorB];
        return;
      }
      if IsSshRequest(event) {
        // all three requests were answered above, busy or idle, so there is nothing left to refuse
        assert false;
      }
    }
  }
}
