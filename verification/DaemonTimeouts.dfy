/** Whose timeout it is that the daemon reads.  There is one timer for all operations, and
    the requests to start and cancel it wait in the ring; so when it is read it may still be
    running for an operation that is over. */
module DaemonTimeouts {
  import opened PortalMachine
  import opened PortalRuns
  import opened PortalStateMachine
  import opened SignalRing
  import opened ClientTable
  import opened DaemonModel
  import opened DaemonLemmas
  import opened DaemonRuns
  import opened DaemonScenarios
  import opened Topics

  // ---- Counting the requests for a timeout ----

  /** How many requests for a timeout are queued. */
  function Queued(entries: seq<Entry>): nat {
    if entries == [] then 0
    else (if entries[0].signal == StartTimeout then 1 else 0) + Queued(entries[1..])
  }

  lemma {:induction false} QueuedOfConcat(a: seq<Entry>, b: seq<Entry>)
    ensures Queued(a + b) == Queued(a) + Queued(b)
  {
    if a == [] {
      assert a + b == b;
    } else {
      assert (a + b)[1..] == a[1..] + b;
      QueuedOfConcat(a[1..], b);
    }
  }

  lemma {:induction false} NoneQueued(entries: seq<Entry>)
    ensures Queued(entries) == 0 <==> forall e <- entries :: e.signal != StartTimeout
  {
    if entries != [] {
      NoneQueued(entries[1..]);
      assert entries == [entries[0]] + entries[1..];
    }
  }

  /** The requests an action makes and the requests it carries out. */
  function Asks(d: Daemon, a: Action): nat {
    match EventOf(a)
    case Some(event) => Queued(Tagged(Signals(d.state.machine, event), INVALID_CLIENT))
    case None => 0
  }

  function CarriesOut(d: Daemon, a: Action): nat {
    if a.NextSignal? && d.state.ring != [] && d.state.ring[0].signal == StartTimeout then 1 else 0
  }

  /** All requests made, and all carried out, up to a state of a run.  The machine's operation
      is the one that made the last request; the timer runs for the last one carried out. */
  function Asked(trace: seq<Daemon>, actions: seq<Action>, j: nat): nat
    requires j <= |actions| <= |trace|
  {
    if j == 0 then 0 else Asked(trace, actions, j - 1) + Asks(trace[j-1], actions[j-1])
  }

  function CarriedOut(trace: seq<Daemon>, actions: seq<Action>, j: nat): nat
    requires j <= |actions| <= |trace|
  {
    if j == 0 then 0 else CarriedOut(trace, actions, j - 1) + CarriesOut(trace[j-1], actions[j-1])
  }

  lemma {:induction false} QueuedWhateverTheClient(signals: seq<Signal>, id: ClientId)
    ensures Queued(Tagged(signals, id)) == Queued(Tagged(signals, INVALID_CLIENT))
  {
    if signals != [] {
      assert Tagged(signals, id)[1..] == Tagged(signals[1..], id);
      assert Tagged(signals, INVALID_CLIENT)[1..] == Tagged(signals[1..], INVALID_CLIENT);
      QueuedWhateverTheClient(signals[1..], id);
    }
  }

  lemma ApplyQueues(s: State, event: Event, context: Context)
    requires |s.ring| <= MAX_ITEMS && !Apply(s, event, context).dropped
    ensures Queued(Apply(s, event, context).ring) ==
            Queued(s.ring) + Queued(Tagged(Signals(s.machine, event), INVALID_CLIENT))
  {
    ApplyAppends(s, event, context);
    QueuedOfConcat(s.ring, Tagged(Signals(s.machine, event), IdOf(context)));
    QueuedWhateverTheClient(Signals(s.machine, event), IdOf(context));
  }

  lemma ActionQueues(d: Daemon, a: Action)
    requires |d.state.ring| <= MAX_ITEMS && Enabled(d, a) && !Do(d, a).state.dropped
    ensures Queued(Do(d, a).state.ring) + CarriesOut(d, a) == Queued(d.state.ring) + Asks(d, a)
    ensures !d.state.dropped
  {
    var s := d.state;
    match a
    case NextSignal => HandleTouches(s.(ring := s.ring[1..]), s.ring[0]);
    case Incoming(message) => MessageQueues(s, message);
    case TimerRead => ApplyQueues(s.(timer := Disarmed), Timeout, NoContext);
    case FromClient(slot, request) => RequestQueues(d, slot, request);
    case _ =>
  }

  lemma MessageQueues(s: State, message: Message)
    requires |s.ring| <= MAX_ITEMS && !Receive(s, message).dropped
    ensures !s.dropped
    ensures Queued(Receive(s, message).ring) == Queued(s.ring) +
            match Decode(message)
            case Some(event) => Queued(Tagged(Signals(s.machine, event), INVALID_CLIENT))
            case None => 0
  {
    if Decode(message).Some? {
      ApplyQueues(s, Decode(message).value, NoContext);
    }
  }

  lemma RequestQueues(d: Daemon, slot: nat, request: Request)
    requires |d.state.ring| <= MAX_ITEMS && Enabled(d, FromClient(slot, request))
    requires !Serve(d.state, slot, request).dropped
    ensures !d.state.dropped
    ensures Queued(Serve(d.state, slot, request).ring) == Queued(d.state.ring) + Asks(d, FromClient(slot, request))
  {
    var s, event := d.state, EventOf(FromClient(slot, request));
    if event.Some? {
      var flags := if request.Close? then CLOSE_FLAGS else OPEN_FLAGS;
      ApplyQueues(s.(clients := Marked(s.clients, slot, flags)), event.value, Client(s.clients[slot].info.clientId));
    }
  }

  /** In every run that has lost no signal, a request was carried out or is still queued. */
  lemma {:induction false} RequestsAreAccounted(trace: seq<Daemon>, actions: seq<Action>, j: nat)
    requires IsRun(trace, actions) && j <= |actions| && !trace[j].state.dropped
    ensures Asked(trace, actions, j) == CarriedOut(trace, actions, j) + Queued(trace[j].state.ring)
  {
    if j > 0 {
      RunStepTo(trace, actions, j);
      StepIsAccounted(trace[j-1], actions[j-1], trace[j]);
      RequestsAreAccounted(trace, actions, j - 1);
    } else {
      RunBeginning(trace, actions, 0);
    }
  }

  lemma StepIsAccounted(d: Daemon, a: Action, d': Daemon)
    requires Leads(d, a, d') && !d'.state.dropped
    ensures Queued(d'.state.ring) + CarriesOut(d, a) == Queued(d.state.ring) + Asks(d, a)
    ensures !d.state.dropped
  {
    ActionQueues(d, a);
  }

  // ---- The timeout of an operation ----

  predicate ConcernsTimer(e: Entry) {
    e.signal in {StartTimeout, CancelTimeout}
  }

  /** What is queued leaves the timer alone, or decides what becomes of it. */
  lemma {:induction false} TimerIsDecided(t: Timer, u: Timer, entries: seq<Entry>)
    ensures if exists e <- entries :: ConcernsTimer(e)
            then TimerAfter(t, entries) == TimerAfter(u, entries) != Fired
            else TimerAfter(t, entries) == t && TimerAfter(u, entries) == u
    decreases |entries|
  {
    if entries != [] {
      var first, rest := entries[0], entries[1..];
      assert first in entries && forall e :: e in entries <==> e == first || e in rest;
      if !exists e <- entries :: ConcernsTimer(e) {
        assert !ConcernsTimer(first);
        assert forall e <- rest :: !ConcernsTimer(e);
      }
      TimerIsDecided(TimerEffect(t, entries[0].signal), TimerEffect(u, entries[0].signal), entries[1..]);
    }
  }

  lemma {:induction false} OnlyCancelling(t: Timer, entries: seq<Entry>)
    requires (exists e <- entries :: ConcernsTimer(e)) && forall e <- entries :: e.signal != StartTimeout
    ensures TimerAfter(t, entries) == Disarmed
    decreases |entries|
  {
    assert entries == [entries[0]] + entries[1..];
    if exists e <- entries[1..] :: ConcernsTimer(e) {
      OnlyCancelling(TimerEffect(t, entries[0].signal), entries[1..]);
    } else {
      TimerIsDecided(Disarmed, Disarmed, entries[1..]);
    }
  }

  /** A timeout that is read while an operation is under way always ends it.  It is that
      operation's own timeout if and only if no request to start or cancel the timer is still
      queued; otherwise it ends an operation that has just begun, and once the queue is
      handled the timer runs although the daemon is idle. */
  lemma {:induction false} TimeoutEndsItsOwnOperationExactly(trace: seq<Daemon>, actions: seq<Action>, j: nat)
    requires IsRun(trace, actions) && j < |actions| && actions[j] == TimerRead
    requires !trace[j].state.dropped && trace[j].state.machine.activity != Idle
    ensures trace[j+1].state.machine.activity == Idle
    ensures CarriedOut(trace, actions, j) == Asked(trace, actions, j) <==>
            forall e <- trace[j].state.ring :: !ConcernsTimer(e)
    ensures !trace[j+1].state.dropped ==>
              (TimerAfter(trace[j+1].state.timer, trace[j+1].state.ring) == Armed <==>
               exists e <- trace[j].state.ring :: ConcernsTimer(e))
  {
    RunStep(trace, actions, j);
    ReachableKeepsInv(trace[j]);
    RequestsAreAccounted(trace, actions, j);
    var s := trace[j].state;
    NoneQueued(s.ring);
    if exists e <- s.ring :: ConcernsTimer(e) {
      if forall e <- s.ring :: e.signal != StartTimeout {
        OnlyCancelling(s.timer, s.ring);
      }
    }
    TimeoutLeavesTimer(s);
  }

  lemma TimeoutLeavesTimer(s: State)
    requires Coherent(s.machine) && s.machine.activity != Idle && |s.ring| <= MAX_ITEMS
    requires s.timer == Fired && TimerIsDue(s)
    ensures var after := ReadTimer(s);
            && after.machine.activity == Idle
            && (!after.dropped ==>
                  (TimerAfter(after.timer, after.ring) == Armed <==> exists e <- s.ring :: ConcernsTimer(e)))
  {
    assert Signals(s.machine, Timeout) == [UserRequestedTimedOut];
    var after := ReadTimer(s);
    if !after.dropped {
      ApplyAppends(s.(timer := Disarmed), Timeout, NoContext);
      var last := Tagged([UserRequestedTimedOut], INVALID_CLIENT);
      TimerAfterConcat(Disarmed, s.ring, last);
      TimerIsDecided(Disarmed, Fired, s.ring);
      TimerIsDecided(TimerAfter(Disarmed, s.ring), Fired, last);
    }
  }

  // ---- An idle daemon ----

  /** The expired timer is about to be read while a request concerning it is still queued and
      an operation is under way. */
  ghost predicate IsLate(d: Daemon) {
    d.state.machine.activity != Idle && exists e <- d.state.ring :: ConcernsTimer(e)
  }

  /** Once the queued requests are carried out no timer runs, if the machine is idle. */
  predicate TimerIsOff(s: State) {
    s.machine.activity == Idle ==> TimerAfter(s.timer, s.ring) == Disarmed
  }

  /** Operations begin with a request for a timeout, and those that end by themselves cancel
      theirs. */
  lemma EndsCancelTimers(m: Machine, e: Event)
    requires Next(m, e).activity == Idle && (e == Timeout ==> m.activity == Idle)
    ensures StartTimeout !in Signals(m, e)
    ensures m.activity != Idle ==> CancelTimeout in Signals(m, e)
  {
    match m.activity case Idle => case WaitForLocked => case _ =>
  }

  lemma ApplyKeepsTimerOff(s: State, event: Event, context: Context)
    requires |s.ring| <= MAX_ITEMS && !Apply(s, event, context).dropped && TimerIsOff(s)
    requires event == Timeout ==> s.machine.activity == Idle
    ensures TimerIsOff(Apply(s, event, context))
  {
    var signals, after := Signals(s.machine, event), Apply(s, event, context);
    if after.machine.activity == Idle {
      ApplyAppends(s, event, context);
      EndsCancelTimers(s.machine, event);
      var entries := Tagged(signals, IdOf(context));
      TimerAfterConcat(s.timer, s.ring, entries);
      TimerIsDecided(TimerAfter(s.timer, s.ring), Disarmed, entries);
      forall e <- entries
        ensures e.signal in signals
      {
      }
      if s.machine.activity != Idle {
        SignalIsTagged(signals, IdOf(context), CancelTimeout);
        OnlyCancelling(TimerAfter(s.timer, s.ring), entries);
      } else if exists e <- entries :: ConcernsTimer(e) {
        OnlyCancelling(TimerAfter(s.timer, s.ring), entries);
      }
    }
  }

  lemma SignalIsTagged(signals: seq<Signal>, id: ClientId, signal: Signal)
    requires signal in signals
    ensures Entry(signal, id) in Tagged(signals, id)
  {
    var i :| 0 <= i < |signals| && signals[i] == signal;
    assert Tagged(signals, id)[i] == Entry(signal, id);
  }

  /** Reading the timer in time leaves no timer behind. */
  lemma ReadingKeepsTimerOff(d: Daemon)
    requires Inv(d) && Enabled(d, TimerRead) && !ReadTimer(d.state).dropped
    requires TimerIsOff(d.state) && !IsLate(d)
    ensures TimerIsOff(ReadTimer(d.state))
  {
    var s := d.state.(timer := Disarmed);
    TimerIsDecided(Disarmed, d.state.timer, d.state.ring);
    if d.state.machine.activity == Idle {
      ApplyKeepsTimerOff(s, Timeout, NoContext);
    } else {
      assert Signals(s.machine, Timeout) == [UserRequestedTimedOut];
      ApplyAppends(s, Timeout, NoContext);
      var last := Tagged([UserRequestedTimedOut], INVALID_CLIENT);
      TimerAfterConcat(Disarmed, s.ring, last);
      TimerIsDecided(Disarmed, Disarmed, last);
    }
  }

  lemma ActionKeepsTimerOff(d: Daemon, a: Action)
    requires Inv(d) && Enabled(d, a) && !Do(d, a).state.dropped
    requires TimerIsOff(d.state) && (a == TimerRead ==> !IsLate(d))
    ensures TimerIsOff(Do(d, a).state)
  {
    var s := d.state;
    match a
    case NextSignal => HandleTouches(s.(ring := s.ring[1..]), s.ring[0]);
    case Incoming(message) => MessageKeepsTimerOff(s, message);
    case TimerRead => ReadingKeepsTimerOff(d);
    case FromClient(slot, request) => RequestKeepsTimerOff(d, slot, request);
    case TimerExpires => TimerIsDecided(Armed, Fired, s.ring);
    case _ =>
  }

  lemma MessageKeepsTimerOff(s: State, message: Message)
    requires |s.ring| <= MAX_ITEMS && !Receive(s, message).dropped && TimerIsOff(s)
    ensures TimerIsOff(Receive(s, message))
  {
    if Decode(message).Some? {
      DecodeIsExact(message, Decode(message).value);
      ApplyKeepsTimerOff(s, Decode(message).value, NoContext);
    }
  }

  lemma RequestKeepsTimerOff(d: Daemon, slot: nat, request: Request)
    requires |d.state.ring| <= MAX_ITEMS && Enabled(d, FromClient(slot, request))
    requires !Serve(d.state, slot, request).dropped && TimerIsOff(d.state)
    ensures TimerIsOff(Serve(d.state, slot, request))
  {
    var s, event := d.state, EventOf(FromClient(slot, request));
    if event.Some? {
      var flags := if request.Close? then CLOSE_FLAGS else OPEN_FLAGS;
      ApplyKeepsTimerOff(s.(clients := Marked(s.clients, slot, flags)), event.value, Client(s.clients[slot].info.clientId));
    }
  }

  /** In every run without loss, and without a late timeout, an idle daemon that has handled all
      signals has no timer: the one of each operation was cancelled or read. */
  lemma {:induction false} IdleDaemonHasNoTimer(trace: seq<Daemon>, actions: seq<Action>, j: nat)
    requires IsRun(trace, actions) && j < |trace| && !trace[j].state.dropped
    requires forall k :: 0 <= k < j && actions[k] == TimerRead ==> !IsLate(trace[k])
    ensures TimerIsOff(trace[j].state)
    ensures trace[j].state.machine.activity == Idle && trace[j].state.ring == [] ==> trace[j].state.timer == Disarmed
  {
    if j == 0 {
      RunBeginning(trace, actions, 0);
    } else {
      NothingWasDroppedInRun(trace, actions, j);
      IdleDaemonHasNoTimer(trace, actions, j - 1);
      StepKeepsTimerOffInRun(trace, actions, j);
    }
  }

  lemma NothingWasDroppedInRun(trace: seq<Daemon>, actions: seq<Action>, j: nat)
    requires IsRun(trace, actions) && 0 < j < |trace| && !trace[j].state.dropped
    ensures !trace[j-1].state.dropped
  {
    RunStepTo(trace, actions, j);
    NothingWasDroppedBefore(trace[j-1], actions[j-1], trace[j]);
  }

  lemma StepKeepsTimerOffInRun(trace: seq<Daemon>, actions: seq<Action>, j: nat)
    requires IsRun(trace, actions) && 0 < j < |trace| && !trace[j].state.dropped
    requires TimerIsOff(trace[j-1].state) && (actions[j-1] == TimerRead ==> !IsLate(trace[j-1]))
    ensures TimerIsOff(trace[j].state)
  {
    RunStepTo(trace, actions, j);
    StepKeepsTimerOff(trace[j-1], actions[j-1], trace[j]);
  }

  lemma NothingWasDroppedBefore(d: Daemon, a: Action, d': Daemon)
    requires Leads(d, a, d') && !d'.state.dropped
    ensures !d.state.dropped
  {
    ActionQueues(d, a);
  }

  lemma StepKeepsTimerOff(d: Daemon, a: Action, d': Daemon)
    requires Reachable(d) && Leads(d, a, d') && !d'.state.dropped
    requires TimerIsOff(d.state) && (a == TimerRead ==> !IsLate(d))
    ensures TimerIsOff(d'.state)
  {
    ReachableKeepsInv(d);
    ActionKeepsTimerOff(d, a);
  }

  // ---- It happens ----

  const OPEN := Machine(Idle, Locked, Closed, UnlockedViaB2)
  const LOCKING := Machine(WaitForLocked, Locked, Closed, UnlockedViaB2)
  const LOCKED := Machine(Idle, Locked, Locked, ShackLocked)
  const REOPENED := Machine(Idle, Locked, Opened, UnlockedViaB2)
  const RELOCKING := Machine(WaitForLocked, Locked, Opened, UnlockedViaB2)

  lemma LateSteps()
    ensures Steps(Initial, DoorC2Locked, Machine(Idle, Locked, Unobserved, ShackUnobserved), [])
    ensures Steps(Machine(Idle, Locked, Unobserved, ShackUnobserved), DoorB2Closed, OPEN, [StateChange])
    ensures Steps(OPEN, ButtonC2, LOCKING, [StartTimeout, LockAll])
    ensures Steps(LOCKING, DoorB2Locked, LOCKED, [StateChange, CancelTimeout, LockSuccessful, OpenDoorB])
    ensures Steps(LOCKED, DoorB2Opened, REOPENED, [StateChange])
    ensures Steps(REOPENED, ButtonC2, RELOCKING, [StartTimeout, LockAll])
  {
  }

  lemma LockingHasFired() returns (d: Daemon)
    ensures IsSound(d, 4) && d.phase == Flushing && d.applied == 0
    ensures d.state.machine == LOCKING && d.state.ring == [] && d.state.timer == Fired
  {
    d := LockingBegins();
    LockingArmsTimer(d.state);
    d := FinishPass(d, 4);
    StepStaysWithin(d, TimerExpires, 4);
    d := Do(d, TimerExpires);
  }

  lemma LockingBegins() returns (d: Daemon)
    ensures IsSound(d, 4) && d.phase == Flushing && IsCalm(d)
    ensures d.state.machine == LOCKING && d.state.clients == [] && d.state.nextId == 0
    ensures d.state.ring == [] + Tagged([], INVALID_CLIENT) + Tagged([StateChange], INVALID_CLIENT)
                          + Tagged([StartTimeout, LockAll], INVALID_CLIENT)
  {
    LateSteps();
    d := Start(4);
    d := Hear(d, DoorC2Locked, Machine(Idle, Locked, Unobserved, ShackUnobserved), [], 4);
    d := Hear(d, DoorB2Closed, OPEN, [StateChange], 4);
    d := Hear(d, ButtonC2, LOCKING, [StartTimeout, LockAll], 4);
  }

  lemma LockingArmsTimer(s: State)
    requires s.ring == [] + Tagged([], INVALID_CLIENT) + Tagged([StateChange], INVALID_CLIENT)
                       + Tagged([StartTimeout, LockAll], INVALID_CLIENT)
    requires s.clients == [] && s.nextId == 0
    ensures var d := Drain(s); d.timer == Armed && d.machine == s.machine && d.ring == [] && d.dropped == s.dropped
  {
    DrainIsExact(s);
    assert s.ring[1] == Entry(StartTimeout, INVALID_CLIENT) && s.ring[1] in s.ring;
    TimerKeepsRunning(s.timer, s.ring);
    TimerIsDecided(s.timer, s.timer, s.ring);
  }

  /** The timer expires while the doors are being locked; before it is read the broker
      delivers the completion, the door being opened again and the button. */
  lemma TimeoutsCanBeLate() returns (d: Daemon)
    ensures Reachable(d) && !d.state.dropped && Enabled(d, TimerRead)
    ensures d.state.machine.activity != Idle && exists e <- d.state.ring :: ConcernsTimer(e)
  {
    d := LockingBeginsAgain();
    d := GoOn(d, Timing, 4);
    WithinIsReachable(d, 4);
    assert ConcernsTimer(Entry(StartTimeout, INVALID_CLIENT));
  }

  lemma LockingBeginsAgain() returns (d: Daemon)
    ensures IsSound(d, 4) && d.phase == Flushing && d.state.timer == Fired && d.state.machine == RELOCKING
    ensures Entry(StartTimeout, INVALID_CLIENT) in d.state.ring
  {
    LateSteps();
    d := DoorIsReopened();
    var ring := d.state.ring;
    d := Hear(d, ButtonC2, RELOCKING, [StartTimeout, LockAll], 4);
    EntryIsQueued(ring, [StartTimeout, LockAll]);
  }

  lemma EntryIsQueued(ring: seq<Entry>, signals: seq<Signal>)
    requires signals != []
    ensures Entry(signals[0], INVALID_CLIENT) in ring + Tagged(signals, INVALID_CLIENT)
  {
    assert (ring + Tagged(signals, INVALID_CLIENT))[|ring|] == Entry(signals[0], INVALID_CLIENT);
  }

  lemma DoorIsReopened() returns (d: Daemon)
    ensures IsSound(d, 4) && d.phase == Flushing && d.applied == 2
    ensures d.state.machine == REOPENED && |d.state.ring| == 5 && d.state.timer == Fired
  {
    LateSteps();
    d := LockingHasFired();
    d := Hear(d, DoorB2Locked, LOCKED, [StateChange, CancelTimeout, LockSuccessful, OpenDoorB], 4);
    d := Hear(d, DoorB2Opened, REOPENED, [StateChange], 4);
  }
}
