/** Building blocks for runs of the daemon that end in a particular state. */
module DaemonScenarios {
  import opened PortalMachine
  import opened LoopBursts
  import opened PortalStateMachine
  import opened SignalRing
  import opened ClientTable
  import opened DaemonModel
  import opened DaemonLemmas
  import opened DaemonRuns
  import opened Topics

  /** A message that announces an event of the broker. */
  function MessageOf(event: Event): Message {
    match event
    case DoorB2Opened => Message(STATUS_DOOR_B2, STATUS_OPENED)
    case DoorB2Closed => Message(STATUS_DOOR_B2, STATUS_CLOSED)
    case DoorB2Locked => Message(STATUS_DOOR_B2, STATUS_LOCKED)
    case DoorC2Opened => Message(STATUS_DOOR_C2, STATUS_OPENED)
    case DoorC2Closed => Message(STATUS_DOOR_C2, STATUS_CLOSED)
    case DoorC2Locked => Message(STATUS_DOOR_C2, STATUS_LOCKED)
    case ButtonB2 => Message(EVENT_BUTTON, NAME_B2)
    case ButtonC2 => Message(EVENT_BUTTON, NAME_C2)
    case _ => Message(EVENT_DOORBELL, "")
  }

  /** `d` can be reached and has lost nothing so far. */
  ghost predicate IsSound(d: Daemon, n: nat) {
    ReachableWithin(d, n) && |d.state.ring| <= MAX_ITEMS && d.applied <= n && !d.state.dropped
  }

  /** What an event leads to. */
  predicate Steps(m: Machine, event: Event, next: Machine, signals: seq<Signal>) {
    Next(m, event) == next && Signals(m, event) == signals
  }

  /** The broker delivers the message of an event. */
  lemma Hear(d: Daemon, event: Event, next: Machine, signals: seq<Signal>, n: nat) returns (d': Daemon)
    requires IsSound(d, n) && d.phase == Flushing && d.applied < n
    requires !IsRequest(event) && event != Timeout && Steps(d.state.machine, event, next, signals)
    requires |d.state.ring| + |signals| <= MAX_ITEMS
    ensures IsSound(d', n) && d'.phase == Flushing && d'.applied == d.applied + 1 && d'.ready == d.ready
    ensures d'.state == d.state.(machine := next, ring := d.state.ring + Tagged(signals, INVALID_CLIENT))
  {
    DecodeIsExact(MessageOf(event), event);
    d' := Do(d, Incoming(MessageOf(event)));
    StepStaysWithin(d, Incoming(MessageOf(event)), n);
  }

  /** The timer has not expired. */
  predicate IsCalm(d: Daemon) {
    !d.ready && d.state.timer != Fired
  }

  /** One phase passes without anything happening; if it is the sleep, the broker ends it. */
  lemma Advance(d: Daemon, n: nat) returns (d': Daemon)
    requires IsSound(d, n) && (d.phase == Draining ==> d.state.ring == []) && !(d.phase == Timing && d.ready)
    ensures IsSound(d', n)
    ensures d' == Daemon(d.state, Following(d.phase), if d.phase == Draining then 0 else d.applied,
                         if d.phase == Asleep then d.state.timer == Fired else d.ready)
  {
    var a := if d.phase == Asleep then Wake(ByBroker) else Turn;
    StepStaysWithin(d, a, n);
    d' := Do(d, a);
  }

  /** The loop goes on to a phase without anything happening in between. */
  lemma {:induction false} GoOn(d: Daemon, phase: Phase, n: nat) returns (d': Daemon)
    requires IsSound(d, n) && Order(d.phase) <= Order(phase) && (d.phase == Draining ==> d.state.ring == [])
    requires !IsCalm(d) ==> phase != Serving
    ensures IsSound(d', n) && d'.state == d.state && d'.phase == phase
    ensures d'.ready == if Order(d.phase) <= Order(Asleep) < Order(phase) then d.state.timer == Fired else d.ready
    ensures d'.applied == if d.phase == Draining != phase then 0 else d.applied
    decreases Order(phase) - Order(d.phase)
  {
    if d.phase == phase {
      d' := d;
    } else {
      d' := Advance(d, n);
      d' := GoOn(d', phase, n);
    }
  }

  function Order(phase: Phase): nat {
    match phase
    case Draining => 0
    case Flushing => 1
    case Asleep => 2
    case Listening => 3
    case Receiving => 4
    case Timing => 5
    case Serving => 6
  }

  /** A pass of the loop ends and all signals are handled. */
  lemma FinishPass(d: Daemon, n: nat) returns (d': Daemon)
    requires IsSound(d, n) && d.phase != Draining && IsCalm(d)
    ensures IsSound(d', n) && d'.state == Drain(d.state) && d'.phase == Flushing && d'.applied == 0 && IsCalm(d')
  {
    d' := GoOn(d, Serving, n);
    d' := Advance(d', n);
    d' := DrainAll(d', n);
    d' := Advance(d', n);
  }

  lemma DrainAll(d: Daemon, n: nat) returns (d': Daemon)
    requires IsSound(d, n) && d.phase == Draining && IsCalm(d)
    ensures IsSound(d', n) && d' == d.(state := Drain(d.state)) && IsCalm(d') && d'.state.ring == []
  {
    DrainingStaysWithin(d, n);
    WithinIsReachable(d, n);
    ReachableKeepsInv(d);
    DrainIsExact(d.state);
    HandlingFiresNoTimer(d.state.timer, d.state.ring);
    d' := d.(state := Drain(d.state));
  }

  /** The daemon has just been started. */
  lemma Start(n: nat) returns (d: Daemon)
    ensures IsSound(d, n) && d == Daemon(Boot(true, _ => true).state, Flushing, 0, false)
  {
    BootIsReachable(true, _ => true, n);
    d := Advance(Boot(true, _ => true), n);
  }

  const SOMEBODY := Member(1, "nick", "name")

  /** The newest client. */
  const VISITOR := Connection(0, ClientInfo(0, OPEN_FLAGS, true))

  lemma Arrive(d: Daemon, n: nat) returns (d': Daemon)
    requires IsSound(d, n) && d.phase == Flushing && d.state.clients == [] && d.state.nextId == 0
    requires IsCalm(d)
    ensures IsSound(d', n) && d'.phase == Serving && d'.applied == d.applied && !d'.ready
    ensures d'.state == d.state.(clients := [Connection(0, ClientInfo(0, {}, false))], nextId := 1)
  {
    d' := GoOn(d, Listening, n);
    Arrival(d');
    StepStaysWithin(d', Connect(0, 1), n);
    d' := GoOn(Do(d', Connect(0, 1)), Serving, n);
  }

  lemma Arrival(d: Daemon)
    requires d.phase == Listening && |d.state.ring| <= MAX_ITEMS && d.state.clients == [] && d.state.nextId == 0
    ensures Enabled(d, Connect(0, 1))
    ensures var s := d.state.(clients := [Connection(0, ClientInfo(0, {}, false))], nextId := 1);
            Do(d, Connect(0, 1)) == Daemon(s, Receiving, d.applied, d.ready)
  {
  }

  /** A client connects and asks to open the front door. */
  lemma AskToEnter(d: Daemon, next: Machine, signals: seq<Signal>, n: nat) returns (d': Daemon)
    requires IsSound(d, n) && d.phase == Flushing && d.applied < n
    requires d.state.clients == [] && d.state.nextId == 0 && IsCalm(d)
    requires Steps(d.state.machine, SshOpenFront, next, signals) && |d.state.ring| + |signals| <= MAX_ITEMS
    ensures IsSound(d', n) && d'.phase == Serving && d'.applied == d.applied + 1 && !d'.ready
    ensures d'.state == d.state.(clients := [VISITOR], nextId := 1, machine := next,
                                 ring := d.state.ring + Tagged(signals, 0))
  {
    d' := Arrive(d, n);
    Request(d', next, signals);
    StepStaysWithin(d', REQUEST, n);
    d' := Do(d', REQUEST);
  }

  const REQUEST := FromClient(0, OpenFront(SOMEBODY))

  lemma Request(d: Daemon, next: Machine, signals: seq<Signal>)
    requires d.phase == Serving && d.state.clients == [Connection(0, ClientInfo(0, {}, false))]
    requires Steps(d.state.machine, SshOpenFront, next, signals) && |d.state.ring| + |signals| <= MAX_ITEMS
    ensures var s := d.state.(clients := [VISITOR], machine := next, ring := d.state.ring + Tagged(signals, 0));
            Do(d, REQUEST) == Daemon(s, Serving, d.applied + 1, d.ready)
  {
    var none: set<DisconnectFlag> := {};
    assert none + OPEN_FLAGS == OPEN_FLAGS;
    assert HasMemberData(SOMEBODY);
  }
}
