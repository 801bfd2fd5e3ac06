/** How many events the daemon can take between two drains without losing a signal: exactly
    twenty-six. */
module DaemonBursts {
  import opened PortalMachine
  import opened PortalStateMachine
  import opened SignalRing
  import opened DaemonModel
  import opened DaemonLemmas
  import opened DaemonRuns
  import opened DaemonScenarios
  import opened Topics

  // ---- Twenty-six events are safe ----

  lemma ActionDropsNothing(d: Daemon, a: Action)
    requires Inv(d) && Enabled(d, a) && !d.state.dropped
    requires d.applied < 26 || EventOf(a) == None
    ensures !Do(d, a).state.dropped
  {
    match a
    case NextSignal => HandleTouches(d.state.(ring := d.state.ring[1..]), d.state.ring[0]);
    case Incoming(message) => MessageDropsNothing(d, message);
    case TimerRead => ApplyKeepsRingPaidFor(d, Timeout, NoContext, Serving);
    case FromClient(slot, request) => RequestDropsNothing(d, slot, request);
    case _ =>
  }

  lemma MessageDropsNothing(d: Daemon, message: Message)
    requires Inv(d) && Enabled(d, Incoming(message)) && !d.state.dropped
    requires d.applied < 26 || Decode(message) == None
    ensures !Receive(d.state, message).dropped
  {
    if Decode(message).Some? {
      DecodeIsExact(message, Decode(message).value);
      ApplyKeepsRingPaidFor(d, Decode(message).value, NoContext, d.phase);
    }
  }

  lemma RequestDropsNothing(d: Daemon, slot: nat, request: Request)
    requires Inv(d) && Enabled(d, FromClient(slot, request)) && !d.state.dropped
    requires d.applied < 26 || EventOf(FromClient(slot, request)) == None
    ensures !Serve(d.state, slot, request).dropped
  {
    var event := EventOf(FromClient(slot, request));
    if event.Some? {
      ApplyKeepsRingPaidFor(d, event.value, Client(d.state.clients[slot].info.clientId), Serving);
    }
  }

  /** No signal is ever lost while at most 26 events are applied between two drains. */
  lemma {:induction false} ModerateBurstsLoseNothing(trace: seq<Daemon>, actions: seq<Action>)
    requires IsRunWithin(trace, actions, 26)
    ensures !trace[|actions|].state.dropped
    decreases |actions|
  {
    if actions != [] {
      var n := |actions| - 1;
      ModerateBurstsLoseNothing(trace[..n+1], actions[..n]);
      RunStep(trace, actions, n);
      ReachableKeepsInv(trace[n]);
      assert trace[n] in trace && trace[n+1] in trace;
      ActionDropsNothing(trace[n], actions[n]);
    }
  }

  /** However the events are spread over the passes of the loop, those since the last drain
      account for the ring: three of them queue seven signals, and a handful more. */
  lemma QueueIsBounded(d: Daemon)
    requires Reachable(d) && !d.state.dropped
    ensures |d.state.ring| <= (7 * d.applied + 9) / 3
  {
    ReachableKeepsInv(d);
  }

  // ---- Twenty-seven are not ----

  const LOCKED := Machine(Idle, Locked, Locked, ShackLocked)
  const UNLOCKED := Machine(Idle, Locked, Opened, UnlockedViaB2)
  const LOCKING := Machine(WaitForLocked, Locked, Opened, UnlockedViaB2)

  lemma LockingSteps()
    ensures Steps(LOCKED, DoorB2Opened, UNLOCKED, [StateChange])
    ensures Steps(UNLOCKED, ButtonC2, LOCKING, [StartTimeout, LockAll])
    ensures Steps(LOCKING, DoorB2Locked, LOCKED, [StateChange, CancelTimeout, LockSuccessful, OpenDoorB])
  {
  }

  /** A locked shack is opened by hand, locked by the button, and reports so: three events,
      seven signals. */
  lemma LockingRound(d: Daemon, n: nat) returns (d': Daemon)
    requires IsSound(d, n) && d.phase == Flushing && IsCalm(d) && d.applied + 3 <= n
    requires d.state.machine == LOCKED && |d.state.ring| + 7 <= MAX_ITEMS
    ensures IsSound(d', n) && d'.phase == Flushing && IsCalm(d') && d'.applied == d.applied + 3
    ensures d'.state.machine == LOCKED && |d'.state.ring| == |d.state.ring| + 7
    ensures d'.state.clients == d.state.clients
  {
    LockingSteps();
    d' := Hear(d, DoorB2Opened, UNLOCKED, [StateChange], n);
    d' := Hear(d', ButtonC2, LOCKING, [StartTimeout, LockAll], n);
    d' := Hear(d', DoorB2Locked, LOCKED, [StateChange, CancelTimeout, LockSuccessful, OpenDoorB], n);
  }

  lemma {:induction false} LockingRounds(d: Daemon, rounds: nat, n: nat) returns (d': Daemon)
    requires IsSound(d, n) && d.phase == Flushing && IsCalm(d) && d.applied + 3 * rounds <= n
    requires d.state.machine == LOCKED && |d.state.ring| + 7 * rounds <= MAX_ITEMS
    ensures IsSound(d', n) && d'.phase == Flushing && IsCalm(d') && d'.applied == d.applied + 3 * rounds
    ensures d'.state.machine == LOCKED && |d'.state.ring| == |d.state.ring| + 7 * rounds
    ensures d'.state.clients == d.state.clients
    decreases rounds
  {
    if rounds == 0 {
      d' := d;
    } else {
      d' := LockingRound(d, n);
      d' := LockingRounds(d', rounds - 1, n);
    }
  }

  const CLOSED := Machine(Idle, Closed, Unobserved, ShackUnobserved)
  const ENTERING := Machine(WaitForOpenViaB, Closed, Unobserved, ShackUnobserved)
  const RELOCKING := Machine(WaitForLocked, Closed, Locked, UnlockedViaC2)

  lemma FirstSteps()
    ensures Steps(Initial, DoorC2Closed, CLOSED, [])
    ensures Steps(CLOSED, SshOpenFront, ENTERING, [StartTimeout, OpenDoorB2Safe, OpenDoorB])
    ensures Steps(ENTERING, DoorB2Locked, RELOCKING, [StateChange, StartTimeout, UnlockTimeout])
    ensures Steps(RELOCKING, DoorC2Locked, LOCKED, [StateChange, CancelTimeout, LockSuccessful, OpenDoorB])
  {
  }

  lemma Entering() returns (d: Daemon)
    ensures IsSound(d, 27) && d.phase == Flushing && IsCalm(d) && d.applied == 0
    ensures d.state.machine == ENTERING && d.state.ring == [] && VISITOR in d.state.clients
  {
    FirstSteps();
    d := Start(27);
    d := Hear(d, DoorC2Closed, CLOSED, [], 27);
    assert Boot(true, _ => true).state.ring + Tagged([], INVALID_CLIENT) == [];
    d := AskToEnter(d, ENTERING, [StartTimeout, OpenDoorB2Safe, OpenDoorB], 27);
    VisitorStays(d.state);
    d := FinishPass(d, 27);
  }

  /** Nobody is disconnected by the signals that start an opening. */
  lemma VisitorStays(s: State)
    requires s.clients == [VISITOR] && s.nextId == 1
    requires s.ring == [] + Tagged([StartTimeout, OpenDoorB2Safe, OpenDoorB], 0)
    ensures var d := Drain(s); VISITOR in d.clients && d.machine == s.machine && d.ring == []
  {
    assert VISITOR in s.clients;
    DrainIsExact(s);
  }

  /** Somebody asks to enter by the front door; it reports locked, the other door too, and
      then the shack is opened by hand and locked by the button eight times. */
  lemma FullRing() returns (d: Daemon)
    ensures IsSound(d, 27) && d.phase == Flushing && IsCalm(d) && d.applied == 26
    ensures d.state.machine == LOCKED && |d.state.ring| == 63 && d.state.clients != []
  {
    FirstSteps();
    d := Entering();
    d := Hear(d, DoorB2Locked, RELOCKING, [StateChange, StartTimeout, UnlockTimeout], 27);
    d := Hear(d, DoorC2Locked, LOCKED, [StateChange, CancelTimeout, LockSuccessful, OpenDoorB], 27);
    d := LockingRounds(d, 8, 27);
  }

  /** One more request does not fit. */
  lemma BurstsOf27CanOverflow() returns (d: Daemon)
    ensures ReachableWithin(d, 27) && d.state.dropped
  {
    d := FullRing();
    d := GoOn(d, Serving, 27);
    RequestOverflows(d);
    StepStaysWithin(d, REQUEST, 27);
    d := Do(d, REQUEST);
  }

  lemma RequestOverflows(d: Daemon)
    requires d.phase == Serving && d.state.clients != [] && d.state.machine == LOCKED && |d.state.ring| == 63
    ensures Do(d, REQUEST).state.dropped && Do(d, REQUEST).applied == d.applied + 1
  {
    assert HasMemberData(SOMEBODY);
    assert Signals(LOCKED, SshOpenFront) == [StartTimeout, OpenDoorB2Safe, OpenDoorB];
  }

  /** The daemon can promise to lose no signal exactly if it is never given more than 26 events
      between two drains. */
  lemma BurstsLoseNothingExactly(n: nat)
    ensures (forall d :: ReachableWithin(d, n) ==> !d.state.dropped) <==> n <= 26
  {
    if n <= 26 {
      forall d | ReachableWithin(d, n)
        ensures !d.state.dropped
      {
        var trace, actions :| IsRunWithin(trace, actions, n) && trace[|actions|] == d;
        ModerateBurstsLoseNothing(trace, actions);
      }
    } else {
      var d := BurstsOf27CanOverflow();
      var trace, actions :| IsRunWithin(trace, actions, 27) && trace[|actions|] == d;
      assert IsRunWithin(trace, actions, n);
    }
  }
}
