/** The daemon's endless loop as a transition system, and what holds in every state it can
    reach: clients waiting for a lock will be disconnected, the timer of an operation runs or
    has been asked for, the ring holds no more than the last events account for, and live ids
    are distinct. */
module DaemonRuns {
  import opened PortalMachine
  import opened PortalRuns
  import opened LoopBursts
  import opened PortalStateMachine
  import opened SignalRing
  import opened ClientTable
  import opened DaemonModel
  import opened DaemonLemmas
  import opened Topics

  /** Where the main loop is: draining the ring, flushing the broker connection (which also
      receives), sleeping until some socket or the timer is ready, or serving them in the fixed
      order of their slots. */
  datatype Phase = Draining | Flushing | Asleep | Listening | Receiving | Timing | Serving

  datatype Daemon = Daemon(
    state: State,
    phase: Phase,
    applied: nat,     // events applied since the ring was last empty at the end of a drain
    ready: bool)      // the timer was ready when the daemon woke up, and has not been read yet

  /** What makes the daemon wake up. */
  datatype Cause = ByCaller | ByBroker | ByTimer | ByClient(slot: nat)

  datatype Action =
    | NextSignal                                // the drain takes one entry from the ring
    | Turn                                      // the loop moves on to its next phase
    | Wake(cause: Cause)
    | Interrupted                               // the sleep was interrupted by a signal
    | Incoming(message: Message)                // a message arrives from the broker
    | Connect(fd: int, nextId: ClientId)        // a client connects
    | TimerRead                                 // the expired timer is read
    | FromClient(slot: nat, request: Request)   // a client sends a message or hangs up
    | TimerExpires
    | LinkChanges(up: bool)                     // the connection to the broker is made or lost

  predicate Enabled(d: Daemon, a: Action) {
    match a
    case NextSignal => d.phase == Draining && d.state.ring != []
    case Turn => d.phase != Asleep && (d.phase == Draining ==> d.state.ring == []) && (d.phase == Timing ==> !d.ready)
    case Wake(ByTimer) => d.phase == Asleep && d.state.timer == Fired
    case Wake(ByClient(slot)) => d.phase == Asleep && slot < |d.state.clients|
    case Wake(_) => d.phase == Asleep
    case Interrupted => d.phase == Asleep
    case Incoming(_) => d.phase in {Flushing, Receiving}
    case Connect(_, nextId) =>
      && d.phase == Listening
      && nextId !in {INVALID_CLIENT, d.state.nextId}
      && forall c <- d.state.clients :: c.info.clientId != nextId
    case TimerRead => d.phase == Timing && d.ready
    case FromClient(slot, request) =>
      d.phase == Serving && slot < |d.state.clients| && (request in {ForceOpen, SystemReset} ==> d.state.online)
    case TimerExpires => d.state.timer == Armed
    case LinkChanges(_) => true
  }

  function Following(phase: Phase): Phase {
    match phase
    case Draining => Flushing
    case Flushing => Asleep
    case Asleep => Listening
    case Listening => Receiving
    case Receiving => Timing
    case Timing => Serving
    case Serving => Draining
  }

  /** The event an action applies to the state machine, if any. */
  function EventOf(a: Action): Option<Event> {
    match a
    case Incoming(message) => Decode(message)
    case TimerRead => Some(Timeout)
    case FromClient(_, OpenFront(member)) => if HasMemberData(member) then Some(SshOpenFront) else None
    case FromClient(_, OpenBack(member)) => if HasMemberData(member) then Some(SshOpenBack) else None
    case FromClient(_, Close) => Some(SshClose)
    case _ => None
  }

  function Do(d: Daemon, a: Action): Daemon
    requires Enabled(d, a) && |d.state.ring| <= MAX_ITEMS
  {
    var s := d.state;
    var applied := if EventOf(a).Some? then d.applied + 1 else d.applied;
    match a
    case NextSignal => d.(state := HandleNext(s))
    case Turn => d.(phase := Following(d.phase), applied := if d.phase == Draining then 0 else applied)
    case Wake(_) => d.(phase := Listening, ready := s.timer == Fired)
    case Interrupted => d.(phase := Draining)
    case Incoming(message) => d.(state := Receive(s, message), applied := applied)
    case Connect(fd, nextId) => d.(state := Accept(s, fd, nextId), phase := Receiving)
    case TimerRead => d.(state := ReadTimer(s), phase := Serving, applied := applied, ready := false)
    case FromClient(slot, request) => d.(state := Serve(s, slot, request), applied := applied)
    case TimerExpires => d.(state := Expire(s))
    case LinkChanges(up) => d.(state := s.(online := up))
  }

  function Boot(online: bool, accepts: nat -> bool): Daemon {
    Daemon(State(Initial, [], [], 0, Disarmed, online, accepts, 0, [], false), Draining, 0, false)
  }

  ghost predicate IsBoot(d: Daemon) {
    exists online, accepts :: d == Boot(online, accepts)
  }

  /** `trace` lists the states of the daemon from its start, and `actions` what leads from
      each to the next. */
  ghost predicate IsRun(trace: seq<Daemon>, actions: seq<Action>)
    decreases |actions|
  {
    && |trace| == |actions| + 1
    && if actions == [] then IsBoot(trace[0])
       else
         var n := |actions| - 1;
         IsRun(trace[..n+1], actions[..n]) && Leads(trace[n], actions[n], trace[n+1])
  }

  ghost predicate Leads(d: Daemon, a: Action, d': Daemon) {
    |d.state.ring| <= MAX_ITEMS && Enabled(d, a) && d' == Do(d, a)
  }

  ghost predicate Reachable(d: Daemon) {
    exists trace, actions :: IsRun(trace, actions) && trace[|actions|] == d
  }

  // ---- The invariant ----

  ghost predicate WellFormed(d: Daemon) {
    && Coherent(d.state.machine)
    && IdsInOrder(d.state.clients, d.state.nextId)
    && |d.state.ring| <= MAX_ITEMS
    && (forall c <- d.state.clients :: OnOpen in c.info.flags ==> OPEN_FLAGS <= c.info.flags)
    && (d.phase in {Flushing, Asleep, Listening} ==> forall e <- d.state.ring :: e.clientId == INVALID_CLIENT)
    && (d.ready ==> d.phase in {Listening, Receiving, Timing} && d.state.timer == Fired)
  }

  /** Somebody will disconnect this client: the operation it waits for is under way, or a
      queued signal will dismiss it. */
  ghost predicate WillBeDismissed(s: State, c: Connection) {
    s.machine.activity == WaitForLocked || exists e <- s.ring :: Dismisses(e, c)
  }

  ghost predicate ClosersAreServed(s: State) {
    forall c <- s.clients :: OnLocked in c.info.flags ==>
      CLOSE_FLAGS <= c.info.flags && WillBeDismissed(s, c)
  }

  /** Once the queued requests are carried out the timer is running or has expired unread,
      unless the machine is idle. */
  predicate TimerIsDue(s: State) {
    s.machine.activity != Idle ==> TimerAfter(s.timer, s.ring) != Disarmed
  }

  /** The signals to come, in each phase of the loop. */
  function OutlookIn(phase: Phase, m: Machine): nat {
    match phase
    case Draining => 0
    case Timing => LateOutlook(m)
    case Serving => LateOutlook(m)
    case _ => Outlook(m)
  }

  /** The ring holds no more than the events since the last drain can account for. */
  predicate RingIsPaidFor(d: Daemon) {
    3 * |d.state.ring| + OutlookIn(d.phase, d.state.machine) <= 7 * d.applied + 9
  }

  /** The events that can be applied in a phase, and the phase the loop is in afterwards. */
  predicate InPlace(phase: Phase, event: Event, after: Phase) {
    match phase
    case Timing => event == Timeout && after == Serving
    case Serving => IsRequest(event) && after == Serving
    case Draining => false
    case Asleep => false
    case _ => !IsRequest(event) && event != Timeout && after == phase
  }

  /** Before the daemon sleeps, and while it does, the timer runs or has expired unread if a
      client is waiting for the lock. */
  ghost predicate ClosersHaveTimer(d: Daemon) {
    d.phase in {Flushing, Asleep} ==> forall c <- d.state.clients :: OnLocked in c.info.flags ==> d.state.timer != Disarmed
  }

  ghost predicate Inv(d: Daemon) {
    && WellFormed(d)
    && (!d.state.dropped ==> ClosersAreServed(d.state) && TimerIsDue(d.state) && RingIsPaidFor(d) && ClosersHaveTimer(d))
  }

  // ---- Applying an event keeps the invariant ----

  lemma ApplyAppends(s: State, event: Event, context: Context)
    requires |s.ring| <= MAX_ITEMS && !Apply(s, event, context).dropped
    ensures Apply(s, event, context).ring == s.ring + Tagged(Signals(s.machine, event), IdOf(context))
    ensures !s.dropped
  {
  }

  lemma SignalIsQueued(s: State, event: Event, context: Context, signal: Signal)
    requires |s.ring| <= MAX_ITEMS && !Apply(s, event, context).dropped && signal in Signals(s.machine, event)
    ensures Entry(signal, IdOf(context)) in Apply(s, event, context).ring
  {
    var signals := Signals(s.machine, event);
    var i :| 0 <= i < |signals| && signals[i] == signal;
    assert Tagged(signals, IdOf(context))[i] == Entry(signal, IdOf(context));
  }

  lemma ApplyKeepsTimerDue(s: State, event: Event, context: Context)
    requires |s.ring| <= MAX_ITEMS && !Apply(s, event, context).dropped && TimerIsDue(s)
    ensures TimerIsDue(Apply(s, event, context))
  {
    var entries := Tagged(Signals(s.machine, event), IdOf(context));
    if Next(s.machine, event).activity != Idle {
      StepTimers(s.machine, event);
      TimerAfterConcat(s.timer, s.ring, entries);
      if StartTimeout in Signals(s.machine, event) {
        var i :| 0 <= i < |entries| && Signals(s.machine, event)[i] == StartTimeout;
        assert entries[i].signal == StartTimeout;
      }
      TimerKeepsRunning(TimerAfter(s.timer, s.ring), entries);
    }
  }

  /** A client that was being served before an event is being served after it. */
  lemma ApplyKeepsServing(s: State, event: Event, context: Context, c: Connection)
    requires |s.ring| <= MAX_ITEMS && !Apply(s, event, context).dropped
    requires CLOSE_FLAGS <= c.info.flags && WillBeDismissed(s, c)
    ensures WillBeDismissed(Apply(s, event, context), c)
  {
    var after := Apply(s, event, context);
    if e :| e in s.ring && Dismisses(e, c) {
      assert e in after.ring;
    } else if after.machine.activity != WaitForLocked {
      EndOfLockingIsSignalled(s.machine, event);
      var end := if LockSuccessful in Signals(s.machine, event) then LockSuccessful else UserRequestedTimedOut;
      SignalIsQueued(s, event, context, end);
      assert Dismisses(Entry(end, IdOf(context)), c);
    }
  }

  /** A client that asks to close is being served from then on. */
  lemma AskingToCloseIsServed(s: State, c: Connection)
    requires |s.ring| <= MAX_ITEMS && !Apply(s, SshClose, Client(c.info.clientId)).dropped
    requires CLOSE_FLAGS <= c.info.flags
    ensures WillBeDismissed(Apply(s, SshClose, Client(c.info.clientId)), c)
  {
    var context := Client(c.info.clientId);
    CloseIsAnswered(s.machine);
    if Apply(s, SshClose, context).machine.activity != WaitForLocked {
      var answer := if NoStateChange in Signals(s.machine, SshClose) then NoStateChange else CannotHandleRequest;
      SignalIsQueued(s, SshClose, context, answer);
      assert Dismisses(Entry(answer, IdOf(context)), c);
    }
  }

  lemma ApplyKeepsClosersServed(s: State, event: Event, context: Context)
    requires |s.ring| <= MAX_ITEMS && !Apply(s, event, context).dropped && ClosersAreServed(s)
    ensures ClosersAreServed(Apply(s, event, context))
  {
    forall c <- s.clients | OnLocked in c.info.flags
      ensures WillBeDismissed(Apply(s, event, context), c)
    {
      ApplyKeepsServing(s, event, context, c);
    }
  }

  lemma ApplyKeepsRingPaidFor(d: Daemon, event: Event, context: Context, phase: Phase)
    requires Coherent(d.state.machine) && |d.state.ring| <= MAX_ITEMS && RingIsPaidFor(d)
    requires InPlace(d.phase, event, phase)
    ensures RingIsPaidFor(d.(state := Apply(d.state, event, context), phase := phase, applied := d.applied + 1))
    ensures d.applied < 26 ==> Apply(d.state, event, context).dropped == d.state.dropped
  {
    if d.phase in {Timing, Serving} {
      ServingIsPaidFor(d.state.machine, event);
    } else {
      HearingIsPaidFor(d.state.machine, event);
    }
  }

  lemma ApplyKeepsInv(d: Daemon, event: Event, context: Context)
    requires Inv(d) && InPlace(d.phase, event, d.phase)
    requires d.phase in {Flushing, Listening} ==> context == NoContext
    ensures Inv(d.(state := Apply(d.state, event, context), applied := d.applied + 1))
  {
    StepStaysCoherent(d.state.machine, event);
    if !Apply(d.state, event, context).dropped {
      ApplyKeepsClosersServed(d.state, event, context);
      ApplyKeepsTimerDue(d.state, event, context);
      ApplyKeepsRingPaidFor(d, event, context, d.phase);
    }
  }

  // ---- The other actions keep the invariant ----

  lemma HandlingKeepsInv(d: Daemon)
    requires Inv(d) && Enabled(d, NextSignal)
    ensures Inv(Do(d, NextSignal))
  {
    var s, rest := d.state, d.state.(ring := d.state.ring[1..]);
    HandleTouches(rest, s.ring[0]);
    HandleIsExact(rest, s.ring[0]);
    assert s.ring == [s.ring[0]] + s.ring[1..];
  }

  lemma ConnectingKeepsInv(d: Daemon, fd: int, nextId: ClientId)
    requires Inv(d) && Enabled(d, Connect(fd, nextId))
    ensures Inv(Do(d, Connect(fd, nextId)))
  {
    var s := d.state;
    if |s.clients| + FIRST_IPC < LIMIT {
      var c := Connection(fd, ClientInfo(s.nextId, {}, false));
      AdditionKeepsIdsInOrder(s.clients, c, nextId);
    }
  }

  lemma RemovingKeepsInv(d: Daemon, i: nat)
    requires Inv(d) && i < |d.state.clients|
    ensures Inv(d.(state := Remove(d.state, i)))
  {
    RemovalKeepsIdsInOrder(d.state.clients, i, d.state.nextId);
  }

  lemma MarkingKeepsIds(s: seq<Connection>, i: nat, flags: set<DisconnectFlag>, nextId: ClientId)
    requires i < |s| && IdsInOrder(s, nextId)
    ensures IdsInOrder(Marked(s, i, flags), nextId)
    ensures forall c :: c in Marked(s, i, flags) ==> c == Marked(s, i, flags)[i] || c in s
  {
    var m := Marked(s, i, flags);
    forall c <- m
      ensures c.info.clientId in Ids(s)
    {
      var k :| 0 <= k < |m| && m[k] == c;
      assert s[k] in s && s[k].info.clientId == c.info.clientId;
    }
  }

  /** A client that asks to open may already be waiting for a lock: it still is served. */
  lemma MarkingOpenerKeepsInv(d: Daemon, i: nat)
    requires Inv(d) && i < |d.state.clients|
    ensures Inv(d.(state := d.state.(clients := Marked(d.state.clients, i, OPEN_FLAGS))))
  {
    var s := d.state;
    MarkingKeepsIds(s.clients, i, OPEN_FLAGS, s.nextId);
    var marked := Marked(s.clients, i, OPEN_FLAGS)[i];
    if !s.dropped && OnLocked in marked.info.flags {
      assert s.clients[i] in s.clients;
      if e :| e in s.ring && Dismisses(e, s.clients[i]) {
        assert Dismisses(e, marked);
      }
    }
  }

  lemma ClosingKeepsInv(d: Daemon, i: nat)
    requires Inv(d) && i < |d.state.clients| && d.phase == Serving
    ensures Inv(d.(state := Serve(d.state, i, Close), applied := d.applied + 1))
  {
    var s := d.state;
    var context := Client(s.clients[i].info.clientId);
    var marked := Marked(s.clients, i, CLOSE_FLAGS);
    var s' := s.(clients := marked);
    var after := Apply(s', SshClose, context);
    MarkingKeepsIds(s.clients, i, CLOSE_FLAGS, s.nextId);
    StepStaysCoherent(s.machine, SshClose);
    if !after.dropped {
      ApplyKeepsTimerDue(s', SshClose, context);
      ApplyKeepsRingPaidFor(d, SshClose, context, Serving);
      forall c <- marked | OnLocked in c.info.flags
        ensures CLOSE_FLAGS <= c.info.flags && WillBeDismissed(after, c)
      {
        if c == marked[i] {
          AskingToCloseIsServed(s', c);
        } else {
          ApplyKeepsServing(s, SshClose, context, c);
        }
      }
    }
  }

  lemma ServingKeepsInv(d: Daemon, slot: nat, request: Request)
    requires Inv(d) && Enabled(d, FromClient(slot, request))
    ensures Inv(Do(d, FromClient(slot, request)))
  {
    var s := d.state;
    match request
    case OpenFront(member) => OpeningKeepsInv(d, slot, member, SshOpenFront);
    case OpenBack(member) => OpeningKeepsInv(d, slot, member, SshOpenBack);
    case Close => ClosingKeepsInv(d, slot);
    case _ => RemovingKeepsInv(d, slot);
  }

  lemma OpeningKeepsInv(d: Daemon, i: nat, member: Member, event: Event)
    requires Inv(d) && i < |d.state.clients| && d.phase == Serving && event in {SshOpenFront, SshOpenBack}
    ensures Inv(d.(state := AskToOpen(d.state, i, member, event),
                   applied := if HasMemberData(member) then d.applied + 1 else d.applied))
  {
    var marked := d.(state := d.state.(clients := Marked(d.state.clients, i, OPEN_FLAGS)));
    MarkingOpenerKeepsInv(d, i);
    if HasMemberData(member) {
      ApplyKeepsInv(marked, event, Client(d.state.clients[i].info.clientId));
    } else {
      RemovingKeepsInv(marked, i);
    }
  }

  lemma ExpiryKeepsInv(d: Daemon)
    requires Inv(d)
    ensures Inv(d.(state := Expire(d.state)))
  {
    ExpiryLosesNoTimer(d.state.ring);
  }

  /** Reading the timer always ends the operation, so none is left without a timer. */
  lemma TimerReadKeepsInv(d: Daemon)
    requires Inv(d) && d.phase == Timing
    ensures Inv(Daemon(ReadTimer(d.state), Serving, d.applied + 1, false))
  {
    var s := d.state.(timer := Disarmed);
    StepStaysCoherent(s.machine, Timeout);
    if !ReadTimer(d.state).dropped {
      ApplyKeepsClosersServed(s, Timeout, NoContext);
      ApplyKeepsRingPaidFor(d, Timeout, NoContext, Serving);
    }
  }

  lemma ActionKeepsInv(d: Daemon, a: Action)
    requires Inv(d) && Enabled(d, a)
    ensures Inv(Do(d, a))
  {
    match a
    case NextSignal => HandlingKeepsInv(d);
    case Turn =>
    case Wake(_) =>
    case Interrupted =>
    case Incoming(message) =>
      match Decode(message) {
        case Some(event) =>
          DecodeIsExact(message, event);
          ApplyKeepsInv(d, event, NoContext);
        case None =>
      }
    case Connect(fd, nextId) => ConnectingKeepsInv(d, fd, nextId);
    case TimerRead => TimerReadKeepsInv(d);
    case FromClient(slot, request) => ServingKeepsInv(d, slot, request);
    case TimerExpires => ExpiryKeepsInv(d);
    case LinkChanges(_) =>
  }

  lemma {:induction false} RunsKeepInv(trace: seq<Daemon>, actions: seq<Action>)
    requires IsRun(trace, actions)
    ensures Inv(trace[|actions|])
    decreases |actions|
  {
    if actions != [] {
      var n := |actions| - 1;
      RunsKeepInv(trace[..n+1], actions[..n]);
      ActionKeepsInv(trace[n], actions[n]);
    }
  }

  lemma ReachableKeepsInv(d: Daemon)
    requires Reachable(d)
    ensures Inv(d)
  {
    var trace, actions :| IsRun(trace, actions) && trace[|actions|] == d;
    RunsKeepInv(trace, actions);
  }

  // ---- Runs ----

  /** Every beginning of a run is a run. */
  lemma {:induction false} RunBeginning(trace: seq<Daemon>, actions: seq<Action>, k: nat)
    requires IsRun(trace, actions) && k <= |actions|
    ensures IsRun(trace[..k+1], actions[..k]) && Reachable(trace[k])
    decreases |actions|
  {
    if k == |actions| {
      assert trace[..k+1] == trace && actions[..k] == actions;
    } else {
      var n := |actions| - 1;
      assert trace[..n+1][..k+1] == trace[..k+1] && actions[..n][..k] == actions[..k];
      RunBeginning(trace[..n+1], actions[..n], k);
    }
  }

  /** The step that leads to a state of a run. */
  lemma RunStepTo(trace: seq<Daemon>, actions: seq<Action>, j: nat)
    requires IsRun(trace, actions) && 0 < j < |trace|
    ensures Leads(trace[j-1], actions[j-1], trace[j]) && Reachable(trace[j-1])
  {
    RunStep(trace, actions, j - 1);
  }

  lemma RunStep(trace: seq<Daemon>, actions: seq<Action>, k: nat)
    requires IsRun(trace, actions) && k < |actions|
    ensures Leads(trace[k], actions[k], trace[k+1]) && Reachable(trace[k])
  {
    RunBeginning(trace, actions, k);
    RunBeginning(trace, actions, k + 1);
  }

  /** The state machine of the daemon takes exactly one step of its own for each event
      applied, and none otherwise. */
  lemma MachineFollowsEvents(d: Daemon, a: Action)
    requires |d.state.ring| <= MAX_ITEMS && Enabled(d, a)
    ensures Do(d, a).state.machine ==
            match EventOf(a)
            case Some(event) => Next(d.state.machine, event)
            case None => d.state.machine
  {
    if a.NextSignal? {
      HandleTouches(d.state.(ring := d.state.ring[1..]), d.state.ring[0]);
    }
  }

  /** The events the actions apply, in their order. */
  function Applied(actions: seq<Action>): seq<Event> {
    if actions == [] then []
    else
      var n := |actions| - 1;
      Applied(actions[..n]) + (if EventOf(actions[n]).Some? then [EventOf(actions[n]).value] else [])
  }

  /** On every run the daemon's machine is what the state machine by itself makes of these
      events; so what holds of all runs of the one holds of the other. */
  lemma {:induction false} MachineFollowsRun(trace: seq<Daemon>, actions: seq<Action>)
    requires IsRun(trace, actions)
    ensures trace[|actions|].state.machine == Run(Initial, Applied(actions))
    decreases |actions|
  {
    if actions != [] {
      var n := |actions| - 1;
      MachineFollowsRun(trace[..n+1], actions[..n]);
      MachineFollowsEvents(trace[n], actions[n]);
      var before, event := Applied(actions[..n]), EventOf(actions[n]);
      if event.Some? {
        assert (before + [event.value])[..|before|] == before;
      } else {
        assert before + [] == before;
      }
    }
  }

  lemma RunGoesOn(trace: seq<Daemon>, actions: seq<Action>, a: Action, d': Daemon)
    requires IsRun(trace, actions) && Leads(trace[|actions|], a, d')
    ensures IsRun(trace + [d'], actions + [a])
  {
    var n := |actions|;
    assert (trace + [d'])[..n+1] == trace && (actions + [a])[..n] == actions;
  }

  lemma StepStaysReachable(d: Daemon, a: Action)
    requires Reachable(d) && |d.state.ring| <= MAX_ITEMS && Enabled(d, a)
    ensures Reachable(Do(d, a))
  {
    var trace, actions :| IsRun(trace, actions) && trace[|actions|] == d;
    var d' := Do(d, a);
    RunGoesOn(trace, actions, a, d');
    assert IsRun(trace + [d'], actions + [a]) && (trace + [d'])[|actions + [a]|] == d';
  }

  // ---- States that can be reached with few events between two drains ----

  ghost predicate ReachableWithin(d: Daemon, n: nat) {
    exists trace, actions :: IsRunWithin(trace, actions, n) && trace[|actions|] == d
  }

  /** At most `n` events are applied between two drains. */
  ghost predicate IsRunWithin(trace: seq<Daemon>, actions: seq<Action>, n: nat) {
    IsRun(trace, actions) && forall d <- trace :: d.applied <= n
  }

  lemma WithinIsReachable(d: Daemon, n: nat)
    requires ReachableWithin(d, n)
    ensures Reachable(d)
  {
    var trace, actions :| IsRunWithin(trace, actions, n) && trace[|actions|] == d;
    assert IsRun(trace, actions);
  }

  lemma BootIsReachable(online: bool, accepts: nat -> bool, n: nat)
    ensures ReachableWithin(Boot(online, accepts), n)
  {
    var trace := [Boot(online, accepts)];
    assert IsBoot(trace[0]);
    assert IsRunWithin(trace, [], n) && trace[0] == Boot(online, accepts);
  }

  lemma StepStaysWithin(d: Daemon, a: Action, n: nat)
    requires ReachableWithin(d, n) && |d.state.ring| <= MAX_ITEMS && Enabled(d, a) && Do(d, a).applied <= n
    ensures ReachableWithin(Do(d, a), n) && |Do(d, a).state.ring| <= MAX_ITEMS
  {
    var trace, actions :| IsRunWithin(trace, actions, n) && trace[|actions|] == d;
    var d' := Do(d, a);
    RunGoesOn(trace, actions, a, d');
    assert IsRunWithin(trace + [d'], actions + [a], n) && (trace + [d'])[|actions + [a]|] == d';
    WithinIsReachable(d', n);
    ReachableKeepsInv(d');
  }

  lemma {:induction false} DrainingStaysWithin(d: Daemon, n: nat)
    requires ReachableWithin(d, n) && |d.state.ring| <= MAX_ITEMS && d.phase == Draining && d.applied <= n
    ensures ReachableWithin(d.(state := Drain(d.state)), n)
    decreases |d.state.ring|
  {
    if d.state.ring != [] {
      StepStaysWithin(d, NextSignal, n);
      DrainingStaysWithin(Do(d, NextSignal), n);
    }
  }
}
