/** What becomes of the clients that asked to open: when the daemon is idle and has handled
    all signals they are gone, with one exception. */
module DaemonOpeners {
  import opened PortalMachine
  import opened PortalRuns
  import opened PortalStateMachine
  import opened SignalRing
  import opened ClientTable
  import opened DaemonModel
  import opened DaemonLemmas
  import opened LoopBursts
  import opened DaemonRuns
  import opened DaemonScenarios
  import opened Topics

  predicate OnlyOpens(c: Connection) {
    OPEN_FLAGS <= c.info.flags && OnLocked !in c.info.flags
  }

  /** The event completes the locking of the shack. */
  predicate CompletesLocking(m: Machine, event: Event) {
    && m.activity == WaitForLocked
    && event in {DoorB2Locked, DoorC2Locked}
    && ShackState(Observe(m, event)) == ShackLocked
  }

  // ---- One event ----

  /** What an event leads to when all its signals are handled, and those queued before. */
  function Round(s: State, event: Event, context: Context): State
    requires |s.ring| <= MAX_ITEMS
  {
    Drain(Apply(s, event, context))
  }

  lemma DismissalOfOpeners(m: Machine, event: Event)
    requires Coherent(m)
    requires m.activity != Idle || event in {SshOpenFront, SshOpenBack}
    ensures var s := Signals(m, event);
            && (CompletesLocking(m, event) ==> Next(m, event).activity == Idle)
            && (Next(m, event).activity == Idle && !CompletesLocking(m, event) <==>
                UserRequestedTimedOut in s || OpenSuccessful in s || ChangeKeyholder in s)
            && NoStateChange !in s
            && (CannotHandleRequest in s ==> Next(m, event).activity != Idle)
  {
    match m.activity
    case Idle => OpenersWhileIdle(m, event);
    case WaitForLocked => OpenersWhileLocking(m, event);
    case _ => OpenersWhileOpening(m, event);
  }

  lemma OpenersWhileIdle(m: Machine, event: Event)
    requires Coherent(m) && m.activity == Idle && event in {SshOpenFront, SshOpenBack}
    ensures var s := Signals(m, event);
            && (Next(m, event).activity == Idle <==> ChangeKeyholder in s)
            && UserRequestedTimedOut !in s && OpenSuccessful !in s
            && NoStateChange !in s && CannotHandleRequest !in s
  {
  }

  lemma OpenersWhileLocking(m: Machine, event: Event)
    requires Coherent(m) && m.activity == WaitForLocked
    ensures var s := Signals(m, event);
            && (Next(m, event).activity == Idle && !CompletesLocking(m, event) <==>
                UserRequestedTimedOut in s || OpenSuccessful in s || ChangeKeyholder in s)
            && NoStateChange !in s
            && (CannotHandleRequest in s ==> Next(m, event).activity != Idle)
  {
    match event case SshOpenFront => case SshOpenBack => case SshClose => case Timeout => case _ =>
  }

  lemma OpenersWhileOpening(m: Machine, event: Event)
    requires Coherent(m) && m.activity in {WaitForOpenViaB, WaitForOpenViaC}
    ensures var s := Signals(m, event);
            && (Next(m, event).activity == Idle <==>
                UserRequestedTimedOut in s || OpenSuccessful in s || ChangeKeyholder in s)
            && NoStateChange !in s
            && (CannotHandleRequest in s ==> Next(m, event).activity != Idle)
  {
  }

  /** Which signals disconnect a client that only asked to open. */
  lemma OpenerSurvives(signals: seq<Signal>, id: ClientId, c: Connection)
    requires OnlyOpens(c) && NoStateChange !in signals && CannotHandleRequest !in signals
    ensures (forall e <- Tagged(signals, id) :: !Dismisses(e, c)) <==>
            !(UserRequestedTimedOut in signals || OpenSuccessful in signals || ChangeKeyholder in signals)
  {
    var entries := Tagged(signals, id);
    assert forall i | 0 <= i < |signals| :: entries[i].signal == signals[i] && entries[i] in entries;
    assert forall e <- entries :: e.signal in signals;
    assert OnOpen in c.info.flags && OnError in c.info.flags;
  }

  /** While an operation is under way or asked for, an event leaves a client that only asked
      to open behind in an idle daemon in exactly one case: it completes the locking of the
      shack, and no signal queued earlier disconnects the client. */
  lemma OpenerIsStrandedExactly(s: State, event: Event, context: Context, c: Connection)
    requires Coherent(s.machine) && IdsInOrder(s.clients, s.nextId)
    requires |s.ring| + |Signals(s.machine, event)| <= MAX_ITEMS
    requires c in s.clients && OnlyOpens(c)
    requires s.machine.activity != Idle || event in {SshOpenFront, SshOpenBack}
    ensures var after := Round(s, event, context);
            c in after.clients && after.machine.activity == Idle <==>
            CompletesLocking(s.machine, event) && forall e <- s.ring :: !Dismisses(e, c)
  {
    var queued := Apply(s, event, context);
    var signals := Signals(s.machine, event);
    DismissalOfOpeners(s.machine, event);
    assert queued.ring == s.ring + Tagged(signals, IdOf(context));
    DrainIsExact(queued);
    if queued.machine.activity == Idle {
      OpenerSurvives(signals, IdOf(context), c);
    }
  }

  // ---- Whole runs ----

  /** The client asked to open, whatever else it asked for. */
  predicate AskedToOpen(c: Connection) {
    OnOpen in c.info.flags
  }

  /** An operation is under way, or a queued signal will disconnect the client. */
  ghost predicate IsServed(s: State, c: Connection) {
    s.machine.activity != Idle || exists e <- s.ring :: Dismisses(e, c)
  }

  /** `b` is the same client as `c`, earlier on, and had asked to open already. */
  predicate WasAsking(b: Connection, c: Connection) {
    b.info.clientId == c.info.clientId && b.fd == c.fd && AskedToOpen(b)
  }

  lemma SignalsDismiss(signals: seq<Signal>, id: ClientId, c: Connection, signal: Signal)
    requires signal in signals && Dismisses(Entry(signal, id), c)
    ensures exists e <- Tagged(signals, id) :: Dismisses(e, c)
  {
    var i :| 0 <= i < |signals| && signals[i] == signal;
    assert Tagged(signals, id)[i] == Entry(signal, id);
  }

  /** An event that does not complete a locking keeps every opener served. */
  lemma ApplyKeepsOpenerServed(s: State, event: Event, context: Context, c: Connection)
    requires |s.ring| <= MAX_ITEMS && !Apply(s, event, context).dropped && Coherent(s.machine)
    requires OPEN_FLAGS <= c.info.flags && !CompletesLocking(s.machine, event)
    requires IsServed(s, c) || event in {SshOpenFront, SshOpenBack}
    ensures IsServed(Apply(s, event, context), c)
  {
    var after := Apply(s, event, context);
    ApplyAppends(s, event, context);
    if e :| e in s.ring && Dismisses(e, c) {
      assert e in after.ring;
    } else if after.machine.activity == Idle {
      DismissalOfOpeners(s.machine, event);
      var signals := Signals(s.machine, event);
      var end := if UserRequestedTimedOut in signals then UserRequestedTimedOut
                 else if OpenSuccessful in signals then OpenSuccessful else ChangeKeyholder;
      assert OnOpen in c.info.flags && OnError in c.info.flags;
      SignalsDismiss(signals, IdOf(context), c, end);
    }
  }

  /** The action applies an event that completes the locking of the shack. */
  predicate Completes(d: Daemon, a: Action) {
    EventOf(a).Some? && CompletesLocking(d.state.machine, EventOf(a).value)
  }

  /** An opener that is not served after an action had asked before it, and either was not
      served then, or the action completed a locking. */
  lemma UnservedBefore(d: Daemon, a: Action, c: Connection) returns (b: Connection)
    requires Inv(d) && Enabled(d, a) && !Do(d, a).state.dropped
    requires c in Do(d, a).state.clients && AskedToOpen(c) && !IsServed(Do(d, a).state, c)
    ensures b in d.state.clients && WasAsking(b, c)
    ensures Completes(d, a) || !IsServed(d.state, b)
  {
    match a
    case NextSignal => b := UnservedBeforeHandling(d.state, c);
    case FromClient(slot, request) => b := UnservedBeforeServing(d, slot, request, c);
    case Incoming(message) =>
      b := c;
      if Decode(message).Some? && IsServed(d.state, b) && !Completes(d, a) {
        ApplyKeepsOpenerServed(d.state, Decode(message).value, NoContext, c);
      }
    case TimerRead =>
      b := c;
      if IsServed(d.state, b) {
        ApplyKeepsOpenerServed(d.state.(timer := Disarmed), Timeout, NoContext, c);
      }
    case _ => b := c;
  }

  lemma UnservedBeforeHandling(s: State, c: Connection) returns (b: Connection)
    requires s.ring != [] && IdsInOrder(s.clients, s.nextId)
    requires c in HandleNext(s).clients && AskedToOpen(c) && !IsServed(HandleNext(s), c)
    ensures b == c && b in s.clients && !IsServed(s, b)
  {
    b := c;
    var rest := s.(ring := s.ring[1..]);
    HandleTouches(rest, s.ring[0]);
    HandleIsExact(rest, s.ring[0]);
    assert forall e <- s.ring :: e == s.ring[0] || e in rest.ring;
  }

  /** What a client's request does to another client, or to itself when it asked to open
      earlier. */
  lemma UnservedBeforeServing(d: Daemon, slot: nat, request: Request, c: Connection) returns (b: Connection)
    requires Inv(d) && Enabled(d, FromClient(slot, request))
    requires !Serve(d.state, slot, request).dropped
    requires c in Serve(d.state, slot, request).clients && AskedToOpen(c)
    requires !IsServed(Serve(d.state, slot, request), c)
    ensures b in d.state.clients && WasAsking(b, c) && !IsServed(d.state, b)
  {
    var s := d.state;
    match request
    case OpenFront(member) => b := UnservedBeforeOpening(d, slot, member, SshOpenFront, c);
    case OpenBack(member) => b := UnservedBeforeOpening(d, slot, member, SshOpenBack, c);
    case Close =>
      var s' := s.(clients := Marked(s.clients, slot, CLOSE_FLAGS));
      MarkingKeepsIds(s.clients, slot, CLOSE_FLAGS, s.nextId);
      b := if c == s'.clients[slot] then s.clients[slot] else c;
      assert s.clients[slot] in s.clients;
      if IsServed(s, b) {
        ServedWithMoreFlags(s, b, c);
        ApplyKeepsOpenerServed(s', SshClose, Client(s.clients[slot].info.clientId), c);
      }
    case _ =>
      b := c;
      RemovalKeepsIdsInOrder(s.clients, slot, s.nextId);
  }

  lemma ServedWithMoreFlags(s: State, b: Connection, c: Connection)
    requires IsServed(s, b) && WasAsking(b, c) && b.info.flags <= c.info.flags
    ensures IsServed(s, c)
  {
    if e :| e in s.ring && Dismisses(e, b) {
      assert Dismisses(e, c);
    }
  }

  lemma UnservedBeforeOpening(d: Daemon, slot: nat, member: Member, event: Event, c: Connection) returns (b: Connection)
    requires Inv(d) && slot < |d.state.clients| && event in {SshOpenFront, SshOpenBack}
    requires !AskToOpen(d.state, slot, member, event).dropped
    requires c in AskToOpen(d.state, slot, member, event).clients && AskedToOpen(c)
    requires !IsServed(AskToOpen(d.state, slot, member, event), c)
    ensures b == c && b in d.state.clients && !IsServed(d.state, b)
  {
    b := c;
    var s := d.state;
    var s' := s.(clients := Marked(s.clients, slot, OPEN_FLAGS));
    MarkingKeepsIds(s.clients, slot, OPEN_FLAGS, s.nextId);
    if HasMemberData(member) {
      ApplyKeepsOpenerServed(s', event, Client(s.clients[slot].info.clientId), c);
    } else {
      RemovalKeepsIdsInOrder(s'.clients, slot, s.nextId);
    }
  }

  /** The client has been connected, and asking, since the state with number `i`. */
  ghost predicate AskingSince(trace: seq<Daemon>, i: nat, j: nat, c: Connection)
    requires j < |trace|
  {
    forall k :: i <= k <= j ==> IsAskingIn(trace[k], c)
  }

  ghost predicate IsAskingIn(d: Daemon, c: Connection) {
    exists b <- d.state.clients :: WasAsking(b, c)
  }

  lemma {:induction false} UnservedOpenersSawALocking(trace: seq<Daemon>, actions: seq<Action>, j: nat, c: Connection)
    returns (i: nat)
    requires IsRun(trace, actions) && j < |trace| && !trace[j].state.dropped
    requires c in trace[j].state.clients && AskedToOpen(c) && !IsServed(trace[j].state, c)
    ensures i < j && Completes(trace[i], actions[i]) && AskingSince(trace, i, j, c)
  {
    var b := OneStepBackInRun(trace, actions, j, c);
    if Completes(trace[j-1], actions[j-1]) {
      i := j - 1;
      assert AskingSince(trace, i, j - 1, b);
    } else {
      i := UnservedOpenersSawALocking(trace, actions, j - 1, b);
    }
    AskingGoesOn(trace, i, j, b, c);
  }

  lemma OneStepBack(d: Daemon, a: Action, d': Daemon, c: Connection) returns (b: Connection)
    requires Reachable(d) && Leads(d, a, d') && !d'.state.dropped
    requires c in d'.state.clients && AskedToOpen(c) && !IsServed(d'.state, c)
    ensures b in d.state.clients && WasAsking(b, c) && IsAskingIn(d, b)
    ensures Completes(d, a) || (!IsServed(d.state, b) && !d.state.dropped)
  {
    ReachableKeepsInv(d);
    b := UnservedBefore(d, a, c);
    NothingWasLostBefore(d, a);
  }

  lemma OneStepBackInRun(trace: seq<Daemon>, actions: seq<Action>, j: nat, c: Connection) returns (b: Connection)
    requires IsRun(trace, actions) && j < |trace| && !trace[j].state.dropped
    requires c in trace[j].state.clients && AskedToOpen(c) && !IsServed(trace[j].state, c)
    ensures j > 0 && b in trace[j-1].state.clients && WasAsking(b, c) && IsAskingIn(trace[j-1], b)
    ensures Completes(trace[j-1], actions[j-1]) || (!IsServed(trace[j-1].state, b) && !trace[j-1].state.dropped)
  {
    assert j > 0 by { AskersComeLate(trace, actions, j, c); }
    RunStepTo(trace, actions, j);
    b := OneStepBack(trace[j-1], actions[j-1], trace[j], c);
  }

  lemma AskersComeLate(trace: seq<Daemon>, actions: seq<Action>, j: nat, c: Connection)
    requires IsRun(trace, actions) && j < |trace|
    requires c in trace[j].state.clients
    ensures j > 0
  {
    if j == 0 {
      RunBeginning(trace, actions, 0);
    }
  }

  lemma AskingGoesOn(trace: seq<Daemon>, i: nat, j: nat, b: Connection, c: Connection)
    requires 0 < j < |trace| && AskingSince(trace, i, j - 1, b) && WasAsking(b, c)
    requires c in trace[j].state.clients && AskedToOpen(c)
    ensures AskingSince(trace, i, j, c)
  {
    forall k | i <= k <= j
      ensures IsAskingIn(trace[k], c)
    {
      if k < j {
        assert IsAskingIn(trace[k], b);
      }
    }
  }

  lemma NothingWasLostBefore(d: Daemon, a: Action)
    requires |d.state.ring| <= MAX_ITEMS && Enabled(d, a) && !Do(d, a).state.dropped
    ensures !d.state.dropped
  {
    if a.NextSignal? {
      HandleTouches(d.state.(ring := d.state.ring[1..]), d.state.ring[0]);
    }
  }

  /** In every run that has lost no signal: if a client that asked to open is still connected
      when the daemon is idle and all signals are handled, then after it had asked an event
      completed the locking of the shack, and it has been connected ever since. */
  lemma OpenersOnlyStayAfterALocking(trace: seq<Daemon>, actions: seq<Action>, j: nat, c: Connection)
    requires IsRun(trace, actions) && j < |trace| && !trace[j].state.dropped
    requires trace[j].state.machine.activity == Idle && trace[j].state.ring == []
    requires c in trace[j].state.clients && AskedToOpen(c)
    ensures exists i :: 0 <= i < j && Completes(trace[i], actions[i]) && AskingSince(trace, i, j, c)
  {
    var i := UnservedOpenersSawALocking(trace, actions, j, c);
  }

  // ---- A run with a stranded client ----

  /** An idle daemon that has handled all signals and lost none, with a client that only
      asked to open. */
  ghost predicate HasStrandedOpener(d: Daemon) {
    && !d.state.dropped && d.state.ring == [] && d.state.machine.activity == Idle
    && exists c <- d.state.clients :: OnlyOpens(c)
  }

  const LOCKED := Machine(Idle, Locked, Locked, ShackLocked)
  const ASKED := Machine(WaitForOpenViaB, Locked, Locked, ShackLocked)
  const UNLOCKED := Machine(WaitForOpenViaB, Locked, Closed, UnlockedViaB2)
  const RELOCKED := Machine(WaitForLocked, Locked, Locked, ShackLocked)

  lemma StrandingSteps()
    ensures Steps(Initial, DoorC2Locked, Machine(Idle, Locked, Unobserved, ShackUnobserved), [])
    ensures Steps(Machine(Idle, Locked, Unobserved, ShackUnobserved), DoorB2Locked, LOCKED, [StateChange])
    ensures Steps(LOCKED, SshOpenFront, ASKED, [StartTimeout, OpenDoorB2Safe, OpenDoorB])
    ensures Steps(ASKED, DoorB2Closed, UNLOCKED, [StateChange])
    ensures Steps(UNLOCKED, DoorB2Locked, RELOCKED, [StateChange, StartTimeout, UnlockTimeout])
    ensures Steps(RELOCKED, DoorB2Locked, LOCKED, [CancelTimeout, LockSuccessful, OpenDoorB])
  {
  }

  /** Signals that do not concern the visitor. */
  predicate LeavesVisitor(signals: seq<Signal>) {
    forall signal <- signals ::
      signal !in {OpenSuccessful, ChangeKeyholder, NoStateChange, UserRequestedTimedOut, CannotHandleRequest}
  }

  ghost predicate VisitorIsSafe(s: State) {
    && IdsInOrder(s.clients, s.nextId) && VISITOR in s.clients
    && forall e <- s.ring :: !Dismisses(e, VISITOR)
  }

  lemma QueueSpares(s: State, signals: seq<Signal>, id: ClientId)
    requires VisitorIsSafe(s) && LeavesVisitor(signals)
    ensures forall e <- s.ring + Tagged(signals, id) :: !Dismisses(e, VISITOR)
  {
    forall e <- Tagged(signals, id)
      ensures !Dismisses(e, VISITOR)
    {
      assert e.signal in signals;
    }
  }

  lemma VisitorStays(s: State)
    requires VisitorIsSafe(s)
    ensures VisitorIsSafe(Drain(s)) && Drain(s).ring == [] && Drain(s).machine == s.machine
  {
    DrainIsExact(s);
  }

  /** The daemon is about to hear the broker, and the visitor is not about to be disconnected. */
  ghost predicate Hosts(d: Daemon, m: Machine, applied: nat, queued: nat) {
    && IsSound(d, 4) && d.phase == Flushing && IsCalm(d) && d.applied == applied
    && d.state.machine == m && |d.state.ring| == queued && VisitorIsSafe(d.state)
  }

  lemma HearWithVisitor(d: Daemon, event: Event, next: Machine, signals: seq<Signal>) returns (d': Daemon)
    requires Hosts(d, d.state.machine, d.applied, |d.state.ring|) && d.applied < 4
    requires !IsRequest(event) && event != Timeout && Steps(d.state.machine, event, next, signals)
    requires |d.state.ring| + |signals| <= MAX_ITEMS && LeavesVisitor(signals)
    ensures Hosts(d', next, d.applied + 1, |d.state.ring| + |signals|)
  {
    QueueSpares(d.state, signals, INVALID_CLIENT);
    d' := Hear(d, event, next, signals, 4);
  }

  lemma LockedShack() returns (d: Daemon)
    ensures IsSound(d, 4) && d.phase == Flushing && IsCalm(d) && d.applied == 2
    ensures d.state == Boot(true, _ => true).state.(machine := LOCKED, ring := [Entry(StateChange, INVALID_CLIENT)])
  {
    StrandingSteps();
    d := Start(4);
    d := Hear(d, DoorC2Locked, Machine(Idle, Locked, Unobserved, ShackUnobserved), [], 4);
    d := Hear(d, DoorB2Locked, LOCKED, [StateChange], 4);
    assert [] + Tagged([], INVALID_CLIENT) + Tagged([StateChange], INVALID_CLIENT) == [Entry(StateChange, INVALID_CLIENT)];
  }

  lemma VisitorAsks() returns (d: Daemon)
    ensures Hosts(d, ASKED, 0, 0)
  {
    StrandingSteps();
    d := LockedShack();
    d := AskToEnter(d, ASKED, [StartTimeout, OpenDoorB2Safe, OpenDoorB], 4);
    VisitorIsSafeAfterAsking(d.state);
    VisitorStays(d.state);
    d := FinishPass(d, 4);
  }

  lemma VisitorIsSafeAfterAsking(s: State)
    requires s.clients == [VISITOR] && s.nextId == 1
    requires s.ring == [Entry(StateChange, INVALID_CLIENT)] + Tagged([StartTimeout, OpenDoorB2Safe, OpenDoorB], 0)
    ensures VisitorIsSafe(s)
  {
    assert VISITOR in s.clients;
    var before := s.(ring := [Entry(StateChange, INVALID_CLIENT)]);
    QueueSpares(before, [StartTimeout, OpenDoorB2Safe, OpenDoorB], 0);
  }

  /** It does happen: with the shack locked somebody asks to enter by the front door, the
      door is unlocked, nobody enters, and the door reports locked twice. */
  lemma OpenersCanBeStranded() returns (d: Daemon)
    ensures Reachable(d) && HasStrandedOpener(d)
  {
    d := NobodyEnters();
    VisitorStays(d.state);
    d := FinishPass(d, 4);
    WithinIsReachable(d, 4);
    assert VISITOR in d.state.clients && OnlyOpens(VISITOR);
  }

  lemma NobodyEnters() returns (d: Daemon)
    ensures Hosts(d, LOCKED, 3, 7)
  {
    StrandingSteps();
    d := VisitorAsks();
    d := HearWithVisitor(d, DoorB2Closed, UNLOCKED, [StateChange]);
    d := HearWithVisitor(d, DoorB2Locked, RELOCKED, [StateChange, StartTimeout, UnlockTimeout]);
    d := HearWithVisitor(d, DoorB2Locked, LOCKED, [CancelTimeout, LockSuccessful, OpenDoorB]);
  }
}
