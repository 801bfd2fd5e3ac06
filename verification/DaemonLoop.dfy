/** The main loop as the program runs it: one pass over the objects, which takes exactly the
    steps of the transition system, in its order. */
module DaemonLoop {
  import opened SignalRing
  import opened ClientTable
  import opened DaemonModel
  import opened DaemonLemmas
  import opened DaemonRuns
  import opened PortalDaemon
  import opened Topics

  // ---- Sequences of actions ----

  ghost predicate CanPerform(d: Daemon, actions: seq<Action>)
    decreases |actions|
  {
    actions == [] ||
    (|d.state.ring| <= MAX_ITEMS && Enabled(d, actions[0]) && CanPerform(Do(d, actions[0]), actions[1..]))
  }

  ghost function Perform(d: Daemon, actions: seq<Action>): Daemon
    requires CanPerform(d, actions)
    decreases |actions|
  {
    if actions == [] then d else Perform(Do(d, actions[0]), actions[1..])
  }

  /** The actions lead from one state of the daemon to another. */
  ghost predicate Path(d: Daemon, actions: seq<Action>, d': Daemon) {
    CanPerform(d, actions) && Perform(d, actions) == d'
  }

  lemma {:induction false} PathsJoin(d: Daemon, a: seq<Action>, mid: Daemon, b: seq<Action>, d': Daemon)
    requires Path(d, a, mid) && Path(mid, b, d')
    ensures Path(d, a + b, d')
    decreases |a|
  {
    if a == [] {
      assert a + b == b;
    } else {
      assert (a + b)[0] == a[0] && (a + b)[1..] == a[1..] + b;
      PathsJoin(Do(d, a[0]), a[1..], mid, b, d');
    }
  }

  lemma OneStep(d: Daemon, a: Action)
    requires |d.state.ring| <= MAX_ITEMS && Enabled(d, a)
    ensures Path(d, [a], Do(d, a))
  {
  }

  lemma StepsOn(d: Daemon, actions: seq<Action>, mid: Daemon, a: Action)
    requires Path(d, actions, mid) && |mid.state.ring| <= MAX_ITEMS && Enabled(mid, a)
    ensures Path(d, actions + [a], Do(mid, a))
  {
    OneStep(mid, a);
    PathsJoin(d, actions, mid, [a], Do(mid, a));
  }

  /** What the objects do, pass after pass, stays within what the transition system can reach. */
  lemma {:induction false} PathsStayReachable(d: Daemon, actions: seq<Action>, d': Daemon)
    requires Reachable(d) && Path(d, actions, d')
    ensures Reachable(d')
    decreases |actions|
  {
    if actions != [] {
      StepStaysReachable(d, actions[0]);
      PathsStayReachable(Do(d, actions[0]), actions[1..], d');
    }
  }

  // ---- Draining ----

  function Handlings(n: nat): seq<Action> {
    seq(n, _ => NextSignal)
  }

  lemma {:induction false} DrainingPath(d: Daemon)
    requires d.phase == Draining && |d.state.ring| <= MAX_ITEMS
    ensures Path(d, Handlings(|d.state.ring|), d.(state := Drain(d.state)))
    decreases |d.state.ring|
  {
    if d.state.ring != [] {
      HandleTouches(d.state.(ring := d.state.ring[1..]), d.state.ring[0]);
      DrainingPath(Do(d, NextSignal));
      assert Handlings(|d.state.ring|)[1..] == Handlings(|d.state.ring| - 1);
    }
  }

  /** All queued signals are handled. */
  method DrainRing(p: PortalDaemon, ghost d: Daemon) returns (ghost d': Daemon)
    requires p.Valid() && d.state == p.Value() && d.phase == Draining
    modifies p, p.Repr
    ensures p.Valid() && d'.state == p.Value()
    ensures d' == Daemon(Drain(d.state), Flushing, 0, d.ready)
    ensures Path(d, Handlings(|d.state.ring|) + [Turn], d')
  {
    p.DrainSignals();
    DrainingPath(d);
    d' := d.(state := p.Value());
    StepsOn(d, Handlings(|d.state.ring|), d', Turn);
    d' := Do(d', Turn);
  }

  // ---- Hearing the broker ----

  function Arrivals(messages: seq<Message>): seq<Action> {
    seq(|messages|, i requires 0 <= i < |messages| => Incoming(messages[i]))
  }

  /** All messages received in one go are applied, one after the other. */
  method HearBroker(p: PortalDaemon, messages: seq<Message>, ghost d: Daemon) returns (ghost d': Daemon)
    requires p.Valid() && d.state == p.Value() && d.phase in {Flushing, Receiving}
    modifies p, p.Repr
    ensures p.Valid() && d'.state == p.Value() && d'.phase == d.phase && d'.ready == d.ready
    ensures d'.state.timer == d.state.timer && d'.state.clients == d.state.clients
    ensures Path(d, Arrivals(messages), d')
  {
    d' := d;
    for i := 0 to |messages|
      invariant p.Valid() && d'.state == p.Value() && d'.phase == d.phase && d'.ready == d.ready
      invariant d'.state.timer == d.state.timer && d'.state.clients == d.state.clients
      invariant Path(d, Arrivals(messages[..i]), d')
    {
      p.HandleMessage(messages[i]);
      StepsOn(d, Arrivals(messages[..i]), d', Incoming(messages[i]));
      assert Arrivals(messages[..i+1]) == Arrivals(messages[..i]) + [Incoming(messages[i])];
      d' := Do(d', Incoming(messages[i]));
    }
    assert messages[..|messages|] == messages;
  }

  // ---- Taking in a client ----

  /** A connection is accepted, or refused when all slots are taken. */
  method AcceptCaller(p: PortalDaemon, caller: Option<int>, ghost d: Daemon) returns (ghost a: Action, ghost d': Daemon)
    requires p.Valid() && d.state == p.Value() && d.phase == Listening
    modifies p, p.Repr
    ensures p.Valid() && d'.state == p.Value() && d'.phase == Receiving && d'.ready == d.ready
    ensures d'.state.timer == d.state.timer && Path(d, [a], d')
    ensures a == Turn || (a.Connect? && caller == Some(a.fd))
    ensures caller.Some? && |d.state.clients| + FIRST_IPC < LIMIT ==> a.Connect?
  {
    a := Turn;
    if caller.Some? {
      p.AcceptClient(caller.value);
      if |p.table.connections| > |d.state.clients| {
        a := Connect(caller.value, p.table.nextId);
      }
    }
    OneStep(d, a);
    d' := Do(d, a);
  }

  // ---- Serving the clients ----

  /** The actions serve the requests of all slots before a certain one, from the first on. */
  ghost predicate AreServed(requests: map<nat, Request>, actions: seq<Action>, slot: nat) {
    && (forall a <- actions :: a.FromClient? && a.slot < slot && a.slot in requests && a.request == requests[a.slot])
    && (forall i, j :: 0 <= i < j < |actions| ==> InSlotOrder(actions[i], actions[j]))
    && (forall s <- requests :: s < slot ==> FromClient(s, requests[s]) in actions)
  }

  predicate InSlotOrder(a: Action, b: Action) {
    a.FromClient? && b.FromClient? && a.slot < b.slot
  }

  lemma OneMoreSlot(requests: map<nat, Request>, actions: seq<Action>, slot: nat)
    requires AreServed(requests, actions, slot)
    ensures AreServed(requests, if slot in requests then actions + [FromClient(slot, requests[slot])] else actions, slot + 1)
  {
    if slot in requests {
      var longer := actions + [FromClient(slot, requests[slot])];
      forall i, j | 0 <= i < j < |longer|
        ensures InSlotOrder(longer[i], longer[j])
      {
        assert longer[i] in actions;
        if j < |actions| {
          assert InSlotOrder(actions[i], actions[j]);
        }
      }
    }
  }

  lemma ServingStep(d: Daemon, slot: nat, request: Request)
    requires d.phase == Serving && slot < |d.state.clients| && |d.state.ring| <= MAX_ITEMS
    requires request in {ForceOpen, SystemReset} ==> d.state.online
    ensures Enabled(d, FromClient(slot, request))
    ensures var d' := Do(d, FromClient(slot, request));
            && Path(d, [FromClient(slot, request)], d')
            && d'.state == Serve(d.state, slot, request) && d'.phase == Serving && d'.ready == d.ready
            && |d'.state.clients| <= |d.state.clients|
  {
    OneStep(d, FromClient(slot, request));
  }

  /** One client's request is handled. */
  method ServeSlot(p: PortalDaemon, slot: nat, request: Request, ghost d: Daemon) returns (alive: bool, ghost d': Daemon)
    requires p.Valid() && d.state == p.Value() && d.phase == Serving && slot < |d.state.clients|
    modifies p, p.Repr
    ensures p.Valid() && d'.state == p.Value() && d'.phase == Serving && d'.ready == d.ready
    ensures |d'.state.clients| <= |d.state.clients|
    ensures if alive then Path(d, [FromClient(slot, request)], d') else d' == d
    ensures alive <==> (request in {ForceOpen, SystemReset} ==> d.state.online)
  {
    d' := d;
    if request in {ForceOpen, SystemReset} ==> p.online {
      ServingStep(d, slot, request);
      d' := Do(d, FromClient(slot, request));
    }
    alive := p.HandleRequest(FIRST_IPC + slot, request);
  }

  /** The slots are served from the first to the last one in use.  A client moved to an earlier
      slot on the way waits for the next pass. */
  method ServeClients(p: PortalDaemon, requests: map<nat, Request>, ghost d: Daemon)
    returns (alive: bool, ghost actions: seq<Action>, ghost upTo: nat, ghost d': Daemon)
    requires p.Valid() && d.state == p.Value() && d.phase == Serving
    modifies p, p.Repr
    ensures p.Valid() && d'.state == p.Value() && d'.phase == Serving && d'.ready == d.ready
    ensures Path(d, actions, d') && AreServed(requests, actions, upTo)
    ensures alive ==> upTo >= |d'.state.clients|
    ensures !alive ==> !d'.state.online && upTo in requests && requests[upTo] in {ForceOpen, SystemReset}
  {
    actions, d', alive := [], d, true;
    var slot := 0;
    while FIRST_IPC + slot < p.table.size
      invariant p.Valid() && d'.state == p.Value() && d'.phase == Serving && d'.ready == d.ready
      invariant Path(d, actions, d') && AreServed(requests, actions, slot)
      invariant |d'.state.clients| <= |d.state.clients|
      decreases |d.state.clients| - slot
    {
      OneMoreSlot(requests, actions, slot);
      if slot in requests {
        ghost var before := d';
        alive, d' := ServeSlot(p, slot, requests[slot], d');
        if !alive {
          return alive, actions, slot, d';
        }
        PathsJoin(d, actions, before, [FromClient(slot, requests[slot])], d');
        actions := actions + [FromClient(slot, requests[slot])];
      }
      slot := slot + 1;
    }
    upTo := slot;
  }

  // ---- The pass ----

  /** What the outside world has for one pass of the loop. */
  datatype Input = Input(
    flushed: seq<Message>,         // received while the connection to the broker is flushed
    timerExpires: bool,            // the timer expires before the daemon wakes up, if it runs
    interrupted: bool,             // the sleep is interrupted
    caller: Option<int>,           // a client that connects
    brokerReady: bool,             // the connection to the broker is ready
    received: seq<Message>,        // what it delivers then
    requests: map<nat, Request>)   // what the clients in their slots have sent

  datatype End = Finished | StaysAsleep | Died

  /** Something wakes the daemon up. */
  predicate IsWoken(input: Input, timer: Timer, clients: nat) {
    input.caller.Some? || input.brokerReady || timer == Fired || exists slot <- input.requests :: slot < clients
  }

  ghost predicate IsCause(cause: Cause, input: Input, d: Daemon) {
    match cause
    case ByCaller => input.caller.Some?
    case ByBroker => input.brokerReady
    case ByTimer => d.state.timer == Fired
    case ByClient(slot) => slot in input.requests && slot < |d.state.clients|
  }

  /** From the drain to the sleep. */
  method GoToSleep(p: PortalDaemon, input: Input, ghost d: Daemon) returns (ghost actions: seq<Action>, ghost d': Daemon)
    requires p.Valid() && d.state == p.Value() && d.phase == Draining && !d.ready
    modifies p, p.Repr
    ensures p.Valid() && d'.state == p.Value() && d'.phase == Asleep && !d'.ready
    ensures actions == (Handlings(|d.state.ring|) + [Turn]) + (Arrivals(input.flushed) + [Turn])
                       + (if input.timerExpires && Drain(d.state).timer == Armed then [TimerExpires] else [])
    ensures Path(d, actions, d')
  {
    ghost var draining := Handlings(|d.state.ring|) + [Turn];
    ghost var drained := DrainRing(p, d);
    ghost var heard := HearBroker(p, input.flushed, drained);
    StepsOn(drained, Arrivals(input.flushed), heard, Turn);
    d' := Do(heard, Turn);
    PathsJoin(d, draining, drained, Arrivals(input.flushed) + [Turn], d');
    actions := draining + (Arrivals(input.flushed) + [Turn]);
    if input.timerExpires && p.timer == Armed {
      p.timer := Fired;
      StepsOn(d, actions, d', TimerExpires);
      d' := Do(d', TimerExpires);
      actions := actions + [TimerExpires];
    } else {
      assert actions + [] == actions;
    }
  }

  /** From waking up to the clients: a caller, the broker and the timer, in this order. */
  method ServeFixedSlots(p: PortalDaemon, input: Input, ghost d: Daemon) returns (ghost actions: seq<Action>, ghost d': Daemon)
    requires p.Valid() && d.state == p.Value() && d.phase == Listening && (d.ready <==> p.timer == Fired)
    modifies p, p.Repr
    ensures p.Valid() && d'.state == p.Value() && d'.phase == Serving && !d'.ready
    ensures Path(d, actions, d') && |actions| == |Arrivals(input.received)| + 3
    ensures actions[0] == Turn || (actions[0].Connect? && input.caller == Some(actions[0].fd))
    ensures input.caller.Some? && |d.state.clients| + FIRST_IPC < LIMIT ==> actions[0].Connect?
    ensures actions[1..] == Arrivals(input.received) + [Turn] + [if d.ready then TimerRead else Turn]
  {
    ghost var a, accepted := AcceptCaller(p, input.caller, d);
    ghost var heard := HearBroker(p, input.received, accepted);
    StepsOn(accepted, Arrivals(input.received), heard, Turn);
    ghost var timing := Do(heard, Turn);
    ghost var last := if d.ready then TimerRead else Turn;
    if p.timer == Fired {
      p.HandleTimer();
    }
    StepsOn(accepted, Arrivals(input.received) + [Turn], timing, last);
    d' := Do(timing, last);
    PathsJoin(d, [a], accepted, Arrivals(input.received) + [Turn] + [last], d');
    actions := [a] + (Arrivals(input.received) + [Turn] + [last]);
  }

  /** One pass of the main loop.  What the objects do is a sequence of steps of the transition
      system: all queued signals, the messages received while flushing, the sleep, and, if
      something wakes the daemon up, the caller, the messages, the timer if it was ready, and
      the clients' requests in the order of their slots. */
  method Pass(p: PortalDaemon, input: Input, ghost d: Daemon)
    returns (end: End, ghost before: seq<Action>, ghost after: seq<Action>, ghost served: seq<Action>, ghost upTo: nat, ghost d': Daemon)
    requires p.Valid() && d.state == p.Value() && d.phase == Draining && !d.ready
    modifies p, p.Repr
    ensures p.Valid() && d'.state == p.Value()
    ensures before == (Handlings(|d.state.ring|) + [Turn]) + (Arrivals(input.flushed) + [Turn])
                      + (if input.timerExpires && Drain(d.state).timer == Armed then [TimerExpires] else [])
    ensures after == [] || (!input.interrupted && IsAwakening(input, after))
    ensures AreServed(input.requests, served, upTo)
    ensures match end
            case StaysAsleep =>
              Path(d, before, d') && d'.phase == Asleep && !input.interrupted
              && !IsWoken(input, d'.state.timer, |d'.state.clients|)
            case Died =>
              Path(d, before + after + served, d') && !d'.state.online
            case Finished =>
              d'.phase == Draining && !d'.ready &&
              if input.interrupted then Path(d, before + [Interrupted], d')
              else after != [] && Path(d, before + after + served + [Turn], d') && upTo >= |d'.state.clients|
  {
    after, served, upTo := [], [], 0;
    before, d' := GoToSleep(p, input, d);
    if input.interrupted {
      StepsOn(d, before, d', Interrupted);
      d' := Do(d', Interrupted);
      return Finished, before, after, served, upTo, d';
    }
    if !IsWoken(input, p.timer, p.table.size - FIRST_IPC) {
      return StaysAsleep, before, after, served, upTo, d';
    }
    ghost var asleep := d';
    var alive;
    alive, after, served, upTo, d' := WakeUp(p, input, asleep);
    PathsJoin(d, before, asleep, after + served, d');
    assert before + (after + served) == before + after + served;
    if !alive {
      return Died, before, after, served, upTo, d';
    }
    StepsOn(d, before + after + served, d', Turn);
    d' := Do(d', Turn);
    end := Finished;
  }

  lemma WakingCause(input: Input, d: Daemon) returns (cause: Cause)
    requires d.phase == Asleep && IsWoken(input, d.state.timer, |d.state.clients|)
    ensures IsCause(cause, input, d) && Enabled(d, Wake(cause))
  {
    if input.caller.Some? {
      cause := ByCaller;
    } else if input.brokerReady {
      cause := ByBroker;
    } else if d.state.timer == Fired {
      cause := ByTimer;
    } else {
      var slot :| slot in input.requests && slot < |d.state.clients|;
      cause := ByClient(slot);
    }
  }

  /** From waking up to the end of the pass. */
  method WakeUp(p: PortalDaemon, input: Input, ghost d: Daemon)
    returns (alive: bool, ghost after: seq<Action>, ghost served: seq<Action>, ghost upTo: nat, ghost d': Daemon)
    requires p.Valid() && d.state == p.Value() && d.phase == Asleep && !d.ready
    requires IsWoken(input, d.state.timer, |d.state.clients|)
    modifies p, p.Repr
    ensures p.Valid() && d'.state == p.Value() && d'.phase == Serving && !d'.ready
    ensures IsAwakening(input, after) && AreServed(input.requests, served, upTo)
    ensures Path(d, after + served, d')
    ensures alive ==> upTo >= |d'.state.clients|
    ensures !alive ==> !d'.state.online
  {
    ghost var cause := WakingCause(input, d);
    OneStep(d, Wake(cause));
    ghost var awake := Do(d, Wake(cause));
    ghost var fixed, serving := ServeFixedSlots(p, input, awake);
    after := [Wake(cause)] + fixed;
    PathsJoin(d, [Wake(cause)], awake, fixed, serving);
    alive, served, upTo, d' := ServeClients(p, input.requests, serving);
    PathsJoin(d, after, serving, served, d');
  }

  /** The daemon wakes up, and takes in a caller, the broker's messages and the timer. */
  ghost predicate IsAwakening(input: Input, actions: seq<Action>) {
    && |actions| == |input.received| + 4
    && actions[0].Wake?
    && (actions[1] == Turn || (actions[1].Connect? && input.caller == Some(actions[1].fd)))
    && actions[2..|actions|-1] == Arrivals(input.received) + [Turn]
    && actions[|actions|-1] in {TimerRead, Turn}
  }
}
