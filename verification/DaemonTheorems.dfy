/** The daemon's promises, proved of every state its main loop can reach. */
module DaemonTheorems {
  import opened PortalMachine
  import opened PortalRuns
  import opened SignalRing
  import opened ClientTable
  import opened DaemonModel
  import opened DaemonLemmas
  import opened DaemonRuns

  // ---- Clients that asked to close ----

  /** No close client is left hanging: as long as no signal was lost, a daemon that is idle
      and has handled all signals has disconnected everybody who asked to close. */
  lemma NoCloserIsLeftHanging(d: Daemon)
    requires Reachable(d) && !d.state.dropped
    requires d.state.ring == [] && d.state.machine.activity == Idle
    ensures forall c <- d.state.clients :: OnLocked !in c.info.flags
  {
    ReachableKeepsInv(d);
  }

  /** When an operation times out everybody who waits for its outcome is disconnected. */
  lemma TimeoutDismissesEverybody(s: State)
    requires s.ring == [] && IdsInOrder(s.clients, s.nextId)
    requires Coherent(s.machine) && s.machine.activity != Idle
    ensures var after := Drain(ReadTimer(s));
            && after.machine.activity == Idle && after.dropped == s.dropped
            && forall c :: c in after.clients <==> c in s.clients && OnError !in c.info.flags
  {
    TimeoutIsAnnounced(s.machine);
    var read := ReadTimer(s);
    assert read.ring == [Entry(UserRequestedTimedOut, INVALID_CLIENT)];
    DrainIsExact(read);
    assert read.ring[0] in read.ring;
  }

  lemma TimeoutIsAnnounced(m: Machine)
    requires Coherent(m) && m.activity != Idle
    ensures Next(m, Timeout).activity == Idle && Signals(m, Timeout) == [UserRequestedTimedOut]
  {
  }

  // ---- The timer ----

  /** As long as no signal was lost, a busy daemon's timer is running or expired unread once
      the queued requests are carried out, however expiry, reading and completion interleave.
      Whether they are ever carried out is the subject of module DaemonWaiting. */
  lemma BusyDaemonHasTimer(d: Daemon)
    requires Reachable(d) && !d.state.dropped && d.state.machine.activity != Idle
    ensures TimerAfter(d.state.timer, d.state.ring) != Disarmed
  {
    ReachableKeepsInv(d);
  }

  // ---- Client ids ----

  ghost predicate QueuedFor(s: State, id: ClientId) {
    exists e <- s.ring :: e.clientId == id
  }

  /** A client connects only while no queued signal carries a client id, so the id it is
      given cannot be one that is still queued. */
  lemma IdsAreNotReissuedWhileQueued(d: Daemon)
    requires Reachable(d) && d.phase == Listening
    ensures forall e <- d.state.ring :: e.clientId == INVALID_CLIENT
    ensures !QueuedFor(d.state, d.state.nextId)
  {
    ReachableKeepsInv(d);
  }

  lemma ClientWasThereBefore(d: Daemon, a: Action, c: Connection)
    requires Inv(d) && Enabled(d, a) && c in Do(d, a).state.clients
    requires c.info.clientId != INVALID_CLIENT && QueuedFor(d.state, c.info.clientId)
    ensures exists b <- d.state.clients :: b.info.clientId == c.info.clientId && b.fd == c.fd
  {
    match a
    case NextSignal => HandledClientWasThere(d.state, c);
    case FromClient(slot, request) => ServedClientWasThere(d.state, slot, request, c);
    case _ =>
  }

  lemma HandledClientWasThere(s: State, c: Connection)
    requires s.ring != [] && IdsInOrder(s.clients, s.nextId) && c in HandleNext(s).clients
    ensures c in s.clients
  {
    HandleIsExact(s.(ring := s.ring[1..]), s.ring[0]);
  }

  lemma ServedClientWasThere(s: State, slot: nat, request: Request, c: Connection)
    requires slot < |s.clients| && |s.ring| <= MAX_ITEMS && IdsInOrder(s.clients, s.nextId)
    requires c in Serve(s, slot, request).clients
    ensures exists b <- s.clients :: b.info.clientId == c.info.clientId && b.fd == c.fd
  {
    if c !in s.clients {
      var flags := if request.Close? then CLOSE_FLAGS else OPEN_FLAGS;
      var marked := Marked(s.clients, slot, flags);
      MarkingKeepsIds(s.clients, slot, flags, s.nextId);
      RemovalKeepsIdsInOrder(s.clients, slot, s.nextId);
      assert c == marked[slot];
      assert s.clients[slot] in s.clients;
    }
  }

  /** A queued id resolves to the client it was queued for or to nobody: if it resolves to
      a connection now, that connection has been there since the signal was queued. */
  lemma {:induction false} QueuedIdResolvesToItsIssuer(trace: seq<Daemon>, actions: seq<Action>, i: nat, j: nat, c: Connection)
    requires IsRun(trace, actions) && i <= j < |trace|
    requires c in trace[j].state.clients && c.info.clientId != INVALID_CLIENT
    requires forall k :: i <= k < j ==> QueuedFor(trace[k].state, c.info.clientId)
    ensures exists b <- trace[i].state.clients :: b.info.clientId == c.info.clientId && b.fd == c.fd
    decreases j
  {
    if i < j {
      assert QueuedFor(trace[j-1].state, c.info.clientId);
      var b := OneStepBack(trace, actions, j, c);
      QueuedIdResolvesToItsIssuer(trace, actions, i, j - 1, b);
    }
  }

  lemma OneStepBack(trace: seq<Daemon>, actions: seq<Action>, j: nat, c: Connection) returns (b: Connection)
    requires IsRun(trace, actions) && 0 < j < |trace| && c in trace[j].state.clients
    requires c.info.clientId != INVALID_CLIENT && QueuedFor(trace[j-1].state, c.info.clientId)
    ensures b in trace[j-1].state.clients && b.info.clientId == c.info.clientId && b.fd == c.fd
  {
    RunStepTo(trace, actions, j);
    b := SameClientBefore(trace[j-1], actions[j-1], trace[j], c);
  }

  lemma SameClientBefore(d: Daemon, a: Action, d': Daemon, c: Connection) returns (b: Connection)
    requires Reachable(d) && Leads(d, a, d') && c in d'.state.clients
    requires c.info.clientId != INVALID_CLIENT && QueuedFor(d.state, c.info.clientId)
    ensures b in d.state.clients && b.info.clientId == c.info.clientId && b.fd == c.fd
  {
    ReachableKeepsInv(d);
    ClientWasThereBefore(d, a, c);
    b :| b in d.state.clients && b.info.clientId == c.info.clientId && b.fd == c.fd;
  }
}
