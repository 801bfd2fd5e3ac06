/** What becomes of the clients' requests: what each of them does at once, and, over whole runs,
    that a client which asked to close or to open gets its answer. */
module DaemonRequests {
  import opened PortalMachine
  import opened PortalRuns
  import opened PortalStateMachine
  import opened SignalRing
  import opened ClientTable
  import opened DaemonModel
  import opened DaemonLemmas
  import opened DaemonRuns
  import opened DaemonTheorems
  import opened DaemonOpeners
  import opened Topics

  // ---- What a request does at once ----

  lemma SameIdSameClient(s: seq<Connection>, b: Connection, c: Connection)
    requires DistinctIds(s) && b in s && c in s && b.info.clientId == c.info.clientId
    ensures b == c
  {
    var i :| 0 <= i < |s| && s[i] == b;
    var j :| 0 <= j < |s| && s[j] == c;
  }

  /** The client in a slot is gone, and all others are still there. */
  ghost predicate HasLeft(before: seq<Connection>, slot: nat, after: seq<Connection>)
    requires slot < |before|
  {
    forall c :: c in after <==> c in before && c.info.clientId != before[slot].info.clientId
  }

  lemma RemovedHasLeft(s: State, slot: nat)
    requires slot < |s.clients| && IdsInOrder(s.clients, s.nextId)
    ensures HasLeft(s.clients, slot, Remove(s, slot).clients)
  {
    RemovalKeepsIdsInOrder(s.clients, slot, s.nextId);
  }

  /** Those of a sequence of messages whose publication succeeds, `tries` being how many
      attempts there were before. */
  function Taken(accepts: nat -> bool, tries: nat, messages: seq<Message>): seq<Message>
    decreases |messages|
  {
    if messages == [] then []
    else (if accepts(tries) then [messages[0]] else []) + Taken(accepts, tries + 1, messages[1..])
  }

  function Accepted(s: State, messages: seq<Message>): seq<Message> {
    if s.online then Taken(s.accepts, s.tries, messages) else []
  }

  /** What a request commands, without asking the state machine. */
  function Demands(request: Request): seq<Message> {
    match request
    case ForceOpen =>
      [Message(ACTION_OPEN_DOOR_UNSAFE, NAME_B), Message(ACTION_OPEN_DOOR_UNSAFE, NAME_B2),
       Message(ACTION_OPEN_DOOR_UNSAFE, NAME_C), Message(ACTION_OPEN_DOOR_UNSAFE, NAME_C2)]
    case SystemReset => [Message(ACTION_RESET, "*")]
    case _ => []
  }

  lemma OnePublished(s: State, message: Message, rest: seq<Message>)
    ensures var after := Publish(s, message.topic, message.payload);
            s.sent + Accepted(s, [message] + rest) == after.sent + Accepted(after, rest)
    ensures var after := Publish(s, message.topic, message.payload);
            after == s.(tries := after.tries, sent := after.sent)
  {
    var after := Publish(s, message.topic, message.payload);
    assert ([message] + rest)[1..] == rest;
    if s.online {
      var first, later := if s.accepts(s.tries) then [message] else [], Taken(s.accepts, s.tries + 1, rest);
      assert s.sent + (first + later) == (s.sent + first) + later;
    }
  }

  /** Forcing the doors open commands all four, and a failing command does not keep the others
      from being sent; a reset is sent to everybody; the client leaves, and nothing else
      happens. */
  lemma CommandingRequests(s: State, slot: nat, request: Request)
    requires slot < |s.clients| && |s.ring| <= MAX_ITEMS && IdsInOrder(s.clients, s.nextId)
    requires request in {ForceOpen, SystemReset}
    ensures var after := Serve(s, slot, request);
            && after.sent == s.sent + Accepted(s, Demands(request))
            && HasLeft(s.clients, slot, after.clients)
            && after == s.(clients := after.clients, sent := after.sent, tries := after.tries)
  {
    if request == ForceOpen {
      AllDoorsAreCommanded(s);
      var b := Publish(s, ACTION_OPEN_DOOR_UNSAFE, NAME_B);
      var b2 := Publish(b, ACTION_OPEN_DOOR_UNSAFE, NAME_B2);
      var c := Publish(b2, ACTION_OPEN_DOOR_UNSAFE, NAME_C);
      RemovedHasLeft(Publish(c, ACTION_OPEN_DOOR_UNSAFE, NAME_C2), slot);
    } else {
      OnePublished(s, Message(ACTION_RESET, "*"), []);
      assert [Message(ACTION_RESET, "*")] + [] == Demands(SystemReset);
      RemovedHasLeft(Publish(s, ACTION_RESET, "*"), slot);
    }
  }

  lemma AllDoorsAreCommanded(s: State)
    ensures var b := Publish(s, ACTION_OPEN_DOOR_UNSAFE, NAME_B);
            var b2 := Publish(b, ACTION_OPEN_DOOR_UNSAFE, NAME_B2);
            var c := Publish(b2, ACTION_OPEN_DOOR_UNSAFE, NAME_C);
            var c2 := Publish(c, ACTION_OPEN_DOOR_UNSAFE, NAME_C2);
            c2.sent == s.sent + Accepted(s, Demands(ForceOpen)) && c2 == s.(tries := c2.tries, sent := c2.sent)
  {
    var m := Demands(ForceOpen);
    var b := Publish(s, m[0].topic, m[0].payload);
    var b2 := Publish(b, m[1].topic, m[1].payload);
    var c := Publish(b2, m[2].topic, m[2].payload);
    var c2 := Publish(c, m[3].topic, m[3].payload);
    OnePublished(s, m[0], m[1..]);
    OnePublished(b, m[1], m[2..]);
    OnePublished(b2, m[2], m[3..]);
    OnePublished(c, m[3], m[4..]);
    assert m == [m[0]] + m[1..] && m[1..] == [m[1]] + m[2..] && m[2..] == [m[2]] + m[3..] && m[3..] == [m[3]] + m[4..];
    assert c2.sent + Accepted(c2, []) == c2.sent;
  }

  /** Asking for the status or for the shutdown, sending garbage and hanging up make the client
      leave and do nothing else. */
  lemma PlainRequests(s: State, slot: nat, request: Request)
    requires slot < |s.clients| && |s.ring| <= MAX_ITEMS && IdsInOrder(s.clients, s.nextId)
    requires request in {Shutdown, QueryStatus, SimpleStatus, Garbage, HangUp}
    ensures var after := Serve(s, slot, request);
            after == s.(clients := after.clients) && HasLeft(s.clients, slot, after.clients)
  {
    RemovedHasLeft(s, slot);
  }

  predicate IsOpening(request: Request) {
    request.OpenFront? || request.OpenBack?
  }

  /** A request to open without a nick, a name or a positive number is not passed on: the client
      leaves and nothing else happens. */
  lemma NamelessRequests(s: State, slot: nat, request: Request)
    requires slot < |s.clients| && |s.ring| <= MAX_ITEMS && IdsInOrder(s.clients, s.nextId) && IsOpening(request)
    requires |request.member.nick| == 0 || |request.member.name| == 0 || request.member.id < 1
    ensures var after := Serve(s, slot, request);
            after == s.(clients := after.clients) && HasLeft(s.clients, slot, after.clients)
  {
    var marked := s.(clients := Marked(s.clients, slot, OPEN_FLAGS));
    MarkingKeepsIds(s.clients, slot, OPEN_FLAGS, s.nextId);
    RemovedHasLeft(marked, slot);
    forall c | c in s.clients && c.info.clientId != s.clients[slot].info.clientId
      ensures c in marked.clients
    {
      var k :| 0 <= k < |s.clients| && s.clients[k] == c;
      assert marked.clients[k] == c;
    }
  }

  /** What a request asks of the state machine. */
  function Asked(request: Request): Option<Event> {
    match request
    case OpenFront(_) => Some(SshOpenFront)
    case OpenBack(_) => Some(SshOpenBack)
    case Close => Some(SshClose)
    case _ => None
  }

  /** A request with proper member data, or to close, is passed on, and nobody leaves. */
  predicate IsProper(request: Request) {
    || request == Close
    || (IsOpening(request) && |request.member.nick| > 0 && |request.member.name| > 0 && request.member.id >= 1)
  }

  lemma ProperRequests(s: State, slot: nat, request: Request)
    requires slot < |s.clients| && |s.ring| <= MAX_ITEMS && IsProper(request)
    ensures var flags := if request == Close then CLOSE_FLAGS else OPEN_FLAGS;
            Serve(s, slot, request) ==
            Apply(s.(clients := Marked(s.clients, slot, flags)), Asked(request).value, Client(s.clients[slot].info.clientId))
  {
  }

  /** Whoever asks while an operation is under way is refused personally: once the signals are
      handled just this client is gone, whatever else anybody waits for, and the operation goes
      on. */
  lemma RefusalsArePersonal(s: State, slot: nat, request: Request)
    requires slot < |s.clients| && s.ring == [] && IdsInOrder(s.clients, s.nextId) && IsProper(request)
    requires Coherent(s.machine) && s.machine.activity != Idle
    ensures var after := Drain(Serve(s, slot, request));
            after.machine == s.machine && HasLeft(s.clients, slot, after.clients)
  {
    var flags := if request == Close then CLOSE_FLAGS else OPEN_FLAGS;
    var id := s.clients[slot].info.clientId;
    var marked := Marked(s.clients, slot, flags);
    ProperRequests(s, slot, request);
    RequestsAreRefused(s.machine, Asked(request).value);
    var queued := Serve(s, slot, request);
    assert queued.ring == [Entry(CannotHandleRequest, id)];
    MarkingKeepsIds(s.clients, slot, flags, s.nextId);
    DrainIsExact(queued);
    assert queued.ring[0] in queued.ring;
    OthersAreUnmarked(s, slot, flags);
  }

  lemma OthersAreUnmarked(s: State, slot: nat, flags: set<DisconnectFlag>)
    requires slot < |s.clients| && IdsInOrder(s.clients, s.nextId)
    ensures forall c: Connection :: c.info.clientId != s.clients[slot].info.clientId ==>
              (c in Marked(s.clients, slot, flags) <==> c in s.clients)
  {
    var marked := Marked(s.clients, slot, flags);
    forall c: Connection | c.info.clientId != s.clients[slot].info.clientId
      ensures c in marked <==> c in s.clients
    {
      if c in s.clients {
        var k :| 0 <= k < |s.clients| && s.clients[k] == c;
        assert marked[k] == c;
      }
    }
  }

  lemma RequestsAreRefused(m: Machine, event: Event)
    requires Coherent(m) && m.activity != Idle && event in {SshOpenFront, SshOpenBack, SshClose}
    ensures Next(m, event) == m && Signals(m, event) == [CannotHandleRequest]
  {
  }

  // ---- Over whole runs ----

  predicate IsClient(b: Connection, c: Connection) {
    b.info.clientId == c.info.clientId && b.fd == c.fd
  }

  /** The client is connected, by its id and its socket. */
  ghost predicate IsConnected(d: Daemon, c: Connection) {
    exists b <- d.state.clients :: IsClient(b, c)
  }

  ghost predicate ConnectedThroughout(trace: seq<Daemon>, i: nat, j: nat, c: Connection)
    requires j < |trace|
  {
    forall k :: i <= k <= j ==> IsConnected(trace[k], c)
  }

  /** Flags are never taken back, and the log stays on. */
  lemma FlagsStay(d: Daemon, a: Action, b: Connection, c: Connection)
    requires Inv(d) && Enabled(d, a) && b in d.state.clients && c in Do(d, a).state.clients
    requires b.info.clientId == c.info.clientId
    ensures b.fd == c.fd && b.info.flags <= c.info.flags && (b.info.forwardLogs ==> c.info.forwardLogs)
  {
    var s := d.state;
    match a
    case NextSignal =>
      HandleIsExact(s.(ring := s.ring[1..]), s.ring[0]);
      SameIdSameClient(s.clients, b, c);
    case FromClient(slot, request) => FlagsStayWhenServed(s, slot, request, b, c);
    case Connect(_, _) =>
      if c in s.clients {
        SameIdSameClient(s.clients, b, c);
      }
    case _ => SameIdSameClient(s.clients, b, c);
  }

  lemma FlagsStayWhenServed(s: State, slot: nat, request: Request, b: Connection, c: Connection)
    requires slot < |s.clients| && |s.ring| <= MAX_ITEMS && IdsInOrder(s.clients, s.nextId)
    requires b in s.clients && c in Serve(s, slot, request).clients && b.info.clientId == c.info.clientId
    ensures b.fd == c.fd && b.info.flags <= c.info.flags && (b.info.forwardLogs ==> c.info.forwardLogs)
  {
    var flags := if request.Close? then CLOSE_FLAGS else OPEN_FLAGS;
    var marked := Marked(s.clients, slot, flags);
    MarkingKeepsIds(s.clients, slot, flags, s.nextId);
    RemovalKeepsIdsInOrder(s.clients, slot, s.nextId);
    RemovalKeepsIdsInOrder(marked, slot, s.nextId);
    assert s.clients[slot] in s.clients && marked[slot] in marked;
    if c in s.clients {
      SameIdSameClient(s.clients, b, c);
    } else {
      assert c == marked[slot];
      SameIdSameClient(s.clients, b, s.clients[slot]);
    }
  }

  /** The flags a request puts on its client. */
  function FlagsOf(request: Request): set<DisconnectFlag> {
    match request
    case Close => {OnLocked, OnNoChange, OnError}
    case OpenFront(_) => {OnOpen, OnNoChange, OnError}
    case OpenBack(_) => {OnOpen, OnNoChange, OnError}
    case _ => {}
  }

  predicate IsAsking(request: Request) {
    request.Close? || IsOpening(request)
  }

  /** The client carries what a request has put on it. */
  predicate IsMarked(b: Connection, request: Request) {
    FlagsOf(request) <= b.info.flags && b.info.forwardLogs
  }

  lemma AskingMarks(d: Daemon, slot: nat, request: Request, b: Connection)
    requires Inv(d) && Enabled(d, FromClient(slot, request)) && IsAsking(request)
    requires b in Do(d, FromClient(slot, request)).state.clients && IsClient(b, d.state.clients[slot])
    ensures IsMarked(b, request)
  {
    var s := d.state;
    var flags := if request.Close? then CLOSE_FLAGS else OPEN_FLAGS;
    var marked := Marked(s.clients, slot, flags);
    MarkingKeepsIds(s.clients, slot, flags, s.nextId);
    RemovalKeepsIdsInOrder(marked, slot, s.nextId);
    assert marked[slot] in marked && b in marked;
    SameIdSameClient(marked, b, marked[slot]);
  }

  lemma MarksStay(d: Daemon, a: Action, d': Daemon, c: Connection, request: Request, b: Connection) returns (b': Connection)
    requires Reachable(d) && Leads(d, a, d') && IsConnected(d', c)
    requires b in d.state.clients && IsClient(b, c) && IsMarked(b, request)
    ensures b' in d'.state.clients && IsClient(b', c) && IsMarked(b', request)
  {
    ReachableKeepsInv(d);
    b' :| b' in d'.state.clients && IsClient(b', c);
    FlagsStay(d, a, b, b');
  }

  lemma FirstMark(d: Daemon, slot: nat, request: Request, d': Daemon) returns (b: Connection)
    requires Reachable(d) && Leads(d, FromClient(slot, request), d') && IsAsking(request)
    requires IsConnected(d', d.state.clients[slot])
    ensures b in d'.state.clients && IsClient(b, d.state.clients[slot]) && IsMarked(b, request)
  {
    ReachableKeepsInv(d);
    b :| b in d'.state.clients && IsClient(b, d.state.clients[slot]);
    AskingMarks(d, slot, request, b);
  }

  /** In state `i` of a run the client in a slot makes a request, and it stays connected up to
      state `j`. */
  ghost predicate AskedAndStayed(trace: seq<Daemon>, actions: seq<Action>, i: nat, slot: nat, request: Request, j: nat) {
    && IsRun(trace, actions) && i < j < |trace|
    && actions[i] == FromClient(slot, request) && IsAsking(request)
    && slot < |trace[i].state.clients|
    && ConnectedThroughout(trace, i, j, trace[i].state.clients[slot])
  }

  /** A client that has asked to close or to open carries the marks of it, and sees the log, as
      long as it stays connected. */
  lemma {:induction false} AskersAreMarked(trace: seq<Daemon>, actions: seq<Action>, i: nat, slot: nat, request: Request, j: nat)
    returns (b: Connection)
    requires AskedAndStayed(trace, actions, i, slot, request, j)
    ensures b in trace[j].state.clients && IsClient(b, trace[i].state.clients[slot]) && IsMarked(b, request)
    decreases j
  {
    if j == i + 1 {
      b := FirstMarkInRun(trace, actions, i, slot, request);
    } else {
      b := AskersAreMarked(trace, actions, i, slot, request, j - 1);
      assert IsConnected(trace[j], trace[i].state.clients[slot]);
      b := MarksStayInRun(trace, actions, j, trace[i].state.clients[slot], request, b);
    }
  }

  lemma FirstMarkInRun(trace: seq<Daemon>, actions: seq<Action>, i: nat, slot: nat, request: Request) returns (b: Connection)
    requires AskedAndStayed(trace, actions, i, slot, request, i + 1)
    ensures b in trace[i+1].state.clients && IsClient(b, trace[i].state.clients[slot]) && IsMarked(b, request)
  {
    RunStep(trace, actions, i);
    b := FirstMark(trace[i], slot, request, trace[i+1]);
  }

  lemma MarksStayInRun(trace: seq<Daemon>, actions: seq<Action>, j: nat, c: Connection, request: Request, b: Connection)
    returns (b': Connection)
    requires IsRun(trace, actions) && 0 < j < |trace| && IsConnected(trace[j], c)
    requires b in trace[j-1].state.clients && IsClient(b, c) && IsMarked(b, request)
    ensures b' in trace[j].state.clients && IsClient(b', c) && IsMarked(b', request)
  {
    RunStepTo(trace, actions, j);
    b' := MarksStay(trace[j-1], actions[j-1], trace[j], c, request, b);
  }

  /** Nobody who asked to close is left hanging: in every run without loss a client that sent a
      request to close and has been connected ever since finds the daemon busy, or with signals
      still to be handled. */
  lemma WhoeverAskedToCloseIsServed(trace: seq<Daemon>, actions: seq<Action>, i: nat, slot: nat, j: nat)
    requires AskedAndStayed(trace, actions, i, slot, Close, j) && !trace[j].state.dropped
    ensures trace[j].state.machine.activity != Idle || trace[j].state.ring != []
  {
    var b := AskersAreMarked(trace, actions, i, slot, Close, j);
    assert OnLocked in FlagsOf(Close);
    RunBeginning(trace, actions, j);
    if trace[j].state.machine.activity == Idle && trace[j].state.ring == [] {
      NoCloserIsLeftHanging(trace[j]);
    }
  }

  /** Right after its own request an opener is served. */
  lemma OwnRequestIsServed(d: Daemon, slot: nat, request: Request, c: Connection)
    requires Inv(d) && Enabled(d, FromClient(slot, request)) && IsOpening(request)
    requires var d' := Do(d, FromClient(slot, request)); !d'.state.dropped && c in d'.state.clients
    requires IsClient(c, d.state.clients[slot])
    ensures IsServed(Do(d, FromClient(slot, request)).state, c)
  {
    var s := d.state;
    var s' := s.(clients := Marked(s.clients, slot, OPEN_FLAGS));
    MarkingKeepsIds(s.clients, slot, OPEN_FLAGS, s.nextId);
    AskingMarks(d, slot, request, c);
    if HasMemberData(request.member) {
      ApplyKeepsOpenerServed(s', Asked(request).value, Client(s.clients[slot].info.clientId), c);
    } else {
      RemovedHasLeft(s', slot);
    }
  }

  /** A client that sent a request to open and has been connected ever since is not served only
      if an event has completed the locking of the shack since its request. */
  lemma {:induction false} UnservedSinceRequest(trace: seq<Daemon>, actions: seq<Action>, i: nat, slot: nat, request: Request,
                                                j: nat, c: Connection)
    returns (k: nat)
    requires AskedAndStayed(trace, actions, i, slot, request, j) && IsOpening(request) && !trace[j].state.dropped
    requires c in trace[j].state.clients && IsClient(c, trace[i].state.clients[slot])
    requires AskedToOpen(c) && !IsServed(trace[j].state, c)
    ensures i < k < j && Completes(trace[k], actions[k])
    decreases j
  {
    if j == i + 1 {
      RequestsServeTheirClient(trace, actions, i, slot, request, c);
      k := i;
    } else {
      var b := OneStepBackInRun(trace, actions, j, c);
      if Completes(trace[j-1], actions[j-1]) {
        k := j - 1;
      } else {
        k := UnservedSinceRequest(trace, actions, i, slot, request, j - 1, b);
      }
    }
  }

  lemma RequestsServeTheirClient(trace: seq<Daemon>, actions: seq<Action>, i: nat, slot: nat, request: Request, c: Connection)
    requires AskedAndStayed(trace, actions, i, slot, request, i + 1) && IsOpening(request) && !trace[i+1].state.dropped
    requires c in trace[i+1].state.clients && IsClient(c, trace[i].state.clients[slot])
    ensures IsServed(trace[i+1].state, c)
  {
    RunStep(trace, actions, i);
    ReachableKeepsInv(trace[i]);
    OwnRequestIsServed(trace[i], slot, request, c);
  }

  /** In every run without loss a client that sent a request to open and has been connected ever
      since finds the daemon busy, or with signals still to be handled, unless an event has
      completed the locking of the shack since its request. */
  lemma WhoeverAskedToOpenIsServed(trace: seq<Daemon>, actions: seq<Action>, i: nat, slot: nat, request: Request, j: nat)
    requires AskedAndStayed(trace, actions, i, slot, request, j) && IsOpening(request) && !trace[j].state.dropped
    ensures trace[j].state.machine.activity != Idle || trace[j].state.ring != []
            || exists k :: i < k < j && Completes(trace[k], actions[k])
  {
    if trace[j].state.machine.activity == Idle && trace[j].state.ring == [] {
      var b := AskersAreMarked(trace, actions, i, slot, request, j);
      assert OnOpen in FlagsOf(request);
      var k := UnservedSinceRequest(trace, actions, i, slot, request, j, b);
    }
  }
}
