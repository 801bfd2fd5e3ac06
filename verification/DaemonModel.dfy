/** The daemon as a whole, as values: state machine, ring buffer, client table and timer,
    and what each turn of the main loop does to them. */
module DaemonModel {
  import opened PortalMachine
  import opened PortalStateMachine
  import opened SignalRing
  import opened ClientTable
  import opened Topics

  /** The one-shot timer of the state machine: disarmed, running, or expired but unread. */
  datatype Timer = Disarmed | Armed | Fired

  datatype State = State(
    machine: Machine,
    ring: seq<Entry>,
    clients: seq<Connection>,
    nextId: ClientId,
    timer: Timer,
    online: bool,           // connected to the MQTT broker
    accepts: nat -> bool,   // which attempts to publish the MQTT library accepts
    tries: nat,             // how many there were
    sent: seq<Message>,     // everything published so far
    dropped: bool)          // whether a signal was ever refused by a full ring

  // ---- Applying events ----

  function Apply(s: State, event: Event, context: Context): State
    requires |s.ring| <= MAX_ITEMS
  {
    var entries := Tagged(Signals(s.machine, event), IdOf(context));
    s.(machine := Next(s.machine, event),
       ring := EnqueueAll(s.ring, entries),
       dropped := s.dropped || |s.ring| + |entries| > MAX_ITEMS)
  }

  /** Handles a message from the broker. */
  function Receive(s: State, message: Message): State
    requires |s.ring| <= MAX_ITEMS
  {
    match Decode(message)
    case Some(event) => Apply(s, event, NoContext)
    case None => s
  }

  // ---- Handling queued signals ----

  /** Whether an attempt to publish succeeds now. */
  predicate CanPublish(s: State) {
    s.online && s.accepts(s.tries)
  }

  function Publish(s: State, topic: string, payload: string): State {
    if !s.online then s
    else s.(tries := s.tries + 1, sent := if s.accepts(s.tries) then s.sent + [Message(topic, payload)] else s.sent)
  }

  /** Commands both doors to lock; the second only if the first was published. */
  function PublishLocking(s: State): State {
    var first := Publish(s, ACTION_LOCK_DOOR, NAME_C2);
    if CanPublish(s) then Publish(first, ACTION_LOCK_DOOR, NAME_B2) else first
  }

  /** The slot of the first client with an id, or the number of clients. */
  function IndexOf(clients: seq<Connection>, id: ClientId): (i: nat)
    ensures i <= |clients|
    ensures i < |clients| ==> clients[i].info.clientId == id
    ensures forall k :: 0 <= k < i ==> clients[k].info.clientId != id
  {
    if clients == [] then 0
    else if clients[0].info.clientId == id then 0
    else 1 + IndexOf(clients[1..], id)
  }

  function Disconnect(s: State, flags: set<DisconnectFlag>): State {
    s.(clients := Sweep(s.clients, 0, flags))
  }

  function Dismiss(s: State, id: ClientId): State {
    var i := IndexOf(s.clients, id);
    if i < |s.clients| then s.(clients := SwapRemove(s.clients, i)) else s
  }

  /** What the main loop does with one queued signal. */
  function Handle(s: State, entry: Entry): (handled: State)
    ensures handled.ring == s.ring
  {
    match entry.signal
    case OpenDoorB => Publish(s, ACTION_OPEN_DOOR_UNSAFE, NAME_B)
    case OpenDoorC => Publish(s, ACTION_OPEN_DOOR_UNSAFE, NAME_C)
    case OpenDoorB2Safe => Publish(s, ACTION_OPEN_DOOR_SAFE, NAME_B2)
    case OpenDoorC2Safe => Publish(s, ACTION_OPEN_DOOR_SAFE, NAME_C2)
    case OpenDoorB2Unsafe => Publish(s, ACTION_OPEN_DOOR_UNSAFE, NAME_B2)
    case OpenDoorC2Unsafe => Publish(s, ACTION_OPEN_DOOR_UNSAFE, NAME_C2)
    case LockAll => PublishLocking(s)
    case LockSuccessful => Disconnect(s, {OnLocked})
    case OpenSuccessful => Disconnect(s, {OnOpen})
    case ChangeKeyholder => Disconnect(s, {OnOpen})
    case NoStateChange => Disconnect(s, {OnNoChange})
    case UserRequestedTimedOut => Disconnect(s, {OnError})
    case CannotHandleRequest => Dismiss(s, entry.clientId)
    case StartTimeout => s.(timer := Armed)
    case CancelTimeout => s.(timer := Disarmed)
    case _ => s
  }

  function HandleNext(s: State): State
    requires s.ring != []
  {
    Handle(s.(ring := s.ring[1..]), s.ring[0])
  }

  /** The state once every queued signal was handled. */
  function Drain(s: State): (drained: State)
    ensures drained.ring == []
    decreases |s.ring|
  {
    if s.ring == [] then s else Drain(HandleNext(s))
  }

  // ---- Clients ----

  datatype Member = Member(id: int, nick: string, name: string)

  predicate HasMemberData(member: Member) {
    member.nick != "" && member.name != "" && member.id > 0
  }

  datatype Request =
    | OpenFront(member: Member)
    | OpenBack(member: Member)
    | Close
    | ForceOpen
    | SystemReset
    | Shutdown
    | QueryStatus
    | SimpleStatus
    | Garbage     // a message of unknown type
    | HangUp      // end of file or a socket error

  const OPEN_FLAGS := {OnOpen, OnNoChange, OnError}
  const CLOSE_FLAGS := {OnLocked, OnNoChange, OnError}

  function Accept(s: State, fd: int, nextId: ClientId): State {
    if |s.clients| + FIRST_IPC == LIMIT then s
    else s.(clients := s.clients + [Connection(fd, ClientInfo(s.nextId, {}, false))], nextId := nextId)
  }

  function Remove(s: State, i: nat): State
    requires i < |s.clients|
  {
    s.(clients := SwapRemove(s.clients, i))
  }

  function AskToOpen(s: State, i: nat, member: Member, event: Event): State
    requires i < |s.clients| && |s.ring| <= MAX_ITEMS
  {
    var marked := s.(clients := Marked(s.clients, i, OPEN_FLAGS));
    if HasMemberData(member) then Apply(marked, event, Client(s.clients[i].info.clientId))
    else Remove(marked, i)
  }

  /** Handles a message from the client in slot `i`. */
  function Serve(s: State, i: nat, request: Request): State
    requires i < |s.clients| && |s.ring| <= MAX_ITEMS
  {
    match request
    case OpenFront(member) => AskToOpen(s, i, member, SshOpenFront)
    case OpenBack(member) => AskToOpen(s, i, member, SshOpenBack)
    case Close =>
      Apply(s.(clients := Marked(s.clients, i, CLOSE_FLAGS)), SshClose, Client(s.clients[i].info.clientId))
    case ForceOpen =>
      var b := Publish(s, ACTION_OPEN_DOOR_UNSAFE, NAME_B);
      var b2 := Publish(b, ACTION_OPEN_DOOR_UNSAFE, NAME_B2);
      var c := Publish(b2, ACTION_OPEN_DOOR_UNSAFE, NAME_C);
      Remove(Publish(c, ACTION_OPEN_DOOR_UNSAFE, NAME_C2), i)
    case SystemReset => Remove(Publish(s, ACTION_RESET, "*"), i)
    case _ => Remove(s, i)
  }

  // ---- The timer ----

  function Expire(s: State): State {
    if s.timer == Armed then s.(timer := Fired) else s
  }

  function ReadTimer(s: State): State
    requires |s.ring| <= MAX_ITEMS
  {
    Apply(s.(timer := Disarmed), Timeout, NoContext)
  }
}
