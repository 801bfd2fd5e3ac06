/** What the single transitions of the daemon do to its clients, its timer and its ring:
    the facts from which the theorems about whole runs are built. */
module DaemonLemmas {
  import opened PortalMachine
  import opened SignalRing
  import opened ClientTable
  import opened DaemonModel
  import opened Topics

  // ---- What the state machine always says ----

  lemma CloseIsAnswered(m: Machine)
    ensures var s := Signals(m, SshClose);
            CannotHandleRequest in s || NoStateChange in s || Next(m, SshClose).activity == WaitForLocked
  {
    var shack := ShackState(m);
    assert m.activity == Idle ==> shack == ShackLocked ==> NoStateChange in IdleReply(SshClose, shack).1;
  }

  lemma EndOfLockingIsSignalled(m: Machine, e: Event)
    requires m.activity == WaitForLocked != Next(m, e).activity
    ensures UserRequestedTimedOut in Signals(m, e) || LockSuccessful in Signals(m, e)
  {
  }

  /** Whoever ends a step busy has not cancelled the timeout, and has asked for one if the
      step began idle. */
  lemma StepTimers(m: Machine, e: Event)
    ensures Next(m, e).activity != Idle ==>
              CancelTimeout !in Signals(m, e) && (m.activity == Idle ==> StartTimeout in Signals(m, e))
  {
  }

  // ---- The timer ----

  function TimerEffect(timer: Timer, signal: Signal): Timer {
    match signal
    case StartTimeout => Armed
    case CancelTimeout => Disarmed
    case _ => timer
  }

  /** The timer once the queued signals have been handled. */
  function TimerAfter(timer: Timer, entries: seq<Entry>): Timer
    decreases |entries|
  {
    if entries == [] then timer else TimerAfter(TimerEffect(timer, entries[0].signal), entries[1..])
  }

  lemma {:induction false} TimerAfterConcat(timer: Timer, a: seq<Entry>, b: seq<Entry>)
    ensures TimerAfter(timer, a + b) == TimerAfter(TimerAfter(timer, a), b)
    decreases |a|
  {
    if a == [] {
      assert a + b == b;
    } else {
      assert (a + b)[1..] == a[1..] + b;
      TimerAfterConcat(TimerEffect(timer, a[0].signal), a[1..], b);
    }
  }

  lemma {:induction false} TimerKeepsRunning(timer: Timer, entries: seq<Entry>)
    requires forall e <- entries :: e.signal != CancelTimeout
    requires timer != Disarmed || exists e <- entries :: e.signal == StartTimeout
    ensures TimerAfter(timer, entries) != Disarmed
    decreases |entries|
  {
    if entries != [] {
      TimerKeepsRunning(TimerEffect(timer, entries[0].signal), entries[1..]);
    }
  }

  lemma {:induction false} ExpiryLosesNoTimer(entries: seq<Entry>)
    ensures TimerAfter(Armed, entries) != Disarmed ==> TimerAfter(Fired, entries) != Disarmed
  {
    if entries != [] {
      ExpiryLosesNoTimer(entries[1..]);
    }
  }

  lemma {:induction false} HandlingFiresNoTimer(timer: Timer, entries: seq<Entry>)
    requires timer != Fired
    ensures TimerAfter(timer, entries) != Fired
    decreases |entries|
  {
    if entries != [] {
      HandlingFiresNoTimer(TimerEffect(timer, entries[0].signal), entries[1..]);
    }
  }

  // ---- The clients ----

  /** Handling the entry disconnects this client. */
  predicate Dismisses(entry: Entry, c: Connection) {
    match entry.signal
    case LockSuccessful => OnLocked in c.info.flags
    case OpenSuccessful => OnOpen in c.info.flags
    case ChangeKeyholder => OnOpen in c.info.flags
    case NoStateChange => OnNoChange in c.info.flags
    case UserRequestedTimedOut => OnError in c.info.flags
    case CannotHandleRequest => entry.clientId == c.info.clientId
    case _ => false
  }

  lemma DisconnectIsExact(s: State, flag: DisconnectFlag)
    requires IdsInOrder(s.clients, s.nextId)
    ensures IdsInOrder(Disconnect(s, {flag}).clients, s.nextId)
    ensures forall c :: c in Disconnect(s, {flag}).clients <==> c in s.clients && flag !in c.info.flags
  {
    SweepKeepsIdsInOrder(s.clients, 0, {flag}, s.nextId);
    SweepMembers(s.clients, {flag});
    forall c: Connection
      ensures Hit(c, {flag}) <==> flag in c.info.flags
    {
      if flag in c.info.flags {
        assert flag in c.info.flags * {flag};
      } else {
        assert c.info.flags * {flag} == {};
      }
    }
  }

  lemma DismissIsExact(s: State, id: ClientId)
    requires IdsInOrder(s.clients, s.nextId)
    ensures IdsInOrder(Dismiss(s, id).clients, s.nextId)
    ensures forall c :: c in Dismiss(s, id).clients <==> c in s.clients && c.info.clientId != id
  {
    var i := IndexOf(s.clients, id);
    if i < |s.clients| {
      RemovalKeepsIdsInOrder(s.clients, i, s.nextId);
    }
  }

  lemma HandleTouches(s: State, entry: Entry)
    ensures var h := Handle(s, entry);
            && h.ring == s.ring && h.machine == s.machine && h.nextId == s.nextId
            && h.dropped == s.dropped && h.online == s.online
            && h.timer == TimerEffect(s.timer, entry.signal)
  {
  }

  /** Handling an entry disconnects exactly the clients it dismisses. */
  lemma HandleIsExact(s: State, entry: Entry)
    requires IdsInOrder(s.clients, s.nextId)
    ensures IdsInOrder(Handle(s, entry).clients, s.nextId)
    ensures forall c :: c in Handle(s, entry).clients <==> c in s.clients && !Dismisses(entry, c)
  {
    match entry.signal
    case LockSuccessful => DisconnectIsExact(s, OnLocked);
    case OpenSuccessful => DisconnectIsExact(s, OnOpen);
    case ChangeKeyholder => DisconnectIsExact(s, OnOpen);
    case NoStateChange => DisconnectIsExact(s, OnNoChange);
    case UserRequestedTimedOut => DisconnectIsExact(s, OnError);
    case CannotHandleRequest => DismissIsExact(s, entry.clientId);
    case _ =>
  }

  /** Draining the ring handles every entry: exactly the dismissed clients are gone, the
      timer has followed all requests, and nothing else of the daemon has changed. */
  lemma {:induction false} DrainIsExact(s: State)
    requires IdsInOrder(s.clients, s.nextId)
    ensures var d := Drain(s);
            && d.ring == [] && d.machine == s.machine && d.nextId == s.nextId && d.dropped == s.dropped
            && d.timer == TimerAfter(s.timer, s.ring)
            && IdsInOrder(d.clients, d.nextId)
            && forall c :: c in d.clients <==> c in s.clients && forall e <- s.ring :: !Dismisses(e, c)
    decreases |s.ring|
  {
    if s.ring != [] {
      HandleTouches(s.(ring := s.ring[1..]), s.ring[0]);
      HandleIsExact(s.(ring := s.ring[1..]), s.ring[0]);
      DrainIsExact(HandleNext(s));
      assert s.ring == [s.ring[0]] + s.ring[1..];
    }
  }

  // ---- The broker ----

  /** The commands a signal stands for, in the order in which they are sent. */
  function Commands(signal: Signal): seq<Message> {
    match signal
    case OpenDoorB => [Message(ACTION_OPEN_DOOR_UNSAFE, NAME_B)]
    case OpenDoorC => [Message(ACTION_OPEN_DOOR_UNSAFE, NAME_C)]
    case OpenDoorB2Safe => [Message(ACTION_OPEN_DOOR_SAFE, NAME_B2)]
    case OpenDoorC2Safe => [Message(ACTION_OPEN_DOOR_SAFE, NAME_C2)]
    case OpenDoorB2Unsafe => [Message(ACTION_OPEN_DOOR_UNSAFE, NAME_B2)]
    case OpenDoorC2Unsafe => [Message(ACTION_OPEN_DOOR_UNSAFE, NAME_C2)]
    case LockAll =>
      [Message(ACTION_LOCK_DOOR, NAME_C2), Message(ACTION_LOCK_DOOR, NAME_B2)]
    case _ => []
  }

  function AllCommands(entries: seq<Entry>): seq<Message> {
    if entries == [] then [] else Commands(entries[0].signal) + AllCommands(entries[1..])
  }

  /** How many of `n` commands in a row are published: each one only after the one before. */
  function Published(s: State, n: nat): nat
    requires n <= 2
  {
    if n == 0 || !CanPublish(s) then 0
    else if n == 1 || !s.accepts(s.tries + 1) then 1
    else 2
  }

  /** Handling a signal publishes its commands up to the first that fails. */
  lemma HandleSendsCommands(s: State, entry: Entry)
    ensures var commands := Commands(entry.signal);
            Handle(s, entry).sent == s.sent + commands[..Published(s, |commands|)]
    ensures var h := Handle(s, entry);
            h.online == s.online && h.accepts == s.accepts && h.tries >= s.tries
  {
    if entry.signal == LockAll {
      assert s.sent + Commands(LockAll) == (s.sent + [Commands(LockAll)[0]]) + [Commands(LockAll)[1]];
    }
  }

  /** The daemon receives its own commands back from the broker, and takes none of them for
      an event. */
  lemma OwnCommandsAreIgnored(s: State, signal: Signal, command: Message)
    requires command in Commands(signal) && |s.ring| <= MAX_ITEMS
    ensures Receive(s, command) == s
  {
    ActionsAreNoEvents(command.topic, command.payload);
  }

  /** `part` consists of some of the elements of `whole`, in the same order. */
  ghost predicate IsSubsequence(part: seq<Message>, whole: seq<Message>)
    decreases |whole|
  {
    part == [] ||
    (whole != [] && (IsSubsequence(part, whole[1..]) || (part[0] == whole[0] && IsSubsequence(part[1..], whole[1..]))))
  }

  lemma {:induction false} PrefixesJoin(first: seq<Message>, n: nat, part: seq<Message>, whole: seq<Message>)
    requires n <= |first| && IsSubsequence(part, whole)
    ensures IsSubsequence(first[..n] + part, first + whole)
    decreases |first|
  {
    if first == [] {
      assert first[..n] + part == part && first + whole == whole;
    } else if n == 0 {
      assert first[..0] + part == part && (first + whole)[1..] == first[1..] + whole;
      PrefixesJoin(first[1..], 0, part, whole);
      assert first[1..][..0] + part == part;
    } else {
      var joined := first[..n] + part;
      assert (first + whole)[1..] == first[1..] + whole;
      assert joined[1..] == first[1..][..n-1] + part;
      PrefixesJoin(first[1..], n - 1, part, whole);
    }
  }

  ghost predicate AllAreAccepted(s: State) {
    s.online && forall i :: i >= s.tries ==> s.accepts(i)
  }

  /** What handling the oldest entry publishes. */
  lemma HandleNextSends(s: State) returns (sent: seq<Message>)
    requires s.ring != []
    ensures var commands, h := Commands(s.ring[0].signal), HandleNext(s);
            && |sent| <= |commands| && sent == commands[..|sent|]
            && h.sent == s.sent + sent
            && (h.online == s.online && (AllAreAccepted(s) ==> AllAreAccepted(h)))
            && (AllAreAccepted(s) ==> sent == commands)
            && (!s.online ==> sent == [])
  {
    var rest := s.(ring := s.ring[1..]);
    var commands := Commands(s.ring[0].signal);
    HandleSendsCommands(rest, s.ring[0]);
    sent := commands[..Published(rest, |commands|)];
  }

  lemma SendingsJoin(before: seq<Message>, between: seq<Message>, after: seq<Message>,
                     first: seq<Message>, later: seq<Message>, commands: seq<Message>, rest: seq<Message>)
    returns (sent: seq<Message>)
    requires between == before + first && after == between + later
    requires |first| <= |commands| && first == commands[..|first|] && IsSubsequence(later, rest)
    ensures sent == first + later && after == before + sent && IsSubsequence(sent, commands + rest)
  {
    sent := first + later;
    PrefixesJoin(commands, |first|, later, rest);
  }

  /** What draining publishes is taken from the commands queued, in their order and each at
      most once: all of them if the broker is connected and every attempt succeeds, none if
      it is not connected. */
  lemma {:induction false} DrainSendsCommands(s: State) returns (sent: seq<Message>)
    ensures Drain(s).sent == s.sent + sent && IsSubsequence(sent, AllCommands(s.ring))
    ensures Drain(s).online == s.online
    ensures AllAreAccepted(s) ==> sent == AllCommands(s.ring)
    ensures !s.online ==> sent == []
    decreases |s.ring|
  {
    if s.ring == [] {
      sent := [];
    } else {
      var first := HandleNextSends(s);
      var h := HandleNext(s);
      var later := DrainSendsCommands(h);
      sent := SendingsJoin(s.sent, h.sent, Drain(h).sent, first, later, Commands(s.ring[0].signal), AllCommands(h.ring));
    }
  }
}
