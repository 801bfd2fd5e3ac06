/** The daemon as the program runs it: state machine, ring buffer and client table are
    objects updated in place, and each method does exactly what module DaemonModel says. */
module PortalDaemon {
  import opened PortalMachine
  import opened PortalStateMachine
  import opened SignalRing
  import opened ClientTable
  import opened DaemonModel
  import opened Topics

  lemma FoundIndexIsFirst(s: seq<Connection>, k: nat)
    requires k < |s| && DistinctIds(s)
    ensures IndexOf(s, s[k].info.clientId) == k
  {
  }

  lemma MissingIdHasNoIndex(s: seq<Connection>, id: ClientId)
    requires id !in Ids(s)
    ensures IndexOf(s, id) == |s|
  {
    assert forall k | 0 <= k < |s| :: s[k] in s;
  }

  class PortalDaemon {
    const ring: Ring
    const machine: StateMachine
    const table: Table
    var timer: Timer
    var online: bool
    const accepts: nat -> bool   // which attempts to publish the MQTT library accepts
    var tries: nat
    var sent: seq<Message>
    ghost var dropped: bool

    ghost const Repr: set<object>

    ghost predicate Valid()
      reads this, Repr
    {
      && Repr == {ring, ring.signals, ring.clientIds, machine, table, table.fds, table.infos}
      && ring.clientIds as object != table.fds
      && machine.ring == ring
      && ring.Valid() && table.Valid()
    }

    ghost function Value(): State
      reads this, ring, machine, table
    {
      State(machine.Value(), ring.contents, table.connections, table.nextId, timer, online, accepts, tries, sent, dropped)
    }

    constructor (accepts: nat -> bool)
      ensures Valid() && fresh(Repr)
      ensures Value() == State(Initial, [], [], 0, Disarmed, false, accepts, 0, [], false)
    {
      var ring := new Ring();
      var machine := new StateMachine(ring);
      var table := new Table();
      this.ring, this.machine, this.table := ring, machine, table;
      this.accepts := accepts;
      timer, online, tries, sent, dropped := Disarmed, false, 0, [], false;
      Repr := {ring, ring.signals, ring.clientIds, machine, table, table.fds, table.infos};
    }

    /** Applies an event to the state machine, which queues its signals. */
    method ApplyEvent(event: Event, context: Context)
      requires Valid()
      modifies this, Repr
      ensures Valid() && Value() == Apply(old(Value()), event, context)
      ensures unchanged(table)
    {
      ghost var signals := Signals(machine.Value(), event);
      machine.ApplyEvent(event, context);
      dropped := dropped || |old(ring.contents)| + |Tagged(signals, IdOf(context))| > MAX_ITEMS;
    }

    /** Publishes one message, unless the broker is not connected or publishing fails. */
    method SendMessage(topic: string, payload: string) returns (ok: bool)
      requires Valid()
      modifies this`sent, this`tries
      ensures Valid() && Value() == Publish(old(Value()), topic, payload)
      ensures ok == old(CanPublish(Value()))
      ensures sent == if ok then old(sent) + [Message(topic, payload)] else old(sent)
    {
      if !online {
        return false;
      }
      ok := accepts(tries);
      tries := tries + 1;
      if ok {
        sent := sent + [Message(topic, payload)];
      }
    }

    /** Refuses the request of the client a signal names, if it is still connected. */
    method Refuse(clientId: ClientId)
      requires Valid()
      modifies this, Repr
      ensures Valid() && Value() == Dismiss(old(Value()), clientId)
    {
      var index := table.FindById(clientId);
      if index != INVALID_CLIENT {
        FoundIndexIsFirst(table.connections, index - FIRST_IPC);
        table.Remove(index);
      } else {
        MissingIdHasNoIndex(table.connections, clientId);
      }
    }

    /** The body of the drain loop: acts on one signal. */
    method HandleSignal(signal: Signal, clientId: ClientId)
      requires Valid()
      modifies this, Repr
      ensures Valid() && Value() == Handle(old(Value()), Entry(signal, clientId))
    {
      match signal
      case OpenDoorB => var _ := SendMessage(ACTION_OPEN_DOOR_UNSAFE, NAME_B);
      case OpenDoorC => var _ := SendMessage(ACTION_OPEN_DOOR_UNSAFE, NAME_C);
      case OpenDoorB2Safe => var _ := SendMessage(ACTION_OPEN_DOOR_SAFE, NAME_B2);
      case OpenDoorC2Safe => var _ := SendMessage(ACTION_OPEN_DOOR_SAFE, NAME_C2);
      case OpenDoorB2Unsafe => var _ := SendMessage(ACTION_OPEN_DOOR_UNSAFE, NAME_B2);
      case OpenDoorC2Unsafe => var _ := SendMessage(ACTION_OPEN_DOOR_UNSAFE, NAME_C2);
      case LockAll =>
        var ok := SendMessage(ACTION_LOCK_DOOR, NAME_C2);
        if ok {
          ok := SendMessage(ACTION_LOCK_DOOR, NAME_B2);
        }
      case UnlockSuccessful =>
      case LockSuccessful => table.RemoveAll({OnLocked});
      case OpenSuccessful => table.RemoveAll({OnOpen});
      case ChangeKeyholder => table.RemoveAll({OnOpen});
      case CannotHandleRequest => Refuse(clientId);
      case UnlockTimeout =>
      case StateChange =>
      case NoStateChange => table.RemoveAll({OnNoChange});
      case StartTimeout => timer := Armed;
      case CancelTimeout => timer := Disarmed;
      case UserRequestedTimedOut => table.RemoveAll({OnError});
    }

    /** Handles every queued signal. */
    method DrainSignals()
      requires Valid()
      modifies this, Repr
      ensures Valid() && Value() == Drain(old(Value()))
    {
      var more, signal, clientId := TakeSignal();
      while more
        invariant Valid()
        invariant Drain(old(Value())) ==
                  if more then Drain(Handle(Value(), Entry(signal, clientId))) else Value()
        decreases |ring.contents|, more
      {
        HandleSignal(signal, clientId);
        more, signal, clientId := TakeSignal();
      }
    }

    /** Takes the next signal from the ring, if there is one. */
    method TakeSignal() returns (more: bool, signal: Signal, clientId: ClientId)
      requires Valid()
      modifies ring
      ensures Valid() && more == (old(Value()).ring != [])
      ensures Drain(old(Value())) == if more then Drain(Handle(Value(), Entry(signal, clientId))) else Value()
      ensures more ==> |ring.contents| < |old(ring.contents)|
    {
      more, signal, clientId := ring.Pop();
      assert more ==> Value() == old(Value()).(ring := old(Value()).ring[1..]);
    }

    /** Handles a message from the broker. */
    method HandleMessage(message: Message)
      requires Valid()
      modifies this, Repr
      ensures Valid() && Value() == Receive(old(Value()), message)
    {
      match Decode(message)
      case Some(event) => ApplyEvent(event, NoContext);
      case None =>
    }

    /** Takes in a new client. */
    method AcceptClient(fd: int)
      requires Valid()
      modifies this, Repr
      ensures Valid() && Value() == Accept(old(Value()), fd, table.nextId)
      ensures |table.connections| > |old(table.connections)| ==>
        table.nextId !in {INVALID_CLIENT, old(table.nextId)}
        && forall c <- old(table.connections) :: c.info.clientId != table.nextId
    {
      var index := table.Add(fd);
      if index != INVALID_CLIENT {
        ghost var added := table.connections[|table.connections| - 1];
        assert added in table.connections && forall c <- old(table.connections) :: c in table.connections;
      }
    }

    method RemoveClient(index: nat)
      requires Valid() && FIRST_IPC <= index < table.size
      modifies this, Repr
      ensures Valid() && Value() == Remove(old(Value()), index - FIRST_IPC)
    {
      table.Remove(index);
    }

    /** Handles a request to open from the client in a slot. */
    method HandleOpen(index: nat, member: Member, event: Event)
      requires Valid() && FIRST_IPC <= index < table.size
      modifies this, Repr
      ensures Valid() && Value() == AskToOpen(old(Value()), index - FIRST_IPC, member, event)
    {
      table.Mark(index, OPEN_FLAGS);
      if member.nick == "" || member.name == "" || member.id <= 0 {
        RemoveClient(index);
        return;
      }
      assert table.connections[index - FIRST_IPC].info == table.infos[index];
      ApplyEvent(event, Client(table.infos[index].clientId));
    }

    /** Handles a message from the client in a slot, or its hanging up.  The daemon does not
        survive being asked to force the doors open or to reset the system without the broker:
        an assertion in the MQTT client fails. */
    method HandleRequest(index: nat, request: Request) returns (alive: bool)
      requires Valid() && FIRST_IPC <= index < table.size
      modifies this, Repr
      ensures Valid()
      ensures alive <==> (request in {ForceOpen, SystemReset} ==> old(online))
      ensures Value() == if alive then Serve(old(Value()), index - FIRST_IPC, request) else old(Value())
    {
      if request in {ForceOpen, SystemReset} && !online {
        return false;
      }
      alive := true;
      match request
      case OpenFront(member) => HandleOpen(index, member, SshOpenFront);
      case OpenBack(member) => HandleOpen(index, member, SshOpenBack);
      case Close =>
        table.Mark(index, CLOSE_FLAGS);
        assert table.connections[index - FIRST_IPC].info == table.infos[index];
        ApplyEvent(SshClose, Client(table.infos[index].clientId));
      case ForceOpen =>
        var _ := SendMessage(ACTION_OPEN_DOOR_UNSAFE, NAME_B);
        var _ := SendMessage(ACTION_OPEN_DOOR_UNSAFE, NAME_B2);
        var _ := SendMessage(ACTION_OPEN_DOOR_UNSAFE, NAME_C);
        var _ := SendMessage(ACTION_OPEN_DOOR_UNSAFE, NAME_C2);
        RemoveClient(index);
      case SystemReset =>
        var _ := SendMessage(ACTION_RESET, "*");
        RemoveClient(index);
      case _ => RemoveClient(index);
    }

    /** Reads the expired timer. */
    method HandleTimer()
      requires Valid() && timer == Fired
      modifies this, Repr
      ensures Valid() && Value() == ReadTimer(old(Value()))
    {
      timer := Disarmed;
      ApplyEvent(Timeout, NoContext);
    }
  }
}
