/** How the daemon's commands reach the door controllers: which bit a message sets in the
    controller of which door. */
module DoorCommands {
  import opened PortalMachine
  import opened PortalRuns
  import opened Topics
  import opened DaemonLemmas
  import opened DoorController

  const NOTHING := Bits(false, false, false, false)

  function NameOf(door: Door): string {
    if door == B2 then NAME_B2 else NAME_C2
  }

  /** What a message from the broker does to the event bits of the controller with this name. */
  function Receive(name: string, bits: Bits, message: Message): Bits {
    if message.payload != name then bits
    else if message.topic == ACTION_OPEN_DOOR_SAFE then bits.(openSafe := true)
    else if message.topic == ACTION_OPEN_DOOR_UNSAFE then bits.(openUnsafe := true)
    else if message.topic == ACTION_LOCK_DOOR then bits.(close := true)
    else bits
  }

  function ReceiveAll(name: string, bits: Bits, messages: seq<Message>): Bits
    decreases |messages|
  {
    if messages == [] then bits else ReceiveAll(name, Receive(name, bits, messages[0]), messages[1..])
  }

  lemma NamesDiffer()
    ensures NAME_B2 != NAME_C2 && NAME_B !in {NAME_B2, NAME_C2} && NAME_C !in {NAME_B2, NAME_C2}
  {
    assert NAME_B2[5] == 'b' && NAME_C2[5] == 'c';
    assert |NAME_B| == 6 && |NAME_C| == 6 && |NAME_B2| == 7 && |NAME_C2| == 7;
  }

  lemma ActionsDiffer()
    ensures ACTION_OPEN_DOOR_SAFE != ACTION_OPEN_DOOR_UNSAFE
    ensures ACTION_LOCK_DOOR !in {ACTION_OPEN_DOOR_SAFE, ACTION_OPEN_DOOR_UNSAFE}
  {
    var n := |PREFIX| + 12;
    assert ACTION_OPEN_DOOR_SAFE[n] == 'o' && ACTION_OPEN_DOOR_UNSAFE[n] == 'o' && ACTION_LOCK_DOOR[n] == 'l';
    assert ACTION_OPEN_DOOR_SAFE[n + 5] == 's' && ACTION_OPEN_DOOR_UNSAFE[n + 5] == 'u';
  }

  /** The commands of a signal reach the controller they are meant for, as the order they are
      meant to be, and no other: a safe opening of a door sets the safe bit of its controller,
      an unsafe one the unsafe bit, the locking of all doors the close bits of both; the doors
      of the building concern neither. */
  lemma CommandsReachTheirDoor(signal: Signal, door: Door)
    ensures var bits := ReceiveAll(NameOf(door), NOTHING, Commands(signal));
            && (bits.openSafe <==> signal == SafeOpening(door))
            && (bits.openUnsafe <==> signal == UnsafeOpening(door))
            && (bits.close <==> signal == LockAll)
            && !bits.timeout
  {
    var name := NameOf(door);
    match signal {
      case LockAll =>
        TwoReceived(name, NOTHING, Message(ACTION_LOCK_DOOR, NAME_C2), Message(ACTION_LOCK_DOOR, NAME_B2));
      case OpenDoorB => OneReceived(name, NOTHING, Message(ACTION_OPEN_DOOR_UNSAFE, NAME_B));
      case OpenDoorC => OneReceived(name, NOTHING, Message(ACTION_OPEN_DOOR_UNSAFE, NAME_C));
      case OpenDoorB2Safe => OneReceived(name, NOTHING, Message(ACTION_OPEN_DOOR_SAFE, NAME_B2));
      case OpenDoorC2Safe => OneReceived(name, NOTHING, Message(ACTION_OPEN_DOOR_SAFE, NAME_C2));
      case OpenDoorB2Unsafe => OneReceived(name, NOTHING, Message(ACTION_OPEN_DOOR_UNSAFE, NAME_B2));
      case OpenDoorC2Unsafe => OneReceived(name, NOTHING, Message(ACTION_OPEN_DOOR_UNSAFE, NAME_C2));
      case _ =>
    }
    NamesDiffer();
    ActionsDiffer();
  }

  lemma OneReceived(name: string, bits: Bits, message: Message)
    ensures ReceiveAll(name, bits, [message]) == Receive(name, bits, message)
  {
    assert [message][1..] == [];
  }

  lemma TwoReceived(name: string, bits: Bits, first: Message, second: Message)
    ensures ReceiveAll(name, bits, [first, second]) == Receive(name, Receive(name, bits, first), second)
  {
    assert [first, second][1..] == [second];
    OneReceived(name, Receive(name, bits, first), second);
  }
}
