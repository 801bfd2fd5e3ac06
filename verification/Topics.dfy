/** The MQTT topics and payloads shared by the daemon and the door controllers. */
module Topics {
  import opened PortalMachine

  const PREFIX := "shackspace/portal/"

  const EVENT_DOORBELL := PREFIX + "event/doorbell"
  const EVENT_BUTTON := PREFIX + "event/button"
  const ACTION_OPEN_DOOR_SAFE := PREFIX + "action/door/open-safe"
  const ACTION_OPEN_DOOR_UNSAFE := PREFIX + "action/door/open-unsafe"
  const ACTION_LOCK_DOOR := PREFIX + "action/door/lock"
  const ACTION_RESET := PREFIX + "action/reset"
  const STATUS_DOOR_B2 := PREFIX + "status/door-b2"
  const STATUS_DOOR_C2 := PREFIX + "status/door-c2"

  const STATUS_LOCKED := "locked"
  const STATUS_CLOSED := "closed"
  const STATUS_OPENED := "opened"

  const NAME_B := "door.b"
  const NAME_B2 := "door.b2"
  const NAME_C := "door.c"
  const NAME_C2 := "door.c2"

  datatype Message = Message(topic: string, payload: string)

  datatype Option<T> = None | Some(value: T)

  /** The event a message from the broker stands for, if it is one the state machine is
      told about. */
  function Decode(message: Message): Option<Event> {
    var Message(topic, payload) := message;
    if topic == EVENT_DOORBELL then
      Some(DoorbellFront)
    else if topic == STATUS_DOOR_B2 then
      if payload == STATUS_LOCKED then Some(DoorB2Locked)
      else if payload == STATUS_CLOSED then Some(DoorB2Closed)
      else if payload == STATUS_OPENED then Some(DoorB2Opened)
      else None
    else if topic == STATUS_DOOR_C2 then
      if payload == STATUS_LOCKED then Some(DoorC2Locked)
      else if payload == STATUS_CLOSED then Some(DoorC2Closed)
      else if payload == STATUS_OPENED then Some(DoorC2Opened)
      else None
    else if topic == EVENT_BUTTON then
      if payload == NAME_B2 then Some(ButtonB2)
      else if payload == NAME_C2 then Some(ButtonC2)
      else None
    else
      None
  }

  /** The messages that announce an event: door states and button presses name what
      happened in their payload, the doorbell is heard whatever the payload says, and no
      message announces a client's request or a timeout. */
  predicate Announces(message: Message, event: Event) {
    match event
    case DoorB2Opened => message == Message(STATUS_DOOR_B2, STATUS_OPENED)
    case DoorB2Closed => message == Message(STATUS_DOOR_B2, STATUS_CLOSED)
    case DoorB2Locked => message == Message(STATUS_DOOR_B2, STATUS_LOCKED)
    case DoorC2Opened => message == Message(STATUS_DOOR_C2, STATUS_OPENED)
    case DoorC2Closed => message == Message(STATUS_DOOR_C2, STATUS_CLOSED)
    case DoorC2Locked => message == Message(STATUS_DOOR_C2, STATUS_LOCKED)
    case ButtonB2 => message == Message(EVENT_BUTTON, NAME_B2)
    case ButtonC2 => message == Message(EVENT_BUTTON, NAME_C2)
    case DoorbellFront => message.topic == EVENT_DOORBELL
    case _ => false
  }

  /** The daemon takes a message for exactly the event it announces. */
  lemma DecodeIsExact(message: Message, event: Event)
    ensures Decode(message) == Some(event) <==> Announces(message, event)
  {
    TopicsDiffer();
    StatusTopicsDiffer();
    ButtonNamesDiffer();
  }

  lemma TopicsDiffer()
    ensures EVENT_BUTTON !in {EVENT_DOORBELL, STATUS_DOOR_B2, STATUS_DOOR_C2}
  {
    var n := |PREFIX|;
    assert EVENT_BUTTON[n] == 'e' && STATUS_DOOR_B2[n] == 's' && STATUS_DOOR_C2[n] == 's';
    assert EVENT_BUTTON[n + 6] == 'b' && EVENT_DOORBELL[n + 6] == 'd';
  }

  lemma ButtonNamesDiffer()
    ensures NAME_B2 != NAME_C2
  {
    assert NAME_B2[5] == 'b' && NAME_C2[5] == 'c';
  }

  lemma ActionsAreNoEvents(topic: string, payload: string)
    requires topic in {ACTION_OPEN_DOOR_SAFE, ACTION_OPEN_DOOR_UNSAFE, ACTION_LOCK_DOOR, ACTION_RESET}
    ensures Decode(Message(topic, payload)) == None
  {
    var n := |PREFIX|;
    assert topic[n] == 'a' && EVENT_DOORBELL[n] == 'e' && EVENT_BUTTON[n] == 'e';
    assert STATUS_DOOR_B2[n] == 's' && STATUS_DOOR_C2[n] == 's';
  }

  function StatusTopic(door: Door): string {
    if door == B2 then STATUS_DOOR_B2 else STATUS_DOOR_C2
  }

  lemma StatusTopicsDiffer()
    ensures EVENT_DOORBELL != STATUS_DOOR_B2 && EVENT_DOORBELL != STATUS_DOOR_C2
    ensures STATUS_DOOR_B2 != STATUS_DOOR_C2
    ensures STATUS_LOCKED != STATUS_CLOSED && STATUS_LOCKED != STATUS_OPENED && STATUS_CLOSED != STATUS_OPENED
  {
    var n := |PREFIX|;
    assert EVENT_DOORBELL[n] == 'e' && STATUS_DOOR_B2[n] == 's' && STATUS_DOOR_C2[n] == 's';
    assert STATUS_DOOR_B2[n + 12] == 'b' && STATUS_DOOR_C2[n + 12] == 'c';
    assert STATUS_LOCKED[0] == 'l' && STATUS_CLOSED[0] == 'c' && STATUS_OPENED[0] == 'o';
  }

  /** A status message tells the state machine about its own door, and only about that:
      `opened`, `closed` and `locked` in this order of payloads. */
  lemma StatusIsDecoded(door: Door, payload: string)
    ensures var event := Decode(Message(StatusTopic(door), payload));
            && (payload == STATUS_OPENED ==> event.Some? && NewsOf(event.value) == News(door, Opened))
            && (payload == STATUS_CLOSED ==> event.Some? && NewsOf(event.value) == News(door, Closed))
            && (payload == STATUS_LOCKED ==> event.Some? && NewsOf(event.value) == News(door, Locked))
            && (event.Some? ==> payload in {STATUS_OPENED, STATUS_CLOSED, STATUS_LOCKED})
  {
    StatusTopicsDiffer();
  }
}
