/** The two door controllers and the daemon, connected by order-keeping status channels:
    whatever is still on its way, the daemon is about to believe what each controller believes
    of its own door, unless the newest status was lost or somebody was restarted since. */
module Network {
  import opened PortalMachine
  import opened PortalRuns
  import opened Topics
  import DM = DoorMachine
  import opened SensorWindow
  import opened DoorController

  /** A controller that has found its first stable state, the statuses it has published that
      the daemon has not received yet, oldest first, and whether the controller has published
      since the daemon and itself were started and since its newest status was lost.  Of each
      turn since the controller was started it is known what the contacts were. */
  datatype Link = Link(controller: Controller, channel: seq<Message>, current: bool, sampled: seq<Contacts>)

  datatype Net = Net(b2: Link, c2: Link, daemon: Machine)

  datatype Action =
    | LoopTurn(door: Door, bits: Bits, contacts: Contacts)   // a controller's loop turns once
    | Delivery(door: Door)                                   // the daemon receives a status
    | Loss(door: Door, index: nat)                           // a status is lost on its way
    | Reboot(door: Door, readings: seq<DM.DoorState>)        // a controller starts afresh
    | DaemonRestart
    | Otherwise(event: Event)                                // anything else the daemon is told

  function LinkOf(n: Net, door: Door): Link {
    if door == B2 then n.b2 else n.c2
  }

  function WithLink(n: Net, door: Door, link: Link): Net {
    if door == B2 then n.(b2 := link) else n.(c2 := link)
  }

  predicate Enabled(n: Net, a: Action) {
    match a
    case LoopTurn(_, _, _) => true
    case Delivery(door) => LinkOf(n, door).channel != []
    case Loss(door, index) => index < |LinkOf(n, door).channel|
    case Reboot(_, readings) => Sane(readings) && Stable(readings).Some?
    case DaemonRestart => true
    case Otherwise(event) => NewsOf(event) == NoNews
  }

  function Tell(m: Machine, message: Message): Machine {
    match Decode(message)
    case Some(event) => Next(m, event)
    case None => m
  }

  /** What a turn adds to the channel. */
  function Newly(door: Door, before: Controller, after: Controller): seq<Message> {
    if |after.published| > |before.published| then
      [Message(StatusTopic(door), after.published[|after.published|-1])]
    else []
  }

  function Do(n: Net, a: Action): Net
    requires Enabled(n, a)
  {
    match a
    case LoopTurn(door, bits, contacts) =>
      var link := LinkOf(n, door);
      var after := Turn(link.controller, bits, contacts);
      var added := Newly(door, link.controller, after);
      WithLink(n, door, Link(after, link.channel + added, link.current || added != [], link.sampled + [contacts]))
    case Delivery(door) =>
      var link := LinkOf(n, door);
      WithLink(n, door, link.(channel := link.channel[1..])).(daemon := Tell(n.daemon, link.channel[0]))
    case Loss(door, index) =>
      WithLink(n, door, Without(LinkOf(n, door), index))
    case Reboot(door, readings) =>
      WithLink(n, door, Link(Started(readings, Stable(readings).value), LinkOf(n, door).channel, false, []))
    case DaemonRestart =>
      Net(n.b2.(current := false), n.c2.(current := false), Initial)
    case Otherwise(event) => n.(daemon := Next(n.daemon, event))
  }

  /** A link that has lost one of the statuses on their way. */
  function Without(link: Link, index: nat): Link
    requires index < |link.channel|
  {
    link.(channel := link.channel[..index] + link.channel[index+1..],
          current := link.current && index < |link.channel| - 1)
  }

  /** How the daemon ought to see a door that its controller finds in a state. */
  function ViewOf(state: DM.DoorState): DoorView {
    match state
    case Open => Opened
    case Closed => Closed
    case Locked => Locked
    case Fault => Unobserved
  }

  /** A door's view once all statuses in its channel were received. */
  function ViewAfter(view: DoorView, channel: seq<Message>): DoorView
    decreases |channel|
  {
    if channel == [] then view
    else
      var event := Decode(channel[0]);
      ViewAfter(if event.Some? && NewsOf(event.value).News? then NewsOf(event.value).view else view, channel[1..])
  }

  // ---- The invariant ----

  /** The statuses on their way are this door's own. */
  predicate IsOwn(door: Door, message: Message) {
    message.topic == StatusTopic(door) && message.payload in {STATUS_OPENED, STATUS_CLOSED, STATUS_LOCKED}
  }

  ghost predicate Agrees(door: Door, link: Link, m: Machine) {
    && IsConsistent(link.controller)
    && IsSampled(link)
    && (forall message <- link.channel :: IsOwn(door, message))
    && (link.current ==>
          ViewAfter(View(m, door), link.channel) == ViewOf(link.controller.doorState))
  }

  ghost predicate Inv(n: Net) {
    && Agrees(B2, n.b2, n.daemon)
    && Agrees(C2, n.c2, n.daemon)
    && Coherent(n.daemon)
  }

  // ---- The contacts ----

  /** The contacts were the same in the last eight turns. */
  predicate IsSteady(sampled: seq<Contacts>, contacts: Contacts) {
    |sampled| >= SIZE && forall i :: |sampled| - SIZE <= i < |sampled| ==> sampled[i] == contacts
  }

  /** The readings end with those of the turns; and once eight turns have found the same, the
      controller believes it. */
  ghost predicate IsSampled(link: Link) {
    var n, readings := |link.sampled|, link.controller.readings;
    && n <= |readings|
    && (forall i :: 0 <= i < n ==>
          readings[|readings| - n + i] == Classify(link.sampled[i].closed, link.sampled[i].locked))
    && (forall contacts :: IsSteady(link.sampled, contacts) ==>
          link.controller.doorState == Classify(contacts.closed, contacts.locked))
  }

  /** A turn that ends with eight readings of the same state makes the controller believe it. */
  lemma SteadyReadingsAreBelieved(c: Controller, bits: Bits, contacts: Contacts, state: DM.DoorState)
    requires var readings := Turn(c, bits, contacts).readings;
             |readings| >= SIZE && Agree(readings[|readings|-SIZE..], state)
    ensures Turn(c, bits, contacts).doorState == state
  {
    var readings := Turn(c, bits, contacts).readings;
    StableWhenLastEightAgree(readings, state);
    assert Stable(readings).Some?;
    assert LastReadings(readings)[0] == state;
  }

  lemma SamplingGoesOn(link: Link, bits: Bits, contacts: Contacts)
    requires IsSampled(link)
    ensures IsSampled(Link(Turn(link.controller, bits, contacts), link.channel, link.current, link.sampled + [contacts]))
  {
    var sampled, after := link.sampled + [contacts], Turn(link.controller, bits, contacts);
    var readings := after.readings;
    assert readings == link.controller.readings + [Classify(contacts.closed, contacts.locked)];
    forall c | IsSteady(sampled, c)
      ensures after.doorState == Classify(c.closed, c.locked)
    {
      var last := readings[|readings|-SIZE..];
      forall i | 0 <= i < SIZE
        ensures last[i] == Classify(c.closed, c.locked)
      {
        var k := |sampled| - SIZE + i;
        assert sampled[k] == c && last[i] == readings[|readings| - |sampled| + k];
        if k < |link.sampled| {
          assert link.sampled[k] == c;
        }
      }
      SteadyReadingsAreBelieved(link.controller, bits, contacts, Classify(c.closed, c.locked));
    }
  }

  lemma OwnStatusIsNews(door: Door, message: Message)
    requires IsOwn(door, message)
    ensures Decode(message).Some? && NewsOf(Decode(message).value).News?
    ensures NewsOf(Decode(message).value).door == door
  {
    StatusIsDecoded(door, message.payload);
    assert message == Message(StatusTopic(door), message.payload);
  }

  lemma PayloadIsUnderstood(door: Door, state: DM.DoorState)
    requires state != DM.Fault
    ensures var message := Message(StatusTopic(door), Payload(state));
            IsOwn(door, message) && Decode(message).Some? && NewsOf(Decode(message).value) == News(door, ViewOf(state))
  {
    StatusIsDecoded(door, Payload(state));
  }

  lemma {:induction false} LastStatusDecides(view: DoorView, door: Door, channel: seq<Message>, state: DM.DoorState)
    requires state != DM.Fault
    ensures ViewAfter(view, channel + [Message(StatusTopic(door), Payload(state))]) == ViewOf(state)
    decreases |channel|
  {
    var all := channel + [Message(StatusTopic(door), Payload(state))];
    if channel == [] {
      PayloadIsUnderstood(door, state);
      assert all[1..] == [];
    } else {
      assert all[1..] == channel[1..] + [Message(StatusTopic(door), Payload(state))];
      var event := Decode(channel[0]);
      LastStatusDecides(if event.Some? && NewsOf(event.value).News? then NewsOf(event.value).view else view,
                        door, channel[1..], state);
    }
  }

  /** A step of the daemon changes exactly the view its event is about. */
  lemma StepViews(m: Machine, event: Event, door: Door)
    ensures View(Next(m, event), door) ==
            if NewsOf(event).News? && NewsOf(event).door == door then NewsOf(event).view else View(m, door)
  {
  }

  lemma TurnKeepsAgreement(door: Door, link: Link, m: Machine, bits: Bits, contacts: Contacts)
    requires Agrees(door, link, m)
    ensures var after := Turn(link.controller, bits, contacts);
            var added := Newly(door, link.controller, after);
            Agrees(door, Link(after, link.channel + added, link.current || added != [], link.sampled + [contacts]), m)
  {
    SamplingGoesOn(link, bits, contacts);
    var after := Turn(link.controller, bits, contacts);
    TurnIsConsistent(link.controller, bits, contacts);
    if after.published != link.controller.published {
      PayloadIsUnderstood(door, after.doorState);
      LastStatusDecides(View(m, door), door, link.channel, after.doorState);
      assert Newly(door, link.controller, after) == [Message(StatusTopic(door), Payload(after.doorState))];
    } else {
      assert link.channel + [] == link.channel;
    }
  }

  lemma DeliveryKeepsAgreement(door: Door, link: Link, m: Machine)
    requires Agrees(door, link, m) && link.channel != []
    ensures Agrees(door, link.(channel := link.channel[1..]), Tell(m, link.channel[0]))
  {
    OwnStatusIsNews(door, link.channel[0]);
    StepViews(m, Decode(link.channel[0]).value, door);
  }

  /** The last status on its way decides, whatever comes before it. */
  lemma {:induction false} OnlyTheLastMatters(door: Door, view: DoorView, channel: seq<Message>)
    requires channel != [] && forall message <- channel :: IsOwn(door, message)
    ensures Decode(channel[|channel|-1]).Some? && NewsOf(Decode(channel[|channel|-1]).value).News?
    ensures ViewAfter(view, channel) == NewsOf(Decode(channel[|channel|-1]).value).view
    decreases |channel|
  {
    OwnStatusIsNews(door, channel[0]);
    if |channel| > 1 {
      OnlyTheLastMatters(door, NewsOf(Decode(channel[0]).value).view, channel[1..]);
    }
  }

  lemma LossKeepsAgreement(door: Door, link: Link, m: Machine, index: nat)
    requires Agrees(door, link, m) && index < |link.channel|
    ensures Agrees(door, Without(link, index), m)
  {
    assert forall message <- Without(link, index).channel :: message in link.channel;
    if index < |link.channel| - 1 {
      LossOfAnOlderStatus(door, View(m, door), link.channel, index);
    }
  }

  lemma LossOfAnOlderStatus(door: Door, view: DoorView, channel: seq<Message>, index: nat)
    requires index < |channel| - 1 && forall message <- channel :: IsOwn(door, message)
    ensures ViewAfter(view, channel[..index] + channel[index+1..]) == ViewAfter(view, channel)
  {
    var rest := channel[..index] + channel[index+1..];
    assert forall message <- rest :: message in channel;
    assert rest[|rest|-1] == channel[|channel|-1];
    OnlyTheLastMatters(door, view, channel);
    OnlyTheLastMatters(door, view, rest);
  }

  lemma OthersKeepAgreement(door: Door, link: Link, m: Machine, event: Event)
    requires Agrees(door, link, m) && (NewsOf(event) == NoNews || NewsOf(event).door != door)
    ensures Agrees(door, link, Next(m, event))
  {
    StepViews(m, event, door);
  }

  lemma DeliveryKeepsInv(n: Net, door: Door)
    requires Inv(n) && Enabled(n, Delivery(door))
    ensures Inv(Do(n, Delivery(door)))
  {
    var link := LinkOf(n, door);
    var message := link.channel[0];
    DeliveryKeepsAgreement(door, link, n.daemon);
    OwnStatusIsNews(door, message);
    OthersKeepAgreement(Other(door), LinkOf(n, Other(door)), n.daemon, Decode(message).value);
    StepStaysCoherent(n.daemon, Decode(message).value);
  }

  lemma ActionKeepsInv(n: Net, a: Action)
    requires Inv(n) && Enabled(n, a)
    ensures Inv(Do(n, a))
  {
    match a
    case LoopTurn(door, bits, contacts) =>
      TurnKeepsAgreement(door, LinkOf(n, door), n.daemon, bits, contacts);
    case Delivery(door) => DeliveryKeepsInv(n, door);
    case Loss(door, index) => LossKeepsAgreement(door, LinkOf(n, door), n.daemon, index);
    case Reboot(_, readings) => StartsConsistent(readings, Stable(readings).value);
    case DaemonRestart =>
    case Otherwise(event) =>
      OthersKeepAgreement(B2, n.b2, n.daemon, event);
      OthersKeepAgreement(C2, n.c2, n.daemon, event);
      StepStaysCoherent(n.daemon, event);
  }

  // ---- Runs ----

  /** Both controllers have just found their first stable state, and the daemon has just
      been started. */
  ghost predicate IsStart(n: Net) {
    && n.daemon == Initial
    && Begins(n.b2) && Begins(n.c2)
  }

  ghost predicate Begins(link: Link) {
    && Sane(link.controller.readings)
    && Stable(link.controller.readings).Some?
    && link == Link(Started(link.controller.readings, Stable(link.controller.readings).value), [], false, [])
  }

  ghost predicate IsTrace(trace: seq<Net>) {
    trace != [] && IsStart(trace[0]) && forall i :: 0 < i < |trace| ==> IsStep(trace[i-1], trace[i])
  }

  ghost predicate IsStep(n: Net, n': Net) {
    exists a :: Enabled(n, a) && n' == Do(n, a)
  }

  lemma {:induction false} TracesKeepInv(trace: seq<Net>, i: nat)
    requires IsTrace(trace) && i < |trace|
    ensures Inv(trace[i])
  {
    if i == 0 {
      StartsConsistent(trace[0].b2.controller.readings, trace[0].b2.controller.doorState);
      StartsConsistent(trace[0].c2.controller.readings, trace[0].c2.controller.doorState);
    } else {
      TracesKeepInv(trace, i - 1);
      assert IsStep(trace[i-1], trace[i]);
      var a :| Enabled(trace[i-1], a) && trace[i] == Do(trace[i-1], a);
      ActionKeepsInv(trace[i-1], a);
    }
  }

  /** Whenever a controller has published since the last start and the last loss of its newest
      status, receiving what is on its way makes the
      daemon see that door as the controller's own state machine does. */
  lemma ViewsAgree(trace: seq<Net>, i: nat, door: Door)
    requires IsTrace(trace) && i < |trace|
    requires LinkOf(trace[i], door).current
    ensures var link := LinkOf(trace[i], door);
            ViewAfter(View(trace[i].daemon, door), link.channel) == ViewOf(link.controller.machine.state) != Unobserved
  {
    TracesKeepInv(trace, i);
  }

  /** When nothing is on its way, the daemon's shack state is the one that follows from what
      the two controllers believe of their doors. */
  lemma ShackStateIsTrue(trace: seq<Net>, i: nat)
    requires IsTrace(trace) && i < |trace|
    requires trace[i].b2.current && trace[i].c2.current
    requires trace[i].b2.channel == [] && trace[i].c2.channel == []
    ensures var n := trace[i];
            n.daemon.lastShack ==
            ShackOf(ViewOf(n.b2.controller.machine.state), ViewOf(n.c2.controller.machine.state))
    ensures trace[i].daemon.lastShack != ShackUnobserved
  {
    TracesKeepInv(trace, i);
  }

  /** What the daemon sees of a door is what its contacts say: once they were the same for eight
      turns, the controller has published since, and nothing is on its way, the daemon sees the
      door locked exactly if both contacts are made, closed exactly if only that of the closed
      door is, and open exactly if that one is not. */
  lemma ViewsAreTrue(trace: seq<Net>, i: nat, door: Door, contacts: Contacts)
    requires IsTrace(trace) && i < |trace|
    requires var link := LinkOf(trace[i], door); link.current && link.channel == [] && IsSteady(link.sampled, contacts)
    ensures var view := View(trace[i].daemon, door);
            && (view == Locked <==> contacts.closed && contacts.locked)
            && (view == Closed <==> contacts.closed && !contacts.locked)
            && (view == Opened <==> !contacts.closed)
  {
    TracesKeepInv(trace, i);
  }

  /** So the daemon takes the shack for locked exactly if all four contacts are made. */
  lemma ShackIsLockedExactly(trace: seq<Net>, i: nat, b2: Contacts, c2: Contacts)
    requires IsTrace(trace) && i < |trace|
    requires var n := trace[i];
             && n.b2.current && n.b2.channel == [] && IsSteady(n.b2.sampled, b2)
             && n.c2.current && n.c2.channel == [] && IsSteady(n.c2.sampled, c2)
    ensures trace[i].daemon.lastShack == ShackLocked <==> b2.closed && b2.locked && c2.closed && c2.locked
    ensures trace[i].daemon.lastShack == ShackOpen <==> !(b2.closed && b2.locked) && !(c2.closed && c2.locked)
  {
    TracesKeepInv(trace, i);
    ViewsAreTrue(trace, i, B2, b2);
    ViewsAreTrue(trace, i, C2, c2);
  }
}
