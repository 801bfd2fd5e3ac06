/** The main loop of a door controller: it passes orders and smoothed readings to its state
    machine and publishes the door's state. */
module DoorController {
  import opened DoorMachine
  import DR = DoorRuns
  import opened SensorWindow
  import opened Topics

  const FORCED_STATUS_UPDATE_PERIOD := 100   // turns of the loop
  const BOOT_RETRIES := 100

  /** The state of the two door contacts. */
  datatype Contacts = Contacts(closed: bool, locked: bool)

  /** The event bits taken from the event group at the start of a turn. */
  datatype Bits = Bits(timeout: bool, close: bool, openSafe: bool, openUnsafe: bool)

  datatype Controller = Controller(
    readings: seq<DoorState>,
    machine: Door,
    doorState: DoorState,       // the state last published, or found at boot
    refresh: int,               // turns until the next forced update
    published: seq<string>)

  function Payload(state: DoorState): string {
    match state
    case Open => STATUS_OPENED
    case Locked => STATUS_LOCKED
    case Closed => STATUS_CLOSED
    case Fault => "fault"
  }

  // ---- One turn of the loop ----

  function Obey(d: Door, given: bool, order: Order): Door {
    if given then OnOrder(d, order).0.door else d
  }

  function ObeyAll(d: Door, bits: Bits): Door {
    Obey(Obey(Obey(Obey(d, bits.timeout, Timeout), bits.close, Close), bits.openSafe, OpenSafe),
         bits.openUnsafe, OpenUnsafe)
  }

  /** The state the whole window agrees on, if there is one. */
  function Stable(readings: seq<DoorState>): (state: Topics.Option<DoorState>)
    ensures state.Some? ==> Agree(LastReadings(readings), state.value)
    ensures state.None? ==> forall s :: !Agree(LastReadings(readings), s)
  {
    var window := LastReadings(readings);
    if forall i :: 0 <= i < SIZE ==> window[i] == window[0] then Some(window[0])
    else
      assert forall s :: Agree(window, s) ==> s == window[0];
      None
  }

  function Turn(c: Controller, bits: Bits, contacts: Contacts): Controller {
    var readings := c.readings + [Classify(contacts.closed, contacts.locked)];
    var machine := ObeyAll(c.machine, bits);
    var force := c.refresh <= 0;
    match Stable(readings)
    case Some(state) =>
      if state != c.doorState || force then
        Controller(readings, OnReport(machine, state).door, state, FORCED_STATUS_UPDATE_PERIOD,
                   c.published + [Payload(state)])
      else c.(readings := readings, machine := machine, refresh := c.refresh - 1)
    case None =>
      c.(readings := readings, machine := machine, refresh := if force then c.refresh else c.refresh - 1)
  }

  /** The controller when its first stable state was found. */
  function Started(readings: seq<DoorState>, state: DoorState): Controller {
    Controller(readings, DoorMachine.Boot(state), state, 0, [])
  }

  // ---- What every turn keeps ----

  /** The state machine believes what was published last; that is never a fault, and stays
      as it is between two publications. */
  ghost predicate IsConsistent(c: Controller) {
    && Sane(c.readings)
    && c.machine.state == c.doorState != Fault
    && (c.published != [] ==> c.published[|c.published|-1] == Payload(c.doorState))
    && c.refresh <= FORCED_STATUS_UPDATE_PERIOD
  }

  lemma OrdersKeepDoorState(d: Door, bits: Bits)
    ensures ObeyAll(d, bits).state == d.state
  {
    var d1 := Obey(d, bits.timeout, Timeout);
    var d2 := Obey(d1, bits.close, Close);
    var d3 := Obey(d2, bits.openSafe, OpenSafe);
    OrderKeepsDoorState(d, Timeout);
    OrderKeepsDoorState(d1, Close);
    OrderKeepsDoorState(d2, OpenSafe);
    OrderKeepsDoorState(d3, OpenUnsafe);
  }

  lemma OrderKeepsDoorState(d: Door, order: Order)
    ensures OnOrder(d, order).0.door.state == d.state
  {
  }

  lemma ReportsAreBelieved(d: Door, state: DoorState)
    ensures OnReport(d, state).door.state == state
  {
  }

  lemma StartsConsistent(readings: seq<DoorState>, state: DoorState)
    requires Sane(readings) && Stable(readings) == Some(state)
    ensures IsConsistent(Started(readings, state))
  {
    StableIsNeverFault(readings, state);
  }

  /** A turn publishes at most one state, which the last eight readings agree on; it does so
      exactly when they agree and the state is new or an update is due. */
  lemma TurnIsConsistent(c: Controller, bits: Bits, contacts: Contacts)
    requires IsConsistent(c)
    ensures var after := Turn(c, bits, contacts);
            && IsConsistent(after)
            && (after.published == c.published ==> after.doorState == c.doorState)
            && (after.published != c.published ==>
                  && after.published == c.published + [Payload(after.doorState)]
                  && Agree(LastReadings(after.readings), after.doorState))
            && (after.published != c.published <==>
                  Stable(after.readings).Some? && (Stable(after.readings).value != c.doorState || c.refresh <= 0))
  {
    var readings := c.readings + [Classify(contacts.closed, contacts.locked)];
    OrdersKeepDoorState(c.machine, bits);
    match Stable(readings)
    case Some(state) =>
      StableIsNeverFault(readings, state);
      ReportsAreBelieved(ObeyAll(c.machine, bits), state);
    case None =>
  }

  function Turns(c: Controller, bits: seq<Bits>, contacts: seq<Contacts>): Controller
    requires |bits| == |contacts|
  {
    if bits == [] then c
    else
      var n := |bits| - 1;
      Turn(Turns(c, bits[..n], contacts[..n]), bits[n], contacts[n])
  }

  /** `after` is what became of `c` in `n` turns: what was published stays published, and
      as long as nothing is added the next forced update comes closer. */
  predicate CountsDown(c: Controller, after: Controller, n: nat) {
    && |c.published| <= |after.published|
    && (|after.published| == |c.published| ==>
          after.refresh <= 0 || after.refresh <= FORCED_STATUS_UPDATE_PERIOD - n)
  }

  lemma TurnCountsDown(c: Controller, mid: Controller, n: nat, bits: Bits, contacts: Contacts)
    requires CountsDown(c, mid, n)
    ensures CountsDown(c, Turn(mid, bits, contacts), n + 1)
  {
  }

  lemma {:induction false} TurnsCountDown(c: Controller, bits: seq<Bits>, contacts: seq<Contacts>)
    requires IsConsistent(c) && |bits| == |contacts|
    ensures var after := Turns(c, bits, contacts); IsConsistent(after) && CountsDown(c, after, |bits|)
  {
    if bits != [] {
      var n := |bits| - 1;
      var mid := Turns(c, bits[..n], contacts[..n]);
      TurnsCountDown(c, bits[..n], contacts[..n]);
      TurnIsConsistent(mid, bits[n], contacts[n]);
      TurnCountsDown(c, mid, n, bits[n], contacts[n]);
    }
  }

  lemma LastTurn(c: Controller, before: seq<Bits>, contactsBefore: seq<Contacts>, bits: Bits, contacts: Contacts)
    requires |before| == |contactsBefore|
    ensures Turns(c, before + [bits], contactsBefore + [contacts]) == Turn(Turns(c, before, contactsBefore), bits, contacts)
  {
    assert (before + [bits])[..|before|] == before && (contactsBefore + [contacts])[..|before|] == contactsBefore;
  }

  /** After a hundred silent turns a turn that finds the readings stable publishes. */
  lemma SilenceEnds(c: Controller, mid: Controller, n: nat, bits: Bits, contacts: Contacts)
    requires CountsDown(c, mid, n) && n >= FORCED_STATUS_UPDATE_PERIOD
    requires Stable(Turn(mid, bits, contacts).readings).Some?
    ensures |Turn(mid, bits, contacts).published| > |c.published|
  {
  }

  /** A silent door is heard of again: over more than a hundred turns at least one state is
      published, provided the last of them finds the readings stable. */
  lemma SilenceIsBounded(c: Controller, before: seq<Bits>, contactsBefore: seq<Contacts>, bits: Bits, contacts: Contacts)
    requires IsConsistent(c) && |before| == |contactsBefore| >= FORCED_STATUS_UPDATE_PERIOD
    requires Stable(Turns(c, before + [bits], contactsBefore + [contacts]).readings).Some?
    ensures |Turns(c, before + [bits], contactsBefore + [contacts]).published| > |c.published|
  {
    LastTurn(c, before, contactsBefore, bits, contacts);
    TurnsCountDown(c, before, contactsBefore);
    SilenceEnds(c, Turns(c, before, contactsBefore), |before|, bits, contacts);
  }

  /** A controller that has just been started makes itself heard at the first turn that finds
      the readings stable, whether or not the door has moved. */
  lemma FirstTurnIsHeard(readings: seq<DoorState>, state: DoorState, bits: Bits, contacts: Contacts)
    requires Stable(Turn(Started(readings, state), bits, contacts).readings).Some?
    ensures |Turn(Started(readings, state), bits, contacts).published| == 1
  {
  }

  // ---- What the orders of a turn amount to ----

  /** The bit by which an order is passed on. */
  predicate IsGiven(bits: Bits, order: Order) {
    match order
    case Timeout => bits.timeout
    case Close => bits.close
    case OpenSafe => bits.openSafe
    case OpenUnsafe => bits.openUnsafe
  }

  function IfGiven(bits: Bits, order: Order): seq<DR.Input> {
    if IsGiven(bits, order) then [DR.Give(order)] else []
  }

  /** The orders of a turn: each one whose bit is set, once, in a fixed sequence. */
  function Given(bits: Bits): seq<DR.Input> {
    IfGiven(bits, Timeout) + IfGiven(bits, Close) + IfGiven(bits, OpenSafe) + IfGiven(bits, OpenUnsafe)
  }

  lemma {:induction false} RunOfConcat(d: Door, a: seq<DR.Input>, b: seq<DR.Input>)
    ensures DR.Run(d, a + b) == DR.Run(DR.Run(d, a), b)
    decreases |b|
  {
    if b == [] {
      assert a + b == a;
    } else {
      assert (a + b)[..|a + b|-1] == a + b[..|b|-1];
      RunOfConcat(d, a, b[..|b|-1]);
    }
  }

  lemma ObeyIsRun(d: Door, before: seq<DR.Input>, bits: Bits, order: Order)
    ensures DR.Run(d, before + IfGiven(bits, order)) == Obey(DR.Run(d, before), IsGiven(bits, order), order)
  {
    if IsGiven(bits, order) {
      assert (before + [DR.Give(order)])[..|before|] == before;
    } else {
      assert before + [] == before;
    }
  }

  /** The bits of a turn are passed on as the orders they stand for, and nothing else is. */
  lemma BitsAreOrders(d: Door, bits: Bits)
    ensures ObeyAll(d, bits) == DR.Run(d, Given(bits))
  {
    var one := IfGiven(bits, Timeout);
    var two := one + IfGiven(bits, Close);
    var three := two + IfGiven(bits, OpenSafe);
    assert [] + one == one;
    ObeyIsRun(d, [], bits, Timeout);
    ObeyIsRun(d, one, bits, Close);
    ObeyIsRun(d, two, bits, OpenSafe);
    ObeyIsRun(d, three, bits, OpenUnsafe);
  }

  /** What the bits of a turn do to an idle machine.  A locked door is opened exactly if one of
      the two bits for that is set, and without waiting for anybody exactly if the safe one is
      not; a door that is not locked is locked, or waited for, exactly if the close bit is set. */
  lemma IdleMachinesObeyExactly(d: Door, bits: Bits)
    requires d.logic == Idle
    ensures var after := ObeyAll(d, bits);
            && (d.state == Locked ==>
                  && after.logic == (if bits.openSafe || bits.openUnsafe then InitOpen else Idle)
                  && (after.logic == InitOpen ==> (after.unsafeAction <==> !bits.openSafe)))
            && (d.state == Closed ==> after.logic == if bits.close then InitLock else Idle)
            && (d.state == Open ==> after.logic == if bits.close then WaitForClosed else Idle)
            && (d.state == Fault ==> after.logic == Idle)
  {
  }

  /** A busy machine goes on undisturbed unless the timeout bit is set; if it is, the other bits
      count only if the timeout ends the operation. */
  lemma BusyMachinesOnlyTimeOut(d: Door, bits: Bits)
    requires d.logic != Idle
    ensures !bits.timeout ==> ObeyAll(d, bits) == d
    ensures bits.timeout ==>
              var after := DR.React(d, DR.Give(Timeout)).door;
              ObeyAll(d, bits) == if after.logic != Idle then after else ObeyAll(after, bits.(timeout := false))
  {
  }

  // ---- A controller is a run of its machine ----

  /** What a turn gives to the machine: the orders, and the state if one is published. */
  function InputsOf(c: Controller, bits: Bits, contacts: Contacts): seq<DR.Input> {
    var after := Turn(c, bits, contacts);
    Given(bits) + if |after.published| > |c.published| then [DR.Report(after.doorState)] else []
  }

  function AllInputs(c: Controller, bits: seq<Bits>, contacts: seq<Contacts>): seq<DR.Input>
    requires |bits| == |contacts|
  {
    if bits == [] then []
    else
      var n := |bits| - 1;
      AllInputs(c, bits[..n], contacts[..n]) + InputsOf(Turns(c, bits[..n], contacts[..n]), bits[n], contacts[n])
  }

  lemma TurnIsRun(c: Controller, bits: Bits, contacts: Contacts)
    ensures Turn(c, bits, contacts).machine == DR.Run(c.machine, InputsOf(c, bits, contacts))
  {
    var after := Turn(c, bits, contacts);
    BitsAreOrders(c.machine, bits);
    if |after.published| > |c.published| {
      RunOfConcat(c.machine, Given(bits), [DR.Report(after.doorState)]);
      assert [DR.Report(after.doorState)][..0] == [];
    } else {
      assert Given(bits) + [] == Given(bits);
    }
  }

  /** Over any number of turns the machine does just what these inputs make it do; so what holds
      of all runs of the machine holds of the controller. */
  lemma {:induction false} TurnsAreRuns(c: Controller, bits: seq<Bits>, contacts: seq<Contacts>)
    requires |bits| == |contacts|
    ensures Turns(c, bits, contacts).machine == DR.Run(c.machine, AllInputs(c, bits, contacts))
  {
    if bits != [] {
      var n := |bits| - 1;
      var mid := Turns(c, bits[..n], contacts[..n]);
      TurnsAreRuns(c, bits[..n], contacts[..n]);
      TurnIsRun(mid, bits[n], contacts[n]);
      RunOfConcat(c.machine, AllInputs(c, bits[..n], contacts[..n]), InputsOf(mid, bits[n], contacts[n]));
    }
  }

  lemma {:induction false} OrdersHadTheirBits(c: Controller, bits: seq<Bits>, contacts: seq<Contacts>, order: Order)
    requires |bits| == |contacts|
    ensures DR.Give(order) in AllInputs(c, bits, contacts) ==> exists k :: 0 <= k < |bits| && IsGiven(bits[k], order)
  {
    if DR.Give(order) in AllInputs(c, bits, contacts) {
      var n := |bits| - 1;
      if DR.Give(order) in AllInputs(c, bits[..n], contacts[..n]) {
        OrdersHadTheirBits(c, bits[..n], contacts[..n], order);
        var k :| 0 <= k < n && IsGiven(bits[..n][k], order);
        assert IsGiven(bits[k], order);
      } else {
        assert IsGiven(bits[n], order);
      }
    }
  }

  lemma {:induction false} AskedWasGiven(d: Door, inputs: seq<DR.Input>, order: Order)
    requires DR.Asked(order) in DR.Story(d, inputs)
    ensures DR.Give(order) in inputs
  {
    var n := |inputs| - 1;
    if DR.Asked(order) in DR.Story(d, inputs[..n]) {
      AskedWasGiven(d, inputs[..n], order);
    }
  }

  /** Every operation an observer hears of was asked for by the bit of its order: a controller
      opens safely, opens unsafely, or closes only after the bit for just that was set. */
  lemma OperationsWereAskedFor(c: Controller, bits: seq<Bits>, contacts: seq<Contacts>, order: Order)
    requires |bits| == |contacts|
    ensures DR.Asked(order) in DR.Story(c.machine, AllInputs(c, bits, contacts)) ==>
              exists k :: 0 <= k < |bits| && IsGiven(bits[k], order)
  {
    if DR.Asked(order) in DR.Story(c.machine, AllInputs(c, bits, contacts)) {
      AskedWasGiven(c.machine, AllInputs(c, bits, contacts), order);
      OrdersHadTheirBits(c, bits, contacts, order);
    }
  }

  /** The readings are those of the contacts, one after the other. */
  ghost predicate IsReadFrom(readings: seq<DoorState>, contacts: seq<Contacts>) {
    && |readings| <= |contacts|
    && forall i :: 0 <= i < |readings| ==> readings[i] == Classify(contacts[i].closed, contacts[i].locked)
  }

  /** No stable state was found with any of the first readings. */
  ghost predicate NoneIsStable(readings: seq<DoorState>)
    decreases |readings|
  {
    readings != [] ==> Stable(readings) == None && NoneIsStable(readings[..|readings|-1])
  }

  /** The readings so far are those of the contacts, and no stable state was found. */
  ghost predicate IsUnstable(readings: seq<DoorState>, contacts: seq<Contacts>) {
    Sane(readings) && IsReadFrom(readings, contacts) && NoneIsStable(readings)
  }

  lemma OneMoreReading(readings: seq<DoorState>, contacts: seq<Contacts>)
    requires IsUnstable(readings, contacts) && |readings| < |contacts|
    ensures var next := contacts[|readings|];
            var more := readings + [Classify(next.closed, next.locked)];
            && Sane(more) && IsReadFrom(more, contacts) && more[..|more|-1] == readings
            && (Stable(more) == None ==> IsUnstable(more, contacts))
  {
    var more := readings + [Classify(contacts[|readings|].closed, contacts[|readings|].locked)];
    assert more[..|readings|] == readings;
  }

  // ---- The object ----

  class DoorController {
    const window: Window
    var machine: StateMachine
    var doorState: DoorState
    var forceRefreshTimeout: int
    var published: seq<string>

    ghost predicate Valid()
      reads this, window, window.states
    {
      window.Valid()
    }

    ghost function Value(): Controller
      reads this, window, machine
    {
      Controller(window.readings, machine.Value(), doorState, forceRefreshTimeout, published)
    }

    constructor ()
      ensures Valid() && window.readings == [] && published == []
      ensures fresh(window) && fresh(window.states) && fresh(machine)
    {
      window := new Window();
      machine := new StateMachine(Open);
      doorState, forceRefreshTimeout, published := Open, 0, [];
    }

    /** Takes a reading of the contacts and says whether the window is stable. */
    method GetDoorState(contacts: Contacts) returns (stable: bool, state: DoorState)
      requires Valid()
      modifies window, window.states
      ensures Valid()
      ensures window.readings == old(window.readings) + [Classify(contacts.closed, contacts.locked)]
      ensures Stable(window.readings) == if stable then Some(state) else None
    {
      window.Push(Classify(contacts.closed, contacts.locked));
      stable, state := window.Smoothed();
      if stable {
        assert LastReadings(window.readings)[0] == state;
      }
    }

    /** Reads the sensors until they are stable, at most 101 times, and sets the state
        machine up.  When they are not stable the controller reboots instead. */
    method Start(contacts: seq<Contacts>) returns (ok: bool)
      requires Valid() && window.readings == [] && |contacts| == BOOT_RETRIES + 1
      modifies this, window, window.states
      ensures Valid()
      ensures ok ==> Stable(window.readings).Some?
                     && Value() == Started(window.readings, Stable(window.readings).value)
                     && Sane(window.readings)
      ensures !ok ==> |window.readings| == BOOT_RETRIES + 1 && Stable(window.readings) == None
      ensures IsReadFrom(window.readings, contacts)
      ensures window.readings != [] && NoneIsStable(window.readings[..|window.readings|-1])
      ensures fresh(machine) || machine == old(machine)
    {
      var timeout := BOOT_RETRIES;
      var i := 0;
      while true
        invariant Valid()
        invariant 0 <= timeout && i + timeout == BOOT_RETRIES && |window.readings| == i
        invariant IsUnstable(window.readings, contacts)
        invariant machine == old(machine)
        decreases timeout
      {
        OneMoreReading(window.readings, contacts);
        var stable, state := GetDoorState(contacts[i]);
        if stable {
          machine := new StateMachine(state);
          doorState, forceRefreshTimeout, published := state, 0, [];
          return true;
        }
        i := i + 1;
        if timeout == 0 {
          return false;
        }
        timeout := timeout - 1;
      }
    }

    method Forward(given: bool, order: Order)
      requires Valid()
      modifies machine
      ensures Valid() && machine.Value() == Obey(old(machine.Value()), given, order)
    {
      if given {
        var _ := machine.SendEvent(order);
      }
    }

    /** Passes the orders of a turn to the state machine. */
    method PassOrders(bits: Bits)
      requires Valid()
      modifies machine
      ensures Valid() && machine.Value() == ObeyAll(old(machine.Value()), bits)
    {
      Forward(bits.timeout, Timeout);
      Forward(bits.close, Close);
      Forward(bits.openSafe, OpenSafe);
      Forward(bits.openUnsafe, OpenUnsafe);
    }

    /** One turn of the main loop. */
    method LoopOnce(bits: Bits, contacts: Contacts)
      requires Valid()
      modifies this`doorState, this`forceRefreshTimeout, this`published, machine, window, window.states
      ensures Valid() && Value() == Turn(old(Value()), bits, contacts)
    {
      PassOrders(bits);
      var stable, newState := GetDoorState(contacts);
      var forceUpdate := forceRefreshTimeout <= 0;
      if !forceUpdate {
        forceRefreshTimeout := forceRefreshTimeout - 1;
      }
      if stable && (newState != doorState || forceUpdate) {
        doorState := newState;
        published := published + [Payload(doorState)];
        machine.ChangeDoorState(doorState);
        forceRefreshTimeout := FORCED_STATUS_UPDATE_PERIOD;
      }
    }
  }
}
