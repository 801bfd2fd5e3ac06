/** Opening the shack takes two controllers: the one at which somebody enters, and then the
    other, which the daemon tells to open when the first reports its door open.  Together they
    are done before the daemon's one timeout for both. */
module DoorPairs {
  import P = PortalMachine
  import PR = PortalRuns
  import opened DoorMachine
  import opened DoorRuns
  import Network

  const LONGEST_ENTRY := 80100         // ms: press, unlock, wait for somebody to enter
  const LONGEST_UNLOCKING := 20100     // ms: press, unlock

  function Left(c: Clock): nat {
    if c.running then c.left else 0
  }

  predicate IsOpening(logic: Logic) {
    logic in {InitOpen, WaitForUnlocked, WaitForOpen}
  }

  /** The timeouts that may still be asked for before an opening has succeeded or failed. */
  function BeforeEntry(d: Door): nat {
    match d.logic
    case InitOpen => TIMEOUT_DISENGAGE_BOLT + (if d.unsafeAction then 0 else TIMEOUT_USER_OPEN)
    case WaitForUnlocked => if d.unsafeAction then 0 else TIMEOUT_USER_OPEN
    case _ => 0
  }

  /** An opening has taken no more time than its timeouts allow. */
  predicate IsPunctual(c: Clock) {
    && IsTimed(c)
    && (c.door.logic == WaitForOpen ==> !c.door.unsafeAction)
    && (IsOpening(c.door.logic) ==>
          c.elapsed + Left(c) + BeforeEntry(c.door) <= if c.door.unsafeAction then LONGEST_UNLOCKING else LONGEST_ENTRY)
  }

  lemma OpeningsArePaidFor(d: Door, input: Input)
    requires d.logic == WaitForOpen ==> !d.unsafeAction
    ensures var r := React(d, input);
            && (r.door.logic == WaitForOpen ==> !r.door.unsafeAction)
            && (IsOpening(r.door.logic) && r.timer.Start? && d.logic == Idle ==>
                  r.timer.ms + BeforeEntry(r.door) <= if r.door.unsafeAction then LONGEST_UNLOCKING else LONGEST_ENTRY)
            && (IsOpening(r.door.logic) && d.logic != Idle ==>
                  IsOpening(d.logic) && r.door.unsafeAction == d.unsafeAction
                  && (r.timer.Start? ==> r.timer.ms + BeforeEntry(r.door) <= BeforeEntry(d)))
  {
  }

  lemma TickKeepsPunctual(c: Clock, t: Tick)
    requires IsPunctual(c) && Prompt(c, t)
    ensures IsPunctual(Tock(c, t))
  {
    if t.Deliver? {
      ReactionIsTimed(c.door, t.input);
      TimeoutsArePaidFor(c.door, t.input);
      OpeningsArePaidFor(c.door, t.input);
    }
  }

  // ---- Two controllers and the daemon ----

  datatype Stage =
    | Entering    // the first door is being opened
    | Following   // somebody entered, and the other door is being unlocked
    | Over

  /** The door somebody is let in by, both controllers, the daemon's machine, and the time since
      the daemon was asked to open. */
  datatype Pair = Pair(via: P.Door, first: Clock, second: Clock, daemon: P.Machine, stage: Stage, since: nat)

  datatype Move =
    | Both(ms: nat)           // time passes
    | AtFirst(tick: Tick)
    | AtSecond(tick: Tick)
    | AtDaemon(event: P.Event)  // a button, the doorbell, a request, or the timeout

  predicate IsPrompt(p: Pair, move: Move) {
    match move
    case Both(ms) => Prompt(p.first, Pass(ms)) && Prompt(p.second, Pass(ms))
    case AtFirst(t) => !t.Pass? && Prompt(p.first, t)
    case AtSecond(t) => !t.Pass? && Prompt(p.second, t)
    case AtDaemon(event) => P.NewsOf(event).NoNews? && (event == P.Timeout ==> p.since >= DAEMON_TIMEOUT)
  }

  /** The event by which the daemon hears of a door's state. */
  function Reported(door: P.Door, state: DoorState): (event: P.Event)
    requires state != Fault
    ensures P.NewsOf(event) == P.News(door, Network.ViewOf(state))
  {
    match (state, door)
    case (Open, B2) => P.DoorB2Opened
    case (Open, C2) => P.DoorC2Opened
    case (Closed, B2) => P.DoorB2Closed
    case (Closed, C2) => P.DoorC2Closed
    case (Locked, B2) => P.DoorB2Locked
    case (Locked, C2) => P.DoorC2Locked
  }

  /** The state a tick reports to the controller, which has published it just before. */
  function Publication(t: Tick): (state: DoorState) {
    match t
    case Deliver(Report(state)) => state
    case _ => Fault
  }

  /** The signals the daemon emits when a tick of a controller makes it hear of a door. */
  function Answer(p: Pair, door: P.Door, t: Tick): seq<P.Signal> {
    if Publication(t) == Fault then [] else P.Signals(p.daemon, Reported(door, Publication(t)))
  }

  function DaemonAfter(p: Pair, door: P.Door, t: Tick): P.Machine {
    if Publication(t) == Fault then p.daemon else P.Next(p.daemon, Reported(door, Publication(t)))
  }

  /** When the daemon commands the unsafe opening of the other door, its controller is told at
      once.  The opening is over when this is done or has failed, when the first door was not
      entered, or when the other controller does not take up the order. */
  function Proceed(p: Pair, move: Move): Pair {
    match move
    case Both(ms) =>
      p.(first := Tock(p.first, Pass(ms)), second := Tock(p.second, Pass(ms)),
         since := if p.stage == Over then p.since else p.since + ms)
    case AtFirst(t) =>
      var q := p.(first := Tock(p.first, t), daemon := DaemonAfter(p, p.via, t));
      if PR.UnsafeOpening(P.Other(p.via)) in Answer(p, p.via, t) then
        Command(q)
      else if p.stage == Entering && !IsOpening(q.first.door.logic) then q.(stage := Over)
      else q
    case AtSecond(t) =>
      var q := p.(second := Tock(p.second, t), daemon := DaemonAfter(p, P.Other(p.via), t));
      if p.stage == Following && q.second.door.logic == Idle then q.(stage := Over) else q
    case AtDaemon(event) =>
      p.(daemon := P.Next(p.daemon, event))
  }

  /** The second controller is told to open without waiting for anybody. */
  function Command(p: Pair): Pair {
    var second := Tock(p.second, Deliver(Give(OpenUnsafe)));
    p.(second := second,
       stage := if p.stage != Entering then p.stage
                else if p.second.door.logic == Idle && second.door.logic == InitOpen then Following
                else Over)
  }

  function Moves(p: Pair, moves: seq<Move>): Pair
    decreases |moves|
  {
    if moves == [] then p else Moves(Proceed(p, moves[0]), moves[1..])
  }

  predicate AllArePrompt(p: Pair, moves: seq<Move>)
    decreases |moves|
  {
    moves == [] || (IsPrompt(p, moves[0]) && AllArePrompt(Proceed(p, moves[0]), moves[1..]))
  }

  /** The daemon has just been asked to open, and has told the first controller to open and to
      wait for somebody to enter. */
  function Begun(via: P.Door, first: Clock, second: Clock, daemon: P.Machine): Pair {
    Pair(via, Tock(first, Deliver(Give(OpenSafe))), second, P.Next(daemon, PR.EntryRequest(via)), Entering, 0)
  }

  predicate IsOnTime(p: Pair) {
    && IsPunctual(p.first) && IsPunctual(p.second)
    && match p.stage
       case Entering => IsOpening(p.first.door.logic) && !p.first.door.unsafeAction && p.since == p.first.elapsed
       case Following =>
         && IsOpening(p.second.door.logic) && p.second.door.unsafeAction
         && p.since <= LONGEST_ENTRY + p.second.elapsed
       case Over => p.since <= LONGEST_ENTRY + LONGEST_UNLOCKING
  }

  /** An unsafe opening goes on as one until the machine is idle. */
  lemma UnsafeOpeningEndsIdle(d: Door, input: Input)
    requires d.logic in {InitOpen, WaitForUnlocked} && d.unsafeAction
    ensures var after := React(d, input).door;
            after.logic == Idle || (after.logic in {InitOpen, WaitForUnlocked} && after.unsafeAction)
  {
  }

  lemma TimePassesOnTime(p: Pair, ms: nat)
    requires IsOnTime(p) && IsPrompt(p, Both(ms))
    ensures IsOnTime(Proceed(p, Both(ms)))
  {
    TickKeepsPunctual(p.first, Pass(ms));
    TickKeepsPunctual(p.second, Pass(ms));
  }

  lemma FirstIsOnTime(p: Pair, t: Tick)
    requires IsOnTime(p) && IsPrompt(p, AtFirst(t))
    ensures IsOnTime(Proceed(p, AtFirst(t)))
  {
    TickKeepsPunctual(p.first, t);
    TickKeepsPunctual(p.second, Deliver(Give(OpenUnsafe)));
    if t.Deliver? {
      OpeningsArePaidFor(p.first.door, t.input);
    }
  }

  lemma SecondIsOnTime(p: Pair, t: Tick)
    requires IsOnTime(p) && IsPrompt(p, AtSecond(t))
    ensures IsOnTime(Proceed(p, AtSecond(t)))
  {
    TickKeepsPunctual(p.second, t);
    if p.stage == Following && t.Deliver? {
      UnsafeOpeningEndsIdle(p.second.door, t.input);
    }
  }

  lemma {:induction false} PairsAreOnTime(p: Pair, moves: seq<Move>)
    requires IsOnTime(p) && AllArePrompt(p, moves)
    ensures IsOnTime(Moves(p, moves))
    decreases |moves|
  {
    if moves != [] {
      match moves[0] {
        case Both(ms) => TimePassesOnTime(p, ms);
        case AtFirst(t) => FirstIsOnTime(p, t);
        case AtSecond(t) => SecondIsOnTime(p, t);
        case AtDaemon(_) =>
      }
      PairsAreOnTime(Proceed(p, moves[0]), moves[1..]);
    }
  }

  /** Whatever happens, with prompt timeouts and no delay between daemon and controllers, an
      opening that the first controller takes up is over after at most 100200 ms, and until then
      the daemon does not give it up. */
  lemma OpeningsEndBeforeTheDaemonGivesUp(via: P.Door, first: Clock, second: Clock, daemon: P.Machine, moves: seq<Move>)
    requires IsPunctual(first) && IsPunctual(second) && first.door.logic == Idle && first.door.state == Locked
    requires AllArePrompt(Begun(via, first, second, daemon), moves)
    ensures var p := Moves(Begun(via, first, second, daemon), moves);
            p.since <= LONGEST_ENTRY + LONGEST_UNLOCKING && !IsPrompt(p, AtDaemon(P.Timeout))
  {
    TickKeepsPunctual(first, Deliver(Give(OpenSafe)));
    PairsAreOnTime(Begun(via, first, second, daemon), moves);
  }

  /** The command is given in time: a daemon that waits for somebody at the first door commands
      the other exactly when the first reports open while the shack is not. */
  lemma EntryIsAnswered(p: Pair, t: Tick)
    requires p.daemon.activity == P.WaitForOpenVia(p.via)
    ensures PR.UnsafeOpening(P.Other(p.via)) in Answer(p, p.via, t) <==>
            Publication(t) == Open && P.ShackState(DaemonAfter(p, p.via, t)) != P.ShackOpen
  {
    if Publication(t) != Fault {
      var event := Reported(p.via, Publication(t));
      PR.CommandsWhileOpening(p.via, P.View(p.daemon, p.via), event, P.ShackState(P.Observe(p.daemon, event)), P.Other(p.via));
    }
  }
}
