/** What holds of every run of a door controller: which signals it can give, in which order,
    when its motor pins are active, and how long an operation can take. */
module DoorRuns {
  import opened DoorMachine

  // ---- Runs ----

  /** A step of the machine is a report of the door's state or an order. */
  datatype Input = Report(state: DoorState) | Give(order: Order)

  function React(d: Door, input: Input): Reaction {
    match input
    case Report(state) => OnReport(d, state)
    case Give(order) => OnOrder(d, order).0
  }

  function Run(d: Door, inputs: seq<Input>): Door {
    if inputs == [] then d
    else React(Run(d, inputs[..|inputs|-1]), inputs[|inputs|-1]).door
  }

  // ---- The language of a controller ----

  /** What an observer hears: the orders that started something, and all signals. */
  datatype Word = Asked(order: Order) | Said(signal: Signal)

  /** What is heard during one step. */
  function Heard(d: Door, input: Input): seq<Word> {
    var r := React(d, input);
    (if d.logic == Idle && r.door.logic != Idle && input.Give? then [Asked(input.order)] else [])
    + Spoken(r.signals)
  }

  function Spoken(signals: seq<Signal>): (words: seq<Word>)
    ensures |words| == |signals|
  {
    seq(|signals|, i requires 0 <= i < |signals| => Said(signals[i]))
  }

  function Story(d: Door, inputs: seq<Input>): seq<Word> {
    if inputs == [] then []
    else Story(d, inputs[..|inputs|-1]) + Heard(Run(d, inputs[..|inputs|-1]), inputs[|inputs|-1])
  }

  /** The complete tales an observer can be told: eleven courses of an operation, and the
      bolt being moved by hand. */
  predicate IsTale(tale: seq<Word>) {
    // opened safely: failure, entry, or nobody comes and the door is locked again
    || tale == [Asked(OpenSafe), Said(SignalOpening), Said(SignalErrorOpening)]
    || tale == [Asked(OpenSafe), Said(SignalOpening), Said(SignalUnlocked), Said(SignalOpened)]
    || tale == [Asked(OpenSafe), Said(SignalOpening), Said(SignalUnlocked), Said(SignalNoEntry), Said(SignalLocked)]
    || tale == [Asked(OpenSafe), Said(SignalOpening), Said(SignalUnlocked), Said(SignalNoEntry), Said(SignalErrorLocking)]
    // opened without waiting for anybody
    || tale == [Asked(OpenUnsafe), Said(SignalOpening), Said(SignalErrorOpening)]
    || tale == [Asked(OpenUnsafe), Said(SignalOpening), Said(SignalUnlocked)]
    // locked while open: somebody has to close the door first
    || tale == [Asked(Close), Said(SignalWaitForDoorClosed), Said(SignalCloseTimeout)]
    || tale == [Asked(Close), Said(SignalWaitForDoorClosed), Said(SignalLocking), Said(SignalLocked)]
    || tale == [Asked(Close), Said(SignalWaitForDoorClosed), Said(SignalLocking), Said(SignalErrorLocking)]
    // locked while closed
    || tale == [Asked(Close), Said(SignalLocked)]
    || tale == [Asked(Close), Said(SignalErrorLocking)]
    // moved by hand
    || tale == [Said(SignalManuallyLocked)]
    || tale == [Said(SignalManuallyUnlocked)]
  }

  /** The beginning of a tale, as far as it has been told in each state of the machine. */
  predicate IsToldSoFar(part: seq<Word>, d: Door) {
    match d.logic
    case Idle => part == []
    case InitOpen => part == [Asked(Opening(d)), Said(SignalOpening)]
    case WaitForUnlocked => part == [Asked(Opening(d)), Said(SignalOpening)]
    case WaitForOpen => part == [Asked(OpenSafe), Said(SignalOpening), Said(SignalUnlocked)]
    case WaitForClosed => part == [Asked(Close), Said(SignalWaitForDoorClosed)]
    case _ =>
      || part == [Asked(OpenSafe), Said(SignalOpening), Said(SignalUnlocked), Said(SignalNoEntry)]
      || part == [Asked(Close), Said(SignalWaitForDoorClosed), Said(SignalLocking)]
      || part == [Asked(Close)]
  }

  function Opening(d: Door): Order {
    if d.unsafeAction then OpenUnsafe else OpenSafe
  }

  function Joined(tales: seq<seq<Word>>): seq<Word> {
    if tales == [] then [] else Joined(tales[..|tales|-1]) + tales[|tales|-1]
  }

  /** One step goes on with the tale, or ends it. */
  lemma StepTells(d: Door, input: Input, part: seq<Word>)
    requires IsToldSoFar(part, d)
    ensures var told, after := part + Heard(d, input), React(d, input).door;
            IsToldSoFar(told, after) || (IsTale(told) && after.logic == Idle)
  {
    match d.logic
    case Idle => IdleTells(d, input);
    case InitOpen =>
      assert part + [] == part;
    case WaitForUnlocked => UnlockingTells(d, input, part);
    case WaitForOpen => EntryTells(d, input, part);
    case WaitForClosed => ClosingTells(d, input, part);
    case _ => LockingTells(d, input, part);
  }

  lemma IdleTells(d: Door, input: Input)
    requires d.logic == Idle
    ensures var told, after := [] + Heard(d, input), React(d, input).door;
            IsToldSoFar(told, after) || (IsTale(told) && after.logic == Idle)
  {
    match input
    case Report(state) =>
      assert Heard(d, input) == Spoken(OnReport(d, state).signals);
      HandMovesTell(d, state);
    case Give(order) => OrdersTell(d, order);
  }

  lemma HandMovesTell(d: Door, state: DoorState)
    requires d.logic == Idle
    ensures var told := Spoken(OnReport(d, state).signals);
            told == [] || IsTale(told)
  {
    if d.state != state && state == Locked {
      assert Spoken(OnReport(d, state).signals) == [Said(SignalManuallyLocked)];
    } else if d.state != state && d.state == Locked {
      assert Spoken(OnReport(d, state).signals) == [Said(SignalManuallyUnlocked)];
    }
  }

  lemma OrdersTell(d: Door, order: Order)
    requires d.logic == Idle
    ensures IsToldSoFar([] + Heard(d, Give(order)), React(d, Give(order)).door)
  {
  }

  lemma UnlockingTells(d: Door, input: Input, part: seq<Word>)
    requires d.logic == WaitForUnlocked && IsToldSoFar(part, d)
    ensures var told, after := part + Heard(d, input), React(d, input).door;
            IsToldSoFar(told, after) || (IsTale(told) && after.logic == Idle)
  {
    var told := part + Heard(d, input);
    match input
    case Report(state) =>
      if d.state == state || state !in {Closed, Open} {
        assert told == part;
      } else if d.unsafeAction {
        assert told == [Asked(OpenUnsafe), Said(SignalOpening), Said(SignalUnlocked)];
      } else if state == Closed {
        assert told == [Asked(OpenSafe), Said(SignalOpening), Said(SignalUnlocked)];
      } else {
        assert told == [Asked(OpenSafe), Said(SignalOpening), Said(SignalUnlocked), Said(SignalOpened)];
      }
    case Give(Timeout) =>
      assert told == [Asked(Opening(d)), Said(SignalOpening), Said(SignalErrorOpening)];
    case Give(_) =>
      assert told == part;
  }

  lemma EntryTells(d: Door, input: Input, part: seq<Word>)
    requires d.logic == WaitForOpen && IsToldSoFar(part, d)
    ensures var told, after := part + Heard(d, input), React(d, input).door;
            IsToldSoFar(told, after) || (IsTale(told) && after.logic == Idle)
  {
    assert part + [] == part;
  }

  lemma ClosingTells(d: Door, input: Input, part: seq<Word>)
    requires d.logic == WaitForClosed && IsToldSoFar(part, d)
    ensures var told, after := part + Heard(d, input), React(d, input).door;
            IsToldSoFar(told, after) || (IsTale(told) && after.logic == Idle)
  {
    assert part + [] == part;
  }

  lemma LockingTells(d: Door, input: Input, part: seq<Word>)
    requires d.logic in {InitLock, WaitForLocked} && IsToldSoFar(part, d)
    ensures var told, after := part + Heard(d, input), React(d, input).door;
            IsToldSoFar(told, after) || (IsTale(told) && after.logic == Idle)
  {
    assert part + [] == part;
  }

  ghost predicate AreTales(tales: seq<seq<Word>>) {
    forall tale <- tales :: IsTale(tale)
  }

  lemma OneMoreTale(tales: seq<seq<Word>>, tale: seq<Word>)
    requires AreTales(tales) && IsTale(tale)
    ensures AreTales(tales + [tale])
    ensures Joined(tales + [tale]) == Joined(tales) + tale
  {
    assert (tales + [tale])[..|tales|] == tales;
  }

  /** The story consists of complete tales and the beginning `part` of another. */
  ghost predicate Tells(story: seq<Word>, tales: seq<seq<Word>>, part: seq<Word>, d: Door) {
    && story == Joined(tales) + part
    && AreTales(tales)
    && IsToldSoFar(part, d)
  }

  lemma OneMoreStep(story: seq<Word>, tales: seq<seq<Word>>, part: seq<Word>, d: Door,
                    heard: seq<Word>, after: Door)
    returns (tales': seq<seq<Word>>, part': seq<Word>)
    requires Tells(story, tales, part, d)
    requires IsToldSoFar(part + heard, after) || (IsTale(part + heard) && after.logic == Idle)
    ensures Tells(story + heard, tales', part', after)
  {
    var told := part + heard;
    assert Joined(tales) + told == (Joined(tales) + part) + heard;
    if IsToldSoFar(told, after) {
      tales', part' := tales, told;
    } else {
      OneMoreTale(tales, told);
      tales', part' := tales + [told], [];
    }
  }

  /** Whatever happens, a controller tells complete tales one after the other, and at most
      one beginning of a tale; and none is begun exactly while it is idle. */
  lemma {:induction false} ControllersTellTales(state: DoorState, inputs: seq<Input>)
    returns (tales: seq<seq<Word>>, part: seq<Word>)
    ensures Tells(Story(Boot(state), inputs), tales, part, Run(Boot(state), inputs))
    ensures part == [] <==> Run(Boot(state), inputs).logic == Idle
  {
    if inputs == [] {
      tales, part := [], [];
    } else {
      var before, input := inputs[..|inputs|-1], inputs[|inputs|-1];
      tales, part := ControllersTellTales(state, before);
      var story, d := Story(Boot(state), before), Run(Boot(state), before);
      StepTells(d, input, part);
      tales, part := OneMoreStep(story, tales, part, d, Heard(d, input), React(d, input).door);
    }
    ToldUnlessIdle(part, Run(Boot(state), inputs));
  }

  lemma ToldUnlessIdle(part: seq<Word>, d: Door)
    requires IsToldSoFar(part, d)
    ensures part == [] <==> d.logic == Idle
  {
  }

  lemma {:induction false} RunUnfolds(d: Door, first: Input, rest: seq<Input>)
    ensures Run(d, [first] + rest) == Run(React(d, first).door, rest)
    decreases |rest|
  {
    var all := [first] + rest;
    if rest == [] {
      assert all[..0] == [];
    } else {
      assert all[..|rest|] == [first] + rest[..|rest|-1];
      RunUnfolds(d, first, rest[..|rest|-1]);
    }
  }

  lemma {:induction false} StoryUnfolds(d: Door, first: Input, rest: seq<Input>)
    ensures Story(d, [first] + rest) == Heard(d, first) + Story(React(d, first).door, rest)
    decreases |rest|
  {
    var all, after := [first] + rest, React(d, first).door;
    if rest == [] {
      assert all[..0] == [];
      assert [] + Heard(d, first) == Heard(d, first) + [];
    } else {
      var before, last := rest[..|rest|-1], rest[|rest|-1];
      assert all[..|rest|] == [first] + before;
      StoryUnfolds(d, first, before);
      RunUnfolds(d, first, before);
      Associate(Heard(d, first), Story(after, before), Heard(Run(after, before), last));
    }
  }

  lemma Associate(a: seq<Word>, b: seq<Word>, c: seq<Word>)
    ensures a + (b + c) == (a + b) + c
  {
  }

  lemma TimeoutTells(part: seq<Word>, d: Door)
    requires d.logic != Idle && IsToldSoFar(part, d)
    ensures var told, after := part + Heard(d, Give(Timeout)), React(d, Give(Timeout)).door;
            if after.logic == Idle then IsTale(told)
            else IsToldSoFar(told, after) && Rank(after.logic) < Rank(d.logic)
  {
    StepTells(d, Give(Timeout), part);
    ReactionIsTimed(d, Give(Timeout));
    ToldUnlessIdle(part, d);
  }

  lemma Continue(part: seq<Word>, d: Door, first: Input, rest: seq<Input>)
    ensures part + Story(d, [first] + rest) == (part + Heard(d, first)) + Story(React(d, first).door, rest)
    ensures Run(d, [first] + rest) == Run(React(d, first).door, rest)
  {
    StoryUnfolds(d, first, rest);
    RunUnfolds(d, first, rest);
    Associate(part, Heard(d, first), Story(React(d, first).door, rest));
  }

  /** No beginning is a dead end: whatever a busy machine believes, at most five timeouts make
      it idle, and what was told until then is a complete tale. */
  lemma {:induction false} TimeoutsCompleteTales(part: seq<Word>, d: Door) returns (timeouts: seq<Input>)
    requires d.logic != Idle && IsToldSoFar(part, d)
    ensures |timeouts| <= Rank(d.logic) && forall input <- timeouts :: input == Give(Timeout)
    ensures Run(d, timeouts).logic == Idle && IsTale(part + Story(d, timeouts))
    decreases Rank(d.logic)
  {
    var timeout := Give(Timeout);
    var told, after := part + Heard(d, timeout), React(d, timeout).door;
    TimeoutTells(part, d);
    var rest: seq<Input> := [];
    if after.logic == Idle {
      assert told + Story(after, rest) == told;
    } else {
      rest := TimeoutsCompleteTales(told, after);
    }
    Continue(part, d, timeout, rest);
    timeouts := [timeout] + rest;
  }

  // ---- Motor pins and the unsafe flag ----

  /** The OPEN pin is active exactly while the open button is being pressed, the CLOSE pin
      exactly while the close button is, so never both at once; and a door is only awaited
      to be entered after a safe order. */
  predicate PinsFollowState(d: Door) {
    && (d.openPin <==> d.logic == InitOpen)
    && (d.closePin <==> d.logic == InitLock)
    && (d.logic == WaitForOpen ==> !d.unsafeAction)
  }

  lemma StepKeepsPins(d: Door, input: Input)
    requires PinsFollowState(d)
    ensures PinsFollowState(React(d, input).door)
  {
  }

  lemma {:induction false} PinsFollowStateAlways(state: DoorState, inputs: seq<Input>)
    ensures PinsFollowState(Run(Boot(state), inputs))
  {
    if inputs != [] {
      PinsFollowStateAlways(state, inputs[..|inputs|-1]);
      StepKeepsPins(Run(Boot(state), inputs[..|inputs|-1]), inputs[|inputs|-1]);
    }
  }

  /** An order to open that an idle machine takes note of. */
  predicate IsOpening(input: Input) {
    input in {Give(OpenSafe), Give(OpenUnsafe)}
  }

  /** Exactly when the flag of an unsafe order is set in a machine that is idle after a step. */
  lemma UnsafeFlagAfterStep(d: Door, input: Input)
    requires React(d, input).door.logic == Idle
    ensures React(d, input).door.unsafeAction <==>
            d.logic == Idle &&
            ((input == Give(OpenUnsafe) && d.state != Locked) || (d.unsafeAction && !IsOpening(input)))
  {
  }

  /** The machine before each input of a run. */
  function Course(d: Door, inputs: seq<Input>): (doors: seq<Door>)
    ensures |doors| == |inputs|
  {
    seq(|inputs|, i requires 0 <= i < |inputs| => Run(d, inputs[..i]))
  }

  /** Input `k` ordered a door that was not locked open, unsafely, and since then the machine
      has been idle and was not ordered to open again. */
  ghost predicate LingersSince(doors: seq<Door>, inputs: seq<Input>, k: nat)
    requires k < |inputs| == |doors|
  {
    && inputs[k] == Give(OpenUnsafe) && doors[k].state != Locked
    && (forall i :: k <= i < |inputs| ==> doors[i].logic == Idle)
    && (forall i :: k < i < |inputs| ==> !IsOpening(inputs[i]))
  }

  /** The flag of an unsafe order outlives it, in an idle machine, if and only if the last
      order to open since the machine was last busy was an unsafe one to a door that was not
      locked. */
  lemma {:induction false} UnsafeFlagLingersExactly(state: DoorState, inputs: seq<Input>)
    requires Run(Boot(state), inputs).logic == Idle
    ensures Run(Boot(state), inputs).unsafeAction <==>
            exists k :: 0 <= k < |inputs| && LingersSince(Course(Boot(state), inputs), inputs, k)
  {
    if inputs != [] {
      var n := |inputs| - 1;
      var doors := Course(Boot(state), inputs);
      UnsafeFlagAfterStep(doors[n], inputs[n]);
      if doors[n].logic == Idle {
        UnsafeFlagLingersExactly(state, inputs[..n]);
        assert Course(Boot(state), inputs[..n]) == doors[..n] by {
          assert forall i :: 0 <= i < n ==> inputs[..n][..i] == inputs[..i];
        }
      }
      LingeringGoesOn(doors, inputs);
    }
  }

  lemma LingeringGoesOn(doors: seq<Door>, inputs: seq<Input>)
    requires |doors| == |inputs| > 0
    ensures var n := |inputs| - 1;
            (exists k :: 0 <= k <= n && LingersSince(doors, inputs, k)) <==>
            doors[n].logic == Idle &&
            ((inputs[n] == Give(OpenUnsafe) && doors[n].state != Locked)
             || (!IsOpening(inputs[n]) && exists k :: 0 <= k < n && LingersSince(doors[..n], inputs[..n], k)))
  {
    var n := |inputs| - 1;
    forall k | 0 <= k < n
      ensures LingersSince(doors, inputs, k) <==>
              LingersSince(doors[..n], inputs[..n], k) && doors[n].logic == Idle && !IsOpening(inputs[n])
    {
      OneMoreIdleInput(doors, inputs, k);
    }
    assert LingersSince(doors, inputs, n) <==>
      inputs[n] == Give(OpenUnsafe) && doors[n].state != Locked && doors[n].logic == Idle;
  }

  lemma OneMoreIdleInput(doors: seq<Door>, inputs: seq<Input>, k: nat)
    requires k + 1 < |inputs| == |doors|
    ensures var n := |inputs| - 1;
            LingersSince(doors, inputs, k) <==>
            LingersSince(doors[..n], inputs[..n], k) && doors[n].logic == Idle && !IsOpening(inputs[n])
  {
    var n := |inputs| - 1;
    assert forall i :: 0 <= i < n ==> doors[..n][i] == doors[i] && inputs[..n][i] == inputs[i];
  }

  /** The simplest case: an unlocked door is told to open. */
  lemma UnsafeFlagCanLinger()
    ensures var d := Run(Boot(Closed), [Give(OpenUnsafe)]);
            d.logic == Idle && d.unsafeAction
  {
    assert [Give(OpenUnsafe)][..0] == [];
  }

  /** Two machines that differ at most in the flag, and not even there while it matters. */
  predicate DifferInFlag(d: Door, e: Door) {
    && e == d.(unsafeAction := e.unsafeAction)
    && (d.logic in {InitOpen, WaitForUnlocked} ==> e == d)
  }

  lemma FlagStaysUnheard(d: Door, e: Door, input: Input)
    requires DifferInFlag(d, e)
    ensures DifferInFlag(React(d, input).door, React(e, input).door)
    ensures React(d, input).signals == React(e, input).signals && React(d, input).timer == React(e, input).timer
    ensures Heard(d, input) == Heard(e, input)
  {
    match input
    case Report(state) => FlagIsNotReported(d, e, state);
    case Give(order) => FlagIsNotObeyed(d, e, order);
  }

  lemma FlagIsNotReported(d: Door, e: Door, state: DoorState)
    requires DifferInFlag(d, e)
    ensures var r, q := OnReport(d, state), OnReport(e, state);
            DifferInFlag(r.door, q.door) && r.signals == q.signals && r.timer == q.timer
  {
  }

  lemma FlagIsNotObeyed(d: Door, e: Door, order: Order)
    requires DifferInFlag(d, e)
    ensures var r, q := OnOrder(d, order).0, OnOrder(e, order).0;
            DifferInFlag(r.door, q.door) && r.signals == q.signals && r.timer == q.timer
  {
  }

  /** A flag that lingers while the machine is idle is without consequence: whatever happens
      next, nobody hears a difference, and the pins do the same. */
  lemma {:induction false} LingeringFlagIsHarmless(d: Door, inputs: seq<Input>)
    requires d.logic == Idle
    ensures Story(d, inputs) == Story(d.(unsafeAction := false), inputs)
    ensures DifferInFlag(Run(d, inputs), Run(d.(unsafeAction := false), inputs))
  {
    var e := d.(unsafeAction := false);
    if inputs != [] {
      var n := |inputs| - 1;
      LingeringFlagIsHarmless(d, inputs[..n]);
      FlagStaysUnheard(Run(d, inputs[..n]), Run(e, inputs[..n]), inputs[n]);
    }
  }

  // ---- Time ----

  /** A controller in time: its timeout task with the time it has left, whether a timeout
      is waiting to be delivered, and how long the current or last operation has taken. */
  datatype Clock = Clock(door: Door, running: bool, left: nat, pending: bool, elapsed: nat)

  datatype Tick =
    | Pass(ms: nat)          // time passes
    | Expire                 // the timeout task ends and leaves a timeout to be delivered
    | Deliver(input: Input)  // a report or an order reaches the machine; timeouts may be stale

  /** Time cannot pass beyond the end of a running timeout, and only a timeout whose time
      is up expires. */
  predicate Possible(c: Clock, t: Tick) {
    match t
    case Pass(ms) => c.running ==> ms <= c.left
    case Expire => c.running && c.left == 0
    case Deliver(_) => true
  }

  /** Timeouts are delivered without delay. */
  predicate Prompt(c: Clock, t: Tick) {
    Possible(c, t) && (t.Pass? && t.ms > 0 ==> !c.pending)
  }

  function Tock(c: Clock, t: Tick): Clock {
    match t
    case Pass(ms) =>
      c.(left := if c.running && ms <= c.left then c.left - ms else c.left,
         elapsed := if c.door.logic == Idle then c.elapsed else c.elapsed + ms)
    case Expire => c.(running := false, pending := true)
    case Deliver(input) =>
      var r := React(c.door, input);
      Clock(r.door,
            match r.timer case Keep => c.running case Stop => false case Start(_) => true,
            match r.timer case Start(ms) => ms case _ => c.left,
            c.pending && input != Give(Timeout),
            if c.door.logic == Idle && r.door.logic != Idle then 0 else c.elapsed)
  }

  function Passing(c: Clock, ticks: seq<Tick>): Clock
    decreases |ticks|
  {
    if ticks == [] then c else Passing(Tock(c, ticks[0]), ticks[1..])
  }

  predicate AllPossible(c: Clock, ticks: seq<Tick>)
    decreases |ticks|
  {
    ticks == [] || (Possible(c, ticks[0]) && AllPossible(Tock(c, ticks[0]), ticks[1..]))
  }

  predicate AllPrompt(c: Clock, ticks: seq<Tick>)
    decreases |ticks|
  {
    ticks == [] || (Prompt(c, ticks[0]) && AllPrompt(Tock(c, ticks[0]), ticks[1..]))
  }

  function Fresh(state: DoorState): Clock {
    Clock(Boot(state), false, 0, false, 0)
  }

  /** A busy machine's timeout is running or about to be delivered; an idle one has none. */
  predicate IsTimed(c: Clock) {
    if c.door.logic == Idle then !c.running else c.running || c.pending
  }

  lemma ReactionIsTimed(d: Door, input: Input)
    ensures var r := React(d, input);
            && (r.door.logic == Idle ==> r.timer == Stop || (r.timer == Keep && d.logic == Idle))
            && (r.door.logic != Idle ==> r.timer.Start? || (r.timer == Keep && d.logic == r.door.logic))
            && (d.logic != Idle && input == Give(Timeout) ==> r.timer != Keep)
  {
  }

  /** No controller is ever stuck: whatever happens, stale timeouts included, a busy machine
      has a timeout running or pending. */
  lemma {:induction false} BusyControllersAreTimed(c: Clock, ticks: seq<Tick>)
    requires IsTimed(c) && AllPossible(c, ticks)
    ensures IsTimed(Passing(c, ticks))
    decreases |ticks|
  {
    if ticks != [] {
      if ticks[0].Deliver? {
        ReactionIsTimed(c.door, ticks[0].input);
      }
      BusyControllersAreTimed(Tock(c, ticks[0]), ticks[1..]);
    }
  }

  /** The timeouts that may still be asked for after those of a state, in milliseconds. */
  function After(logic: Logic): nat {
    match logic
    case Idle => 0
    case WaitForLocked => 0
    case InitLock => 20000
    case WaitForClosed => 100 + 20000
    case WaitForOpen => 100 + 20000
    case WaitForUnlocked => 60000 + 100 + 20000
    case InitOpen => 20000 + 60000 + 100 + 20000
  }

  const LONGEST_OPERATION := 100200    // ms
  const DAEMON_TIMEOUT := 120000       // ms

  /** The time taken and the time that can still be taken stay within the limit. */
  predicate InTime(c: Clock) {
    && IsTimed(c)
    && c.elapsed + (if c.running then c.left else 0) + After(c.door.logic) <= LONGEST_OPERATION
  }

  /** Each state an operation enters is paid for by the state it leaves. */
  lemma TimeoutsArePaidFor(d: Door, input: Input)
    ensures var r := React(d, input);
            && (r.timer.Start? ==>
                  r.timer.ms + After(r.door.logic) <= if d.logic == Idle then LONGEST_OPERATION else After(d.logic))
            && (r.timer == Keep ==> r.door.logic == d.logic)
            && (r.timer == Stop ==> r.door.logic == Idle)
  {
  }

  lemma TickKeepsTime(c: Clock, t: Tick)
    requires InTime(c) && Prompt(c, t)
    ensures InTime(Tock(c, t))
  {
    if t.Deliver? {
      ReactionIsTimed(c.door, t.input);
      TimeoutsArePaidFor(c.door, t.input);
    }
  }

  /** With timeouts delivered promptly no operation takes longer than 100200 ms, whatever
      else happens. */
  lemma {:induction false} OperationsEndInTime(c: Clock, ticks: seq<Tick>)
    requires InTime(c) && AllPrompt(c, ticks)
    ensures InTime(Passing(c, ticks)) && Passing(c, ticks).elapsed <= LONGEST_OPERATION < DAEMON_TIMEOUT
    decreases |ticks|
  {
    if ticks != [] {
      TickKeepsTime(c, ticks[0]);
      OperationsEndInTime(Tock(c, ticks[0]), ticks[1..]);
    }
  }

  /** In particular from the start of a controller on. */
  lemma EveryOperationEndsInTime(state: DoorState, ticks: seq<Tick>)
    requires AllPrompt(Fresh(state), ticks)
    ensures Passing(Fresh(state), ticks).elapsed <= LONGEST_OPERATION < DAEMON_TIMEOUT
  {
    OperationsEndInTime(Fresh(state), ticks);
  }

  /** Each change of state within an operation lowers a rank. */
  lemma StatesOfAnOperationDescend(d: Door, input: Input)
    requires d.logic != Idle && React(d, input).door.logic !in {Idle, d.logic}
    ensures Rank(React(d, input).door.logic) < Rank(d.logic)
  {
  }

  /** A machine that leaves a state does not come back to it before it has been idle. */
  lemma {:induction false} StatesAreNotRevisited(state: DoorState, inputs: seq<Input>, i: nat, j: nat)
    requires i <= j <= |inputs|
    requires forall k :: i <= k <= j ==> Run(Boot(state), inputs[..k]).logic != Idle
    ensures Rank(Run(Boot(state), inputs[..j]).logic) <= Rank(Run(Boot(state), inputs[..i]).logic)
    ensures Run(Boot(state), inputs[..j]).logic == Run(Boot(state), inputs[..i]).logic ==>
              forall k :: i <= k <= j ==> Run(Boot(state), inputs[..k]).logic == Run(Boot(state), inputs[..i]).logic
    decreases j
  {
    if i < j {
      StatesAreNotRevisited(state, inputs, i, j - 1);
      assert inputs[..j][..j-1] == inputs[..j-1];
      var d := Run(Boot(state), inputs[..j-1]);
      if React(d, inputs[j-1]).door.logic != d.logic {
        StatesOfAnOperationDescend(d, inputs[j-1]);
      }
    }
  }

  function Rank(logic: Logic): nat {
    match logic
    case InitOpen => 5
    case WaitForUnlocked => 4
    case WaitForOpen => 3
    case WaitForClosed => 3
    case InitLock => 2
    case WaitForLocked => 1
    case Idle => 0
  }

  lemma Prepend(c: Clock, t: Tick, ticks: seq<Tick>) returns (all: seq<Tick>)
    requires Prompt(c, t) && AllPrompt(Tock(c, t), ticks)
    ensures all == [t] + ticks && AllPrompt(c, all) && Passing(c, all) == Passing(Tock(c, t), ticks)
  {
    all := [t] + ticks;
    assert all[1..] == ticks;
  }

  /** The limit is reached: the door unlocks at the last moment, nobody enters, and the bolt
      engages at the last moment. */
  lemma LongestOperationOccurs() returns (ticks: seq<Tick>)
    ensures AllPrompt(Fresh(Locked), ticks)
    ensures var c := Passing(Fresh(Locked), ticks);
            c.door.logic == Idle && c.elapsed == LONGEST_OPERATION
  {
    var asked := Tock(Fresh(Locked), Deliver(Give(OpenSafe)));
    var pressed := Tock(Tock(Tock(asked, Pass(100)), Expire), Deliver(Give(Timeout)));
    var unlocked := Tock(Tock(pressed, Pass(20000)), Deliver(Report(Closed)));
    var deserted := Tock(Tock(Tock(unlocked, Pass(60000)), Expire), Deliver(Give(Timeout)));
    var locking := Tock(Tock(Tock(deserted, Pass(100)), Expire), Deliver(Give(Timeout)));
    ticks := Prepend(Tock(locking, Pass(20000)), Deliver(Report(Locked)), []);
    ticks := Prepend(locking, Pass(20000), ticks);
    ticks := ThroughTimeout(deserted, 100, ticks);
    ticks := ThroughTimeout(unlocked, 60000, ticks);
    ticks := Prepend(Tock(pressed, Pass(20000)), Deliver(Report(Closed)), ticks);
    ticks := Prepend(pressed, Pass(20000), ticks);
    ticks := ThroughTimeout(asked, 100, ticks);
    ticks := Prepend(Fresh(Locked), Deliver(Give(OpenSafe)), ticks);
  }

  lemma ThroughTimeout(c: Clock, ms: nat, ticks: seq<Tick>) returns (all: seq<Tick>)
    requires c.running && c.left == ms && !c.pending
    requires AllPrompt(Tock(Tock(Tock(c, Pass(ms)), Expire), Deliver(Give(Timeout))), ticks)
    ensures AllPrompt(c, all)
    ensures Passing(c, all) == Passing(Tock(Tock(Tock(c, Pass(ms)), Expire), Deliver(Give(Timeout))), ticks)
  {
    var waited := Tock(c, Pass(ms));
    all := Prepend(Tock(waited, Expire), Deliver(Give(Timeout)), ticks);
    all := Prepend(waited, Expire, all);
    all := Prepend(c, Pass(ms), all);
  }
}
