/** What each signal and each state of a door controller is for: the reactions of module
    DoorMachine read the other way round.  Then what this means for the people at the door: a
    controller that says nobody entered has not been told that the door was open. */
module DoorCauses {
  import opened DoorMachine
  import opened DoorRuns

  // ---- The circumstances ----

  /** The input reports a state that the machine did not believe. */
  predicate Finds(d: Door, input: Input, state: DoorState) {
    input == Report(state) && d.state != state
  }

  predicate Obeys(d: Door, input: Input, order: Order) {
    d.logic == Idle && input == Give(order)
  }

  predicate TimesOut(d: Door, input: Input, logic: Logic) {
    d.logic == logic && input == Give(Timeout)
  }

  predicate BeginsOpening(d: Door, input: Input) {
    (Obeys(d, input, OpenSafe) || Obeys(d, input, OpenUnsafe)) && d.state == Locked
  }

  predicate FindsUnlocked(d: Door, input: Input) {
    d.logic == WaitForUnlocked && (Finds(d, input, Closed) || Finds(d, input, Open))
  }

  /** The circumstances in which a signal is given. */
  predicate Calls(d: Door, input: Input, signal: Signal) {
    match signal
    case SignalOpening => BeginsOpening(d, input)
    case SignalUnlocked => FindsUnlocked(d, input)
    case SignalOpened =>
      || (d.logic == WaitForOpen && Finds(d, input, Open))
      || (d.logic == WaitForUnlocked && !d.unsafeAction && Finds(d, input, Open))
    case SignalNoEntry => TimesOut(d, input, WaitForOpen)
    case SignalWaitForDoorClosed => Obeys(d, input, Close) && d.state == Open
    case SignalLocking => d.logic == WaitForClosed && Finds(d, input, Closed)
    case SignalLocked => d.logic == WaitForLocked && Finds(d, input, Locked)
    case SignalErrorOpening => TimesOut(d, input, WaitForUnlocked)
    case SignalErrorLocking => TimesOut(d, input, WaitForLocked)
    case SignalCloseTimeout => TimesOut(d, input, WaitForClosed)
    case SignalManuallyLocked => d.logic == Idle && Finds(d, input, Locked)
    case SignalManuallyUnlocked =>
      d.logic == Idle && d.state == Locked && (Finds(d, input, Closed) || Finds(d, input, Open) || Finds(d, input, Fault))
  }

  /** The circumstances in which a state is entered. */
  predicate Enters(d: Door, input: Input, logic: Logic) {
    match logic
    case InitOpen => BeginsOpening(d, input)
    case WaitForUnlocked => TimesOut(d, input, InitOpen)
    case WaitForOpen => d.logic == WaitForUnlocked && !d.unsafeAction && Finds(d, input, Closed)
    case WaitForClosed => Obeys(d, input, Close) && d.state == Open
    case InitLock =>
      || (Obeys(d, input, Close) && d.state == Closed)
      || (d.logic == WaitForClosed && Finds(d, input, Closed))
      || TimesOut(d, input, WaitForOpen)
    case WaitForLocked => TimesOut(d, input, InitLock)
    case Idle =>
      || (FindsUnlocked(d, input) && (d.unsafeAction || Finds(d, input, Open)))
      || (d.logic == WaitForOpen && Finds(d, input, Open))
      || (d.logic == WaitForLocked && Finds(d, input, Locked))
      || TimesOut(d, input, WaitForUnlocked) || TimesOut(d, input, WaitForClosed) || TimesOut(d, input, WaitForLocked)
  }

  /** How long the machine stays in a state at most, in milliseconds. */
  function Stay(logic: Logic): nat {
    match logic
    case Idle => 0
    case InitOpen => 100
    case WaitForUnlocked => 20000
    case WaitForOpen => 60000
    case WaitForClosed => 30000
    case InitLock => 100
    case WaitForLocked => 20000
  }

  // ---- The reactions ----

  predicate HasItsSignal(d: Door, input: Input, signal: Signal) {
    signal in React(d, input).signals <==> Calls(d, input, signal)
  }

  predicate HasItsState(d: Door, input: Input, logic: Logic) {
    var after := React(d, input).door.logic;
    (Enters(d, input, logic) ==> after == logic) && (after == logic != d.logic ==> Enters(d, input, logic))
  }

  /** Each signal is given in its circumstances and in no others. */
  lemma SignalsHaveTheirCauses(d: Door, input: Input, signal: Signal)
    ensures signal in React(d, input).signals <==> Calls(d, input, signal)
  {
    match input
    case Report(state) =>
      if d.logic == Idle {
        IdleReportSignals(d, state, signal);
      } else if d.logic == WaitForUnlocked {
        UnlockingReportSignals(d, state, signal);
      } else {
        OtherReportSignals(d, state, signal);
      }
    case Give(order) => OrderSignals(d, order, signal);
  }

  lemma IdleReportSignals(d: Door, state: DoorState, signal: Signal)
    requires d.logic == Idle
    ensures HasItsSignal(d, Report(state), signal)
  {
  }

  lemma UnlockingReportSignals(d: Door, state: DoorState, signal: Signal)
    requires d.logic == WaitForUnlocked
    ensures HasItsSignal(d, Report(state), signal)
  {
  }

  lemma OtherReportSignals(d: Door, state: DoorState, signal: Signal)
    requires d.logic !in {Idle, WaitForUnlocked}
    ensures HasItsSignal(d, Report(state), signal)
  {
  }

  lemma OrderSignals(d: Door, order: Order, signal: Signal)
    ensures HasItsSignal(d, Give(order), signal)
  {
    match order case Timeout => case Close => case _ =>
  }

  /** Each state is entered in its circumstances, and in no others. */
  lemma StatesHaveTheirCauses(d: Door, input: Input, logic: Logic)
    ensures Enters(d, input, logic) ==> React(d, input).door.logic == logic
    ensures React(d, input).door.logic == logic != d.logic ==> Enters(d, input, logic)
  {
    match input
    case Report(state) =>
      if d.logic == WaitForUnlocked {
        UnlockingReportStates(d, state, logic);
      } else {
        OtherReportStates(d, state, logic);
      }
    case Give(order) =>
      if order == Timeout {
        TimeoutStates(d, logic);
      } else {
        OrderStates(d, order, logic);
      }
  }

  lemma UnlockingReportStates(d: Door, state: DoorState, logic: Logic)
    requires d.logic == WaitForUnlocked
    ensures HasItsState(d, Report(state), logic)
  {
  }

  lemma OtherReportStates(d: Door, state: DoorState, logic: Logic)
    requires d.logic != WaitForUnlocked
    ensures HasItsState(d, Report(state), logic)
  {
  }

  lemma TimeoutStates(d: Door, logic: Logic)
    ensures HasItsState(d, Give(Timeout), logic)
  {
  }

  lemma OrderStates(d: Door, order: Order, logic: Logic)
    requires order != Timeout
    ensures HasItsState(d, Give(order), logic)
  {
  }

  /** What the machine believes of its door is what it was told last. */
  lemma ReportsAreBelieved(d: Door, input: Input)
    ensures React(d, input).door.state == if input.Report? then input.state else d.state
  {
  }

  /** Entering a state starts its timeout afresh; becoming idle stops it; all else leaves it. */
  lemma TimeoutsFollowStates(d: Door, input: Input)
    ensures var r := React(d, input);
            r.timer == if r.door.logic == d.logic then Keep else if r.door.logic == Idle then Stop
                       else Start(Stay(r.door.logic))
  {
  }

  /** What the sender of an order is told. */
  lemma OutcomesAreExact(d: Door, order: Order)
    ensures var told := OnOrder(d, order).1;
            && (told == InProgress <==> order != Timeout && d.logic != Idle)
            && (told == Unexpected <==> order != Timeout && d.logic == Idle && d.state == Fault)
  {
  }

  // ---- The course of a run ----

  /** The machine before each input of a run, and after the last. */
  function History(d: Door, inputs: seq<Input>): (doors: seq<Door>)
    ensures |doors| == |inputs| + 1
  {
    seq(|inputs| + 1, i requires 0 <= i <= |inputs| => Run(d, inputs[..i]))
  }

  ghost predicate IsHistory(doors: seq<Door>, inputs: seq<Input>) {
    && |doors| == |inputs| + 1
    && (exists state :: doors[0] == Boot(state))
    && forall i :: 0 <= i < |inputs| ==> Follows(doors, inputs, i)
  }

  ghost predicate Follows(doors: seq<Door>, inputs: seq<Input>, i: nat)
    requires i < |inputs| < |doors|
  {
    doors[i+1] == React(doors[i], inputs[i]).door
  }

  lemma HistoriesAreRuns(state: DoorState, inputs: seq<Input>)
    ensures IsHistory(History(Boot(state), inputs), inputs)
  {
    var doors := History(Boot(state), inputs);
    assert inputs[..0] == [] && doors[0] == Boot(state);
    forall i | 0 <= i < |inputs|
      ensures Follows(doors, inputs, i)
    {
      assert inputs[..i+1][..i] == inputs[..i];
    }
  }

  // ---- The door that is being waited for ----

  /** A machine that waits for somebody to move the door does not believe it moved already. */
  predicate IsExpectant(d: Door) {
    && (d.logic == WaitForOpen ==> d.state != Open)
    && (d.logic == WaitForClosed ==> d.state != Closed)
  }

  lemma StepKeepsExpectant(d: Door, input: Input)
    requires IsExpectant(d)
    ensures IsExpectant(React(d, input).door)
  {
  }

  lemma {:induction false} ExpectantAlways(doors: seq<Door>, inputs: seq<Input>, j: nat)
    requires IsHistory(doors, inputs) && j < |doors|
    ensures IsExpectant(doors[j])
  {
    if j > 0 {
      ExpectantAlways(doors, inputs, j - 1);
      assert Follows(doors, inputs, j - 1);
      StepKeepsExpectant(doors[j-1], inputs[j-1]);
    }
  }

  predicate Answers(d: Door, state: DoorState, signals: seq<Signal>, logic: Logic) {
    var r := React(d, Report(state));
    r.signals == signals && r.door.logic == logic
  }

  lemma AnswersOfExpectant(d: Door)
    requires IsExpectant(d)
    ensures d.logic == WaitForOpen ==> Answers(d, Open, [SignalOpened], Idle)
    ensures d.logic == WaitForClosed ==> Answers(d, Closed, [SignalLocking], InitLock)
  {
  }

  /** On every run the report that is waited for takes the operation on at once where somebody
      has to move the door. */
  lemma AwaitedReportsAreAnswered(doors: seq<Door>, inputs: seq<Input>, j: nat)
    requires IsHistory(doors, inputs) && j < |doors|
    ensures doors[j].logic == WaitForOpen ==> Answers(doors[j], Open, [SignalOpened], Idle)
    ensures doors[j].logic == WaitForClosed ==> Answers(doors[j], Closed, [SignalLocking], InitLock)
  {
    ExpectantAlways(doors, inputs, j);
    AnswersOfExpectant(doors[j]);
  }

  /** Where the motor moves the bolt this is so exactly if the machine does not believe it
      moved already. */
  lemma BoltReportsAreAnsweredExactly(d: Door)
    ensures d.logic == WaitForLocked ==> (Answers(d, Locked, [SignalLocked], Idle) <==> d.state != Locked)
    ensures d.logic == WaitForUnlocked && !d.unsafeAction ==>
              && (Answers(d, Open, [SignalUnlocked, SignalOpened], Idle) <==> d.state != Open)
              && (Answers(d, Closed, [SignalUnlocked], WaitForOpen) <==> d.state != Closed)
    ensures d.logic == WaitForUnlocked && d.unsafeAction ==>
              && (Answers(d, Open, [SignalUnlocked], Idle) <==> d.state != Open)
              && (Answers(d, Closed, [SignalUnlocked], Idle) <==> d.state != Closed)
  {
  }

  /** The states before the bolt has moved, in which the door may be reported locked. */
  predicate BeforeBolt(logic: Logic) {
    logic in {WaitForClosed, WaitForOpen, InitLock, WaitForLocked}
  }

  /** Where a machine that waits for the bolt and believes it there has come from. */
  lemma BoltStep(d: Door, input: Input)
    requires BeforeBolt(React(d, input).door.logic) && React(d, input).door.state == Locked
    ensures BeforeBolt(d.logic)
    ensures d.state != Locked ==> input == Report(Locked) && d.logic != WaitForLocked
  {
  }

  /** The bolt is believed moved too early only if the door was reported locked before the
      machine began to wait for that, in the same operation. */
  lemma {:induction false} EarlyReportsAreMissed(doors: seq<Door>, inputs: seq<Input>, j: nat) returns (i: nat)
    requires IsHistory(doors, inputs) && j < |doors| && BeforeBolt(doors[j].logic) && doors[j].state == Locked
    ensures i < j && inputs[i] == Report(Locked) && doors[i].logic in {WaitForClosed, WaitForOpen, InitLock}
    ensures forall k :: i <= k <= j ==> BeforeBolt(doors[k].logic)
  {
    assert j > 0;
    assert Follows(doors, inputs, j - 1);
    BoltStep(doors[j-1], inputs[j-1]);
    if doors[j-1].state == Locked {
      i := EarlyReportsAreMissed(doors, inputs, j - 1);
    } else {
      i := j - 1;
    }
  }

  // ---- Entering ----

  /** Input `i` is the report at which the machine said UNLOCKED, and from then up to `j` the
      door was not reported open. */
  ghost predicate NotEnteredSince(doors: seq<Door>, inputs: seq<Input>, i: nat, j: nat)
    requires i < j < |doors| == |inputs| + 1
  {
    && inputs[i] == Report(Closed) && SignalUnlocked in React(doors[i], inputs[i]).signals
    && forall k :: i < k < j ==> inputs[k] != Report(Open)
  }

  lemma WaitingStep(d: Door, input: Input)
    requires React(d, input).door.logic == WaitForOpen && IsExpectant(d)
    ensures if d.logic == WaitForOpen then input != Report(Open)
            else input == Report(Closed) && SignalUnlocked in React(d, input).signals
  {
  }

  lemma {:induction false} WaitingSinceUnlocked(doors: seq<Door>, inputs: seq<Input>, j: nat) returns (i: nat)
    requires IsHistory(doors, inputs) && j < |doors| && doors[j].logic == WaitForOpen
    ensures i < j && NotEnteredSince(doors, inputs, i, j)
  {
    assert j > 0;
    assert Follows(doors, inputs, j - 1);
    ExpectantAlways(doors, inputs, j - 1);
    WaitingStep(doors[j-1], inputs[j-1]);
    if doors[j-1].logic == WaitForOpen {
      i := WaitingSinceUnlocked(doors, inputs, j - 1);
    } else {
      i := j - 1;
    }
  }

  lemma NoEntryEndsWaiting(d: Door, input: Input)
    requires SignalNoEntry in React(d, input).signals
    ensures d.logic == WaitForOpen && input == Give(Timeout)
  {
    SignalsHaveTheirCauses(d, input, SignalNoEntry);
  }

  /** On every run a controller says that nobody entered, and locks the door again, only if the
      door was not reported open since it was unlocked. */
  lemma NobodyWhoEnteredIsLockedIn(doors: seq<Door>, inputs: seq<Input>, j: nat)
    requires IsHistory(doors, inputs) && j < |inputs|
    requires SignalNoEntry in React(doors[j], inputs[j]).signals
    ensures inputs[j] == Give(Timeout)
    ensures exists i :: 0 <= i < j && NotEnteredSince(doors, inputs, i, j)
  {
    NoEntryEndsWaiting(doors[j], inputs[j]);
    var i := WaitingSinceUnlocked(doors, inputs, j);
  }
}
