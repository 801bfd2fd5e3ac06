/** What the daemon does when it is left alone: nothing arrives any more, time passes and the
    timer expires.  It comes to rest, asleep, and nobody who asked to close is connected then.
    But it may have fallen asleep on an operation that nobody times. */
module DaemonWaiting {
  import opened PortalMachine
  import opened PortalRuns
  import opened LoopBursts
  import opened PortalStateMachine
  import opened SignalRing
  import opened ClientTable
  import opened DaemonModel
  import opened DaemonLemmas
  import opened DaemonRuns
  import opened DaemonScenarios
  import opened DaemonTimeouts
  import opened Topics

  // ---- Being left alone ----

  /** What can happen when nothing arrives. */
  predicate IsQuiet(a: Action) {
    a in {NextSignal, Turn, TimerExpires, TimerRead, Wake(ByTimer)}
  }

  ghost predicate IsQuietRun(trace: seq<Daemon>, actions: seq<Action>)
    decreases |actions|
  {
    && |trace| == |actions| + 1
    && (actions == [] ||
        (IsQuiet(actions[0]) && Leads(trace[0], actions[0], trace[1]) && IsQuietRun(trace[1..], actions[1..])))
  }

  /** Nothing happens any more unless something arrives. */
  ghost predicate IsAtRest(d: Daemon) {
    forall a :: IsQuiet(a) ==> !Enabled(d, a)
  }

  /** About to sleep, or asleep, without a timer. */
  predicate IsUntimed(d: Daemon) {
    d.phase in {Flushing, Asleep} && d.state.timer == Disarmed
  }

  predicate IsBusy(d: Daemon) {
    d.state.machine.activity != Idle
  }

  /** The daemon comes to rest exactly when it sleeps without a timer. */
  lemma RestIsUntimedSleep(d: Daemon)
    requires Inv(d)
    ensures IsAtRest(d) <==> d.phase == Asleep && d.state.timer == Disarmed
  {
    if d.phase == Asleep && d.state.timer == Disarmed {
      assert forall a :: IsQuiet(a) ==> !Enabled(d, a);
    } else {
      var a := NextQuietAction(d);
    }
  }

  lemma NextQuietAction(d: Daemon) returns (a: Action)
    requires Inv(d) && !(d.phase == Asleep && d.state.timer == Disarmed)
    ensures IsQuiet(a) && Enabled(d, a)
  {
    a := match d.phase
         case Draining => if d.state.ring == [] then Turn else NextSignal
         case Asleep => if d.state.timer == Armed then TimerExpires else Wake(ByTimer)
         case Timing => if d.ready then TimerRead else Turn
         case _ => Turn;
  }

  // ---- It comes to rest ----

  function TimerRank(timer: Timer): nat {
    match timer
    case Armed => 2
    case Fired => 1
    case Disarmed => 0
  }

  /** How far the loop is from asking whether the timer has expired. */
  function PhaseRank(d: Daemon): nat {
    match d.phase
    case Listening => if d.ready then 2 else 9
    case Receiving => if d.ready then 1 else 8
    case Timing => if d.ready then 0 else 7
    case Serving => 6
    case Draining => 5
    case Flushing => 4
    case Asleep => 3
  }

  /** The number of steps a daemon can take when left alone. */
  function Patience(d: Daemon): nat {
    10 * (3 * (|d.state.ring| + (if IsBusy(d) then 2 else 0)) + TimerRank(d.state.timer)) + PhaseRank(d)
  }

  lemma TimeoutAddsLittle(s: State)
    requires Coherent(s.machine) && |s.ring| <= MAX_ITEMS
    ensures var after := ReadTimer(s);
            && after.machine.activity == Idle && after.timer == Disarmed && after.clients == s.clients
            && |after.ring| <= |s.ring| + (if s.machine.activity == Idle then 0 else 1)
            && (!s.dropped && (|s.ring| < MAX_ITEMS || s.machine.activity == Idle) ==> !after.dropped)
  {
    assert Signals(s.machine, Timeout) == if s.machine.activity == Idle then [] else [UserRequestedTimedOut];
  }

  lemma QuietStepsRunOut(d: Daemon, a: Action)
    requires Inv(d) && IsQuiet(a) && Enabled(d, a)
    ensures Patience(Do(d, a)) < Patience(d)
  {
    match a
    case NextSignal => HandleTouches(d.state.(ring := d.state.ring[1..]), d.state.ring[0]);
    case TimerRead => TimeoutAddsLittle(d.state);
    case _ =>
  }

  /** Left alone, the daemon loses no signal. */
  predicate HasRoom(d: Daemon) {
    !d.state.dropped && (|d.state.ring| < MAX_ITEMS || !IsBusy(d))
  }

  lemma QuietStepsLoseNothing(d: Daemon, a: Action)
    requires Inv(d) && IsQuiet(a) && Enabled(d, a) && HasRoom(d)
    ensures HasRoom(Do(d, a))
  {
    match a
    case NextSignal => HandleTouches(d.state.(ring := d.state.ring[1..]), d.state.ring[0]);
    case TimerRead => TimeoutAddsLittle(d.state);
    case _ =>
  }

  /** Once it sleeps without a timer nothing changes any more; and when it gets there by itself
      it is idle and has handled all signals. */
  lemma QuietStepsIntoSleep(d: Daemon, a: Action)
    requires Inv(d) && IsQuiet(a) && Enabled(d, a) && HasRoom(d)
    ensures var d' := Do(d, a);
            if IsUntimed(d) then IsUntimed(d') && d'.state == d.state
            else IsUntimed(d') ==> !IsBusy(d') && d'.state.ring == []
  {
    if a == TimerRead {
      TimeoutAddsLittle(d.state);
    }
  }

  lemma QuietStep(d: Daemon, a: Action, d': Daemon)
    requires Inv(d) && HasRoom(d) && IsQuiet(a) && Leads(d, a, d')
    ensures Inv(d') && HasRoom(d') && Patience(d') < Patience(d)
    ensures if IsUntimed(d) then IsUntimed(d') && d'.state == d.state
            else IsUntimed(d') ==> !IsBusy(d') && d'.state.ring == []
  {
    ActionKeepsInv(d, a);
    QuietStepsRunOut(d, a);
    QuietStepsLoseNothing(d, a);
    QuietStepsIntoSleep(d, a);
  }

  lemma {:induction false} QuietRunsSettle(trace: seq<Daemon>, actions: seq<Action>)
    requires IsQuietRun(trace, actions) && Inv(trace[0]) && HasRoom(trace[0])
    ensures var d, end := trace[0], trace[|actions|];
            && Inv(end) && HasRoom(end)
            && |actions| + Patience(end) <= Patience(d)
            && (IsUntimed(end) ==>
                  if IsUntimed(d) then end.state == d.state else !IsBusy(end) && end.state.ring == [])
            && (IsUntimed(d) ==> end.state == d.state)
    decreases |actions|
  {
    if actions != [] {
      QuietStep(trace[0], actions[0], trace[1]);
      QuietRunsSettle(trace[1..], actions[1..]);
      assert trace[1..][|actions|-1] == trace[|actions|];
    }
  }

  /** A daemon left alone comes to rest after a bounded number of steps, whatever these are.
      Nobody who asked to close is connected then.  If the daemon was about to sleep without a
      timer to begin with, it rests in just that state; otherwise it has handled all signals
      and is idle.  So the only way to rest with an operation under way is to have begun it
      between the drain and the sleep. */
  lemma LeftAloneItRests(d: Daemon, trace: seq<Daemon>, actions: seq<Action>)
    requires Reachable(d) && HasRoom(d)
    requires IsQuietRun(trace, actions) && trace[0] == d
    ensures |actions| <= Patience(d)
    ensures var end := trace[|actions|];
            IsAtRest(end) ==>
              && (forall c <- end.state.clients :: OnLocked !in c.info.flags)
              && (if IsUntimed(d) then end.state == d.state else !IsBusy(end) && end.state.ring == [])
              && (IsBusy(end) <==> IsUntimed(d) && IsBusy(d))
  {
    ReachableKeepsInv(d);
    QuietRunsSettle(trace, actions);
    RestIsUntimedSleep(trace[|actions|]);
  }

  /** And it does come to rest. */
  lemma RestIsReached(d: Daemon) returns (trace: seq<Daemon>, actions: seq<Action>)
    requires Reachable(d) && HasRoom(d)
    ensures IsQuietRun(trace, actions) && trace[0] == d && IsAtRest(trace[|actions|])
  {
    ReachableKeepsInv(d);
    trace, actions := RestIsReachedFrom(d);
  }

  lemma {:induction false} RestIsReachedFrom(d: Daemon) returns (trace: seq<Daemon>, actions: seq<Action>)
    requires Inv(d) && HasRoom(d)
    ensures IsQuietRun(trace, actions) && trace[0] == d && IsAtRest(trace[|actions|])
    decreases Patience(d)
  {
    if d.phase == Asleep && d.state.timer == Disarmed {
      RestIsUntimedSleep(d);
      trace, actions := [d], [];
    } else {
      var a := NextQuietAction(d);
      var d' := Do(d, a);
      QuietStep(d, a, d');
      trace, actions := RestIsReachedFrom(d');
      assert ([d] + trace)[1..] == trace && ([a] + actions)[1..] == actions;
      trace, actions := [d] + trace, [a] + actions;
    }
  }

  // ---- Falling asleep on an operation ----

  /** A client waiting for the lock keeps the daemon from sleeping without a timer; and when a
      busy daemon does, the request for a timeout waits in the ring. */
  lemma UntimedSleepIsHarmlessToClosers(d: Daemon)
    requires Reachable(d) && !d.state.dropped && IsUntimed(d)
    ensures forall c <- d.state.clients :: OnLocked !in c.info.flags
    ensures IsBusy(d) ==> exists e <- d.state.ring :: e.signal == StartTimeout
  {
    ReachableKeepsInv(d);
    if IsBusy(d) {
      TimerIsDecided(Disarmed, Disarmed, d.state.ring);
      if forall e <- d.state.ring :: e.signal != StartTimeout {
        OnlyCancelling(Disarmed, d.state.ring);
      }
    }
  }

  /** `i` is the end of a drain, and up to `j` the daemon has been about to sleep or asleep. */
  ghost predicate HasRestedSince(trace: seq<Daemon>, i: nat, j: nat) {
    && i < j < |trace| && trace[i].phase == Draining && trace[i].state.ring == []
    && forall k :: i < k <= j ==> trace[k].phase in {Flushing, Asleep}
  }

  predicate IsButton(a: Action) {
    EventOf(a) in {Some(ButtonB2), Some(ButtonC2)}
  }

  /** One step before or during the sleep: it never disarms or arms the timer, and an operation
      begins only with a button. */
  lemma RestingStep(d: Daemon, a: Action, d': Daemon)
    requires Leads(d, a, d') && d'.phase in {Flushing, Asleep}
    requires d.phase in {Flushing, Asleep} || (d.phase == Draining && d.state.ring == [])
    ensures d'.state.timer == Disarmed <==> d.state.timer == Disarmed
    ensures !IsBusy(d) && IsBusy(d') ==> IsButton(a) && d'.state.machine.activity == WaitForLocked
  {
    match a
    case Incoming(message) =>
      if Decode(message).Some? {
        DecodeIsExact(message, Decode(message).value);
        if !IsBusy(d) && IsBusy(d') {
          OperationsBeginWithButtons(d.state.machine, Decode(message).value);
        }
      }
    case _ =>
  }

  lemma OperationsBeginWithButtons(m: Machine, e: Event)
    requires m.activity == Idle && !IsRequest(e) && Next(m, e).activity != Idle
    ensures e in {ButtonB2, ButtonC2} && Next(m, e).activity == WaitForLocked
  {
  }

  lemma {:induction false} TimerWhileResting(trace: seq<Daemon>, actions: seq<Action>, i: nat, j: nat)
    requires IsRun(trace, actions) && HasRestedSince(trace, i, j)
    ensures trace[j].state.timer == Disarmed <==> trace[i].state.timer == Disarmed
    decreases j
  {
    RunStepTo(trace, actions, j);
    RestingStep(trace[j-1], actions[j-1], trace[j]);
    if i < j - 1 {
      TimerWhileResting(trace, actions, i, j - 1);
    }
  }

  lemma {:induction false} OperationBeganWhileResting(trace: seq<Daemon>, actions: seq<Action>, i: nat, j: nat) returns (k: nat)
    requires IsRun(trace, actions) && HasRestedSince(trace, i, j) && !IsBusy(trace[i]) && IsBusy(trace[j])
    ensures i <= k < j && IsButton(actions[k]) && !IsBusy(trace[k])
    ensures trace[k+1].state.machine.activity == WaitForLocked
    decreases j
  {
    RunStepTo(trace, actions, j);
    RestingStep(trace[j-1], actions[j-1], trace[j]);
    if IsBusy(trace[j-1]) {
      k := OperationBeganWhileResting(trace, actions, i, j - 1);
    } else {
      k := j - 1;
    }
  }

  /** A busy daemon sleeps without a timer if and only if there was no timer when it had
      handled all signals.  It was idle then, and the operation began with a button whose
      message arrived between the drain and the sleep. */
  lemma {:induction false} BusySleepIsUntimedExactly(trace: seq<Daemon>, actions: seq<Action>, i: nat, j: nat)
    requires IsRun(trace, actions) && HasRestedSince(trace, i, j)
    requires !trace[i].state.dropped && IsBusy(trace[j])
    ensures IsUntimed(trace[j]) <==> trace[i].state.timer == Disarmed
    ensures IsUntimed(trace[j]) ==>
              && !IsBusy(trace[i])
              && exists k :: i <= k < j && IsButton(actions[k]) && !IsBusy(trace[k])
                             && trace[k+1].state.machine.activity == WaitForLocked
  {
    TimerWhileResting(trace, actions, i, j);
    if trace[i].state.timer == Disarmed {
      IdleAfterDrain(trace, actions, i);
      var k := OperationBeganWhileResting(trace, actions, i, j);
    }
  }

  lemma IdleAfterDrain(trace: seq<Daemon>, actions: seq<Action>, i: nat)
    requires IsRun(trace, actions) && i < |trace| && !trace[i].state.dropped
    requires trace[i].state.ring == [] && trace[i].state.timer == Disarmed
    ensures !IsBusy(trace[i])
  {
    RunBeginning(trace, actions, i);
    ReachableKeepsInv(trace[i]);
  }

  // ---- It happens ----

  const NEW := Machine(Idle, Unobserved, Unobserved, ShackUnobserved)
  const LOCKING := Machine(WaitForLocked, Unobserved, Unobserved, ShackUnobserved)

  /** A daemon that has just been started hears of a button before it sleeps: it is locking
      the shack, has told no door so, and sleeps without a timer. */
  lemma OperationsCanSleepUntimed() returns (d: Daemon)
    ensures Reachable(d) && HasRoom(d) && d.phase == Asleep && IsUntimed(d) && IsBusy(d)
    ensures d.state.sent == [] && d.state.ring == Tagged([StartTimeout, LockAll], INVALID_CLIENT)
  {
    d := Start(1);
    assert Steps(NEW, ButtonC2, LOCKING, [StartTimeout, LockAll]);
    d := Hear(d, ButtonC2, LOCKING, [StartTimeout, LockAll], 1);
    d := GoOn(d, Asleep, 1);
    WithinIsReachable(d, 1);
  }

  /** Left alone it stays like that. */
  lemma SuchOperationsNeverEnd(d: Daemon, trace: seq<Daemon>, actions: seq<Action>)
    requires Reachable(d) && HasRoom(d) && IsUntimed(d)
    requires IsQuietRun(trace, actions) && trace[0] == d
    ensures trace[|actions|].state == d.state
  {
    ReachableKeepsInv(d);
    QuietRunsSettle(trace, actions);
  }
}
