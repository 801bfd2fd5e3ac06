/** What holds of every run of the daemon's state machine: how many signals it can emit,
    how operations begin and end, and where each door command comes from. */
module PortalRuns {
  import opened PortalMachine

  /** The machine after a sequence of events. */
  function Run(m: Machine, es: seq<Event>): Machine {
    if es == [] then m else Next(Run(m, es[..|es|-1]), es[|es|-1])
  }

  /** Every signal emitted during a sequence of events, in order. */
  function Emitted(m: Machine, es: seq<Event>): seq<Signal> {
    if es == [] then [] else Emitted(m, es[..|es|-1]) + Signals(Run(m, es[..|es|-1]), es[|es|-1])
  }

  /** What every reachable machine satisfies: the remembered shack state is current, and
      while somebody is awaited at a door the shack is not open. */
  ghost predicate Coherent(m: Machine) {
    && m.lastShack == ShackState(m)
    && (m.activity in {WaitForOpenViaB, WaitForOpenViaC} ==> ShackState(m) != ShackOpen)
  }

  lemma StepStaysCoherent(m: Machine, e: Event)
    requires Coherent(m)
    ensures Coherent(Next(m, e))
  {
    match e case _ =>
  }

  lemma {:induction false} RunsStayCoherent(m: Machine, es: seq<Event>)
    requires Coherent(m)
    ensures Coherent(Run(m, es))
  {
    if es != [] {
      RunsStayCoherent(m, es[..|es|-1]);
      StepStaysCoherent(Run(m, es[..|es|-1]), es[|es|-1]);
    }
  }

  // ---- How many signals a burst of events can emit ----

  predicate Ajar(v: DoorView) {
    v == Opened || v == Closed
  }

  /** Signals, counted in quarters, that a machine can emit beyond 11/4 per event. */
  function Credit(m: Machine): nat {
    var shack := ShackState(m);
    match m.activity
    case Idle =>
      (match shack
       case ShackOpen => 0
       case ShackLocked => 1
       case ShackUnobserved => if Ajar(m.doorB2) || Ajar(m.doorC2) then 8 else 4
       case _ => 4)
    case WaitForLocked =>
      (match shack
       case ShackOpen => 0
       case ShackLocked => 2
       case ShackUnobserved =>
         if m.doorB2 == m.doorC2 then 0 else if Ajar(m.doorB2) || Ajar(m.doorC2) then 1 else 6
       case _ => 6)
    case WaitForOpenViaB => OpeningCredit(m.doorB2, m.doorC2)
    case WaitForOpenViaC => OpeningCredit(m.doorC2, m.doorB2)
  }

  function OpeningCredit(via: DoorView, other: DoorView): nat {
    if via == Locked then (if Ajar(other) then 1 else 0)
    else if via == Unobserved && Ajar(other) then 7
    else 3
  }

  lemma CreditPaysWhileIdle(m: Machine, e: Event)
    requires Coherent(m) && m.activity == Idle
    ensures 4 * |Signals(m, e)| + Credit(Next(m, e)) <= 11 + Credit(m)
  {
  }

  lemma CreditPaysWhileLocking(m: Machine, e: Event)
    requires Coherent(m) && m.activity == WaitForLocked
    ensures 4 * |Signals(m, e)| + Credit(Next(m, e)) <= 11 + Credit(m)
  {
  }

  lemma CreditPaysWhileOpening(m: Machine, e: Event)
    requires Coherent(m) && m.activity in {WaitForOpenViaB, WaitForOpenViaC}
    ensures 4 * |Signals(m, e)| + Credit(Next(m, e)) <= 11 + Credit(m)
  {
  }

  lemma CreditPaysForStep(m: Machine, e: Event)
    requires Coherent(m)
    ensures 4 * |Signals(m, e)| + Credit(Next(m, e)) <= 11 + Credit(m)
  {
    match m.activity
    case Idle => CreditPaysWhileIdle(m, e);
    case WaitForLocked => CreditPaysWhileLocking(m, e);
    case _ => CreditPaysWhileOpening(m, e);
  }

  lemma {:induction false} CreditPaysForRun(m: Machine, es: seq<Event>)
    requires Coherent(m)
    ensures 4 * |Emitted(m, es)| + Credit(Run(m, es)) <= 11 * |es| + Credit(m)
  {
    if es != [] {
      var before := es[..|es|-1];
      CreditPaysForRun(m, before);
      RunsStayCoherent(m, before);
      CreditPaysForStep(Run(m, before), es[|es|-1]);
    }
  }

  /** The most signals that `n` events can emit. */
  function MostSignals(n: nat): nat {
    (11 * n + 8) / 4
  }

  ghost predicate CanOccur(m: Machine) {
    exists history :: m == Run(Initial, history)
  }

  /** From any reachable machine, `n` events emit at most (11n+8)/4 signals. */
  lemma {:induction false} SignalBound(m: Machine, burst: seq<Event>)
    requires CanOccur(m)
    ensures |Emitted(m, burst)| <= MostSignals(|burst|)
  {
    var history :| m == Run(Initial, history);
    RunsStayCoherent(Initial, history);
    CreditPaysForRun(m, burst);
  }

  function WorstEvent(n: nat): Event {
    if n == 0 then SshOpenBack
    else if n == 1 then DoorC2Locked
    else if n == 2 then DoorB2Locked
    else match n % 4
      case 3 => SshOpenFront
      case 0 => DoorB2Opened
      case _ => DoorB2Locked
  }

  /** A sequence of events that reaches the bound. */
  function WorstBurst(n: nat): (burst: seq<Event>)
    ensures |burst| == n
  {
    if n == 0 then [] else WorstBurst(n - 1) + [WorstEvent(n - 1)]
  }

  /** The machine `WorstBurst(n)` leads to when B2 has reported closed and C2 nothing. */
  function WorstMachine(n: nat): Machine {
    if n == 0 then Machine(Idle, Unobserved, Closed, ShackUnobserved)
    else if n == 1 then Machine(WaitForOpenViaC, Unobserved, Closed, ShackUnobserved)
    else if n == 2 then Machine(WaitForLocked, Locked, Closed, UnlockedViaB2)
    else match n % 4
      case 3 => Machine(Idle, Locked, Locked, ShackLocked)
      case 0 => Machine(WaitForOpenViaB, Locked, Locked, ShackLocked)
      case 1 => Machine(WaitForOpenViaB, Locked, Opened, UnlockedViaB2)
      case _ => Machine(WaitForLocked, Locked, Locked, ShackLocked)
  }

  function WorstTotal(n: nat): nat {
    if n < 3 then 3 * n else MostSignals(n)
  }

  lemma WorstStep(n: nat)
    ensures Next(WorstMachine(n), WorstEvent(n)) == WorstMachine(n + 1)
    ensures |Signals(WorstMachine(n), WorstEvent(n))| == WorstTotal(n + 1) - WorstTotal(n)
  {
    if n >= 3 {
      match n % 4
      case 0 =>
      case 1 =>
      case 2 =>
      case 3 =>
    }
  }

  lemma {:induction false} WorstBurstUnfolds(n: nat)
    ensures Run(WorstMachine(0), WorstBurst(n)) == WorstMachine(n)
    ensures |Emitted(WorstMachine(0), WorstBurst(n))| == WorstTotal(n)
  {
    if n > 0 {
      WorstBurstUnfolds(n - 1);
      WorstStep(n - 1);
      assert WorstBurst(n)[..n-1] == WorstBurst(n - 1);
    }
  }

  /** The bound cannot be improved for any burst of three or more events. */
  lemma SignalBoundIsAttained(n: nat)
    requires n >= 3
    ensures exists history, burst ::
      |burst| == n && |Emitted(Run(Initial, history), burst)| == MostSignals(n)
  {
    var history := [DoorB2Closed];
    assert Run(Initial, history[..0]) == Initial;
    assert Run(Initial, history) == WorstMachine(0);
    WorstBurstUnfolds(n);
    assert |WorstBurst(n)| == n && |Emitted(Run(Initial, history), WorstBurst(n))| == MostSignals(n);
  }

  // ---- How operations begin and end ----

  function Count(signal: Signal, s: seq<Signal>): nat {
    multiset(s)[signal]
  }

  function Busy(activity: Activity): nat {
    if activity == Idle then 0 else 1
  }

  /** The sum of the weights of all signals in a sequence. */
  function Total(weight: Signal -> int, s: seq<Signal>): int {
    if s == [] then 0 else weight(s[0]) + Total(weight, s[1..])
  }

  function At(weight: Signal -> int, s: seq<Signal>, i: nat): int {
    if i < |s| then weight(s[i]) else 0
  }

  lemma {:induction false} TotalOfConcat(weight: Signal -> int, a: seq<Signal>, b: seq<Signal>)
    ensures Total(weight, a + b) == Total(weight, a) + Total(weight, b)
  {
    if a == [] {
      assert a + b == b;
    } else {
      assert (a + b)[1..] == a[1..] + b;
      TotalOfConcat(weight, a[1..], b);
    }
  }

  lemma TotalOfReply(weight: Signal -> int, s: seq<Signal>)
    requires |s| <= 3
    ensures Total(weight, s) == At(weight, s, 0) + At(weight, s, 1) + At(weight, s, 2)
  {
    if |s| > 1 {
      assert s[1..][1..] == s[2..];
    }
  }

  lemma TotalOfSignals(weight: Signal -> int, m: Machine, e: Event)
    requires weight(StateChange) == 0
    ensures Total(weight, Signals(m, e)) == Total(weight, Reply(m, e, ShackState(Observe(m, e))).1)
  {
    var reply := Reply(m, e, ShackState(Observe(m, e))).1;
    TotalOfReply(weight, [StateChange]);
    TotalOfConcat(weight, [StateChange], reply);
    assert [] + reply == reply;
  }

  /** +1 for each operation a signal opens, -1 for each it closes. */
  function Openings(signal: Signal): int {
    match signal
    case StartTimeout => 1
    case UnlockTimeout => -1
    case OpenSuccessful => -1
    case LockSuccessful => -1
    case UserRequestedTimedOut => -1
    case _ => 0
  }

  function Timers(signal: Signal): int {
    if signal == StartTimeout then 1 else 0
  }

  lemma {:induction false} TotalsAreCounts(s: seq<Signal>)
    ensures Total(Timers, s) == Count(StartTimeout, s)
    ensures Total(Openings, s) ==
            Count(StartTimeout, s) - Count(UnlockTimeout, s)
            - Count(OpenSuccessful, s) - Count(LockSuccessful, s) - Count(UserRequestedTimedOut, s)
  {
    if s != [] {
      assert s == [s[0]] + s[1..];
      TotalsAreCounts(s[1..]);
    }
  }

  lemma IdleReplyAccounts(e: Event, shack: Shack)
    ensures var (activity, reply) := IdleReply(e, shack);
            Total(Openings, reply) == Busy(activity) && Total(Timers, reply) == Busy(activity)
  {
    var reply := IdleReply(e, shack).1;
    TotalOfReply(Openings, reply);
    TotalOfReply(Timers, reply);
  }

  lemma LockingReplyAccounts(e: Event, shack: Shack)
    ensures var (activity, reply) := LockingReply(e, shack);
            1 + Total(Openings, reply) == Busy(activity) && Total(Timers, reply) == 0
            && activity !in {WaitForOpenViaB, WaitForOpenViaC}
  {
    var reply := LockingReply(e, shack).1;
    TotalOfReply(Openings, reply);
    TotalOfReply(Timers, reply);
  }

  lemma OpeningReplyAccounts(via: Door, before: DoorView, e: Event, shack: Shack)
    ensures var (activity, reply) := OpeningReply(via, before, e, shack);
            1 + Total(Openings, reply) == Busy(activity)
            && Total(Timers, reply) == (if activity == WaitForLocked then 1 else 0)
  {
    var reply := OpeningReply(via, before, e, shack).1;
    TotalOfReply(Openings, reply);
    TotalOfReply(Timers, reply);
    match NewsOf(e) case NoNews => case News(_, _) =>
  }

  lemma ReplyAccounts(m: Machine, e: Event, shack: Shack)
    ensures var (activity, reply) := Reply(m, e, shack);
            && Busy(m.activity) + Total(Openings, reply) == Busy(activity)
            && 0 <= Total(Timers, reply) <= 1
            && (m.activity == WaitForLocked ==> Total(Timers, reply) == 0 && activity in {Idle, WaitForLocked})
            && (m.activity in {WaitForOpenViaB, WaitForOpenViaC} && activity != WaitForLocked ==> Total(Timers, reply) == 0)
  {
    match m.activity
    case Idle => IdleReplyAccounts(e, shack);
    case WaitForLocked => LockingReplyAccounts(e, shack);
    case WaitForOpenViaB => OpeningReplyAccounts(B2, m.doorB2, e, shack);
    case WaitForOpenViaC => OpeningReplyAccounts(C2, m.doorC2, e, shack);
  }

  /** What one step does to the two totals. */
  lemma StepAccounts(m: Machine, e: Event)
    ensures Busy(m.activity) + Total(Openings, Signals(m, e)) == Busy(Next(m, e).activity)
    ensures 0 <= Total(Timers, Signals(m, e)) <= 1
    ensures m.activity == WaitForLocked ==>
              Total(Timers, Signals(m, e)) == 0 && Next(m, e).activity in {Idle, WaitForLocked}
    ensures m.activity in {WaitForOpenViaB, WaitForOpenViaC} && Next(m, e).activity != WaitForLocked ==>
              Total(Timers, Signals(m, e)) == 0
  {
    ReplyAccounts(m, e, ShackState(Observe(m, e)));
    TotalOfSignals(Openings, m, e);
    TotalOfSignals(Timers, m, e);
  }

  lemma {:induction false} RunAccounts(m: Machine, es: seq<Event>)
    ensures Busy(m.activity) + Total(Openings, Emitted(m, es)) == Busy(Run(m, es).activity)
  {
    if es != [] {
      var before := es[..|es|-1];
      RunAccounts(m, before);
      StepAccounts(Run(m, before), es[|es|-1]);
      TotalOfConcat(Openings, Emitted(m, before), Signals(Run(m, before), es[|es|-1]));
    }
  }

  /** Every operation that is under way or started is completed, timed out, or still under
      way. */
  lemma {:induction false} OperationsAreAccounted(m: Machine, es: seq<Event>)
    ensures var s := Emitted(m, es);
            Busy(m.activity) + Count(StartTimeout, s) - Count(UnlockTimeout, s) ==
            Count(OpenSuccessful, s) + Count(LockSuccessful, s) + Count(UserRequestedTimedOut, s)
            + Busy(Run(m, es).activity)
  {
    RunAccounts(m, es);
    TotalsAreCounts(Emitted(m, es));
  }

  lemma {:induction false} TimersOfOperation(m: Machine, es: seq<Event>)
    requires m.activity == Idle
    requires forall k :: 0 < k < |es| ==> Run(m, es[..k]).activity != Idle
    ensures Total(Timers, Emitted(m, es)) <= 2
    ensures Run(m, es).activity in {WaitForOpenViaB, WaitForOpenViaC} ==> Total(Timers, Emitted(m, es)) <= 1
  {
    if es != [] {
      var before := es[..|es|-1];
      assert forall k :: 0 < k < |before| ==> before[..k] == es[..k];
      TimersOfOperation(m, before);
      assert before != [] ==> Run(m, es[..|before|]).activity != Idle;
      StepAccounts(Run(m, before), es[|es|-1]);
      TotalOfConcat(Timers, Emitted(m, before), Signals(Run(m, before), es[|es|-1]));
    }
  }

  /** Between two idle periods the machine never asks for a timeout more than twice. */
  lemma {:induction false} AtMostTwoTimeoutsPerOperation(m: Machine, es: seq<Event>)
    requires m.activity == Idle
    requires forall k :: 0 < k < |es| ==> Run(m, es[..k]).activity != Idle
    ensures Count(StartTimeout, Emitted(m, es)) <= 2
  {
    TimersOfOperation(m, es);
    TotalsAreCounts(Emitted(m, es));
  }

  // ---- Where door commands come from ----

  function EntryRequest(via: Door): Event {
    if via == B2 then SshOpenFront else SshOpenBack
  }

  /** Event `j` asked for entry through `via` while the machine was idle, and the machine
      has been waiting at that door ever since, up to event `k`. */
  ghost predicate EntryAskedAt(es: seq<Event>, via: Door, j: nat, k: nat)
    requires k <= |es|
  {
    && j < |es| && j <= k
    && es[j] == EntryRequest(via)
    && Run(Initial, es[..j]).activity == Idle
    && forall i :: j < i <= k ==> Run(Initial, es[..i]).activity == WaitForOpenVia(via)
  }

  lemma RunExtends(es: seq<Event>, k: nat)
    requires k < |es|
    ensures Run(Initial, es[..k+1]) == Next(Run(Initial, es[..k]), es[k])
  {
    assert es[..k+1][..k] == es[..k];
  }

  lemma WaitingStartsOnRequest(m: Machine, e: Event, via: Door)
    requires Next(m, e).activity == WaitForOpenVia(via) != m.activity
    ensures m.activity == Idle && e == EntryRequest(via)
  {
  }

  lemma WaitingStartsAt(es: seq<Event>, via: Door, k: nat)
    requires k < |es| && Run(Initial, es[..k+1]).activity == WaitForOpenVia(via) != Run(Initial, es[..k]).activity
    ensures EntryAskedAt(es, via, k, k + 1)
  {
    RunExtends(es, k);
    WaitingStartsOnRequest(Run(Initial, es[..k]), es[k], via);
  }

  /** The last place at which a sequence turns into its final value. */
  lemma {:induction false} LastChange(activities: seq<Activity>, final: Activity) returns (j: nat)
    requires activities != [] && activities[0] != final == activities[|activities|-1]
    ensures j < |activities| - 1 && activities[j] != final
    ensures forall i :: j < i < |activities| ==> activities[i] == final
  {
    var n := |activities| - 1;
    if activities[n-1] == final {
      j := LastChange(activities[..n], final);
    } else {
      j := n - 1;
    }
  }

  lemma WaitingWasAskedFor(es: seq<Event>, via: Door, k: nat) returns (j: nat)
    requires k <= |es| && Run(Initial, es[..k]).activity == WaitForOpenVia(via)
    ensures j < k && EntryAskedAt(es, via, j, k)
  {
    var activities := seq(k + 1, i requires 0 <= i <= k => Run(Initial, es[..i]).activity);
    assert es[..0] == [];
    j := LastChange(activities, WaitForOpenVia(via));
    assert activities[j] == Run(Initial, es[..j]).activity && activities[j+1] == Run(Initial, es[..j+1]).activity;
    WaitingStartsAt(es, via, j);
    assert forall i :: j < i <= k ==> activities[i] == Run(Initial, es[..i]).activity;
  }

  function SafeOpening(door: Door): Signal {
    if door == B2 then OpenDoorB2Safe else OpenDoorC2Safe
  }

  function UnsafeOpening(door: Door): Signal {
    if door == B2 then OpenDoorB2Unsafe else OpenDoorC2Unsafe
  }

  /** Exactly when an idle machine commands an inner door. */
  lemma CommandsWhileIdle(e: Event, shack: Shack, door: Door)
    ensures SafeOpening(door) in IdleReply(e, shack).1 <==> e == EntryRequest(door) && shack != ShackOpen
    ensures UnsafeOpening(door) !in IdleReply(e, shack).1
    ensures LockAll in IdleReply(e, shack).1 <==> e in {SshClose, ButtonB2, ButtonC2} && shack != ShackLocked
  {
  }

  lemma CommandsWhileLocking(e: Event, shack: Shack, door: Door)
    ensures SafeOpening(door) !in LockingReply(e, shack).1
    ensures UnsafeOpening(door) !in LockingReply(e, shack).1
    ensures LockAll !in LockingReply(e, shack).1
  {
  }

  /** Exactly when a machine waiting at one door commands the other. */
  lemma CommandsWhileOpening(via: Door, before: DoorView, e: Event, shack: Shack, door: Door)
    ensures var reply := OpeningReply(via, before, e, shack).1;
            && SafeOpening(door) !in reply && LockAll !in reply
            && (UnsafeOpening(door) in reply <==> door != via && NewsOf(e) == News(via, Opened) && shack != ShackOpen)
  {
  }

  /** Each command that opens an inner door goes back to a request for entry: the safe
      opening of a door is emitted on that request, and the unsafe opening of the other
      door only when somebody entered through the first one, at which the machine has been
      waiting ever since.  `via` is the door of the request. */
  lemma DoorCommandsWereAskedFor(es: seq<Event>, door: Door, via: Door, k: nat)
    requires k < |es| && door != via
    ensures SafeOpening(via) in Signals(Run(Initial, es[..k]), es[k]) ==> EntryAskedAt(es, via, k, k)
    ensures UnsafeOpening(door) in Signals(Run(Initial, es[..k]), es[k]) ==>
              NewsOf(es[k]) == News(via, Opened) && exists j: nat :: j < k && EntryAskedAt(es, via, j, k)
  {
    var m, e := Run(Initial, es[..k]), es[k];
    var shack := ShackState(Observe(m, e));
    match m.activity
    case Idle =>
      CommandsWhileIdle(e, shack, via);
      CommandsWhileIdle(e, shack, door);
    case WaitForLocked =>
      CommandsWhileLocking(e, shack, via);
      CommandsWhileLocking(e, shack, door);
    case _ =>
      var at := if m.activity == WaitForOpenViaB then B2 else C2;
      CommandsWhileOpening(at, View(m, at), e, shack, via);
      CommandsWhileOpening(at, View(m, at), e, shack, door);
      var j := WaitingWasAskedFor(es, at, k);
  }

  /** The doors are told to lock exactly in answer to a request to close, given while nothing
      else is going on and the shack is not locked. */
  lemma LockingIsAskedFor(m: Machine, e: Event)
    ensures LockAll in Signals(m, e) <==>
            e in {SshClose, ButtonB2, ButtonC2} && m.activity == Idle && ShackState(m) != ShackLocked
  {
    var shack := ShackState(Observe(m, e));
    CommandsWhileIdle(e, shack, B2);
    CommandsWhileLocking(e, shack, B2);
    CommandsWhileOpening(B2, m.doorB2, e, shack, B2);
    CommandsWhileOpening(C2, m.doorC2, e, shack, B2);
  }
}
