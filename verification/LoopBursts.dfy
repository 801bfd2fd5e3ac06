/** How many signals the state machine can emit when its events come in the order in which
    the main loop applies them: first what the broker delivers, then at most one timeout, then
    the clients' requests. */
module LoopBursts {
  import opened PortalMachine
  import opened PortalRuns

  predicate IsRequest(event: Event) {
    event in {SshOpenFront, SshOpenBack, SshClose}
  }

  predicate OneIsLocked(m: Machine) {
    (m.doorB2 == Locked) != (m.doorC2 == Locked)
  }

  /** Signals, counted in thirds, that a machine can emit beyond 7/3 per event while the loop
      hears the broker, reads the timer and serves the clients, in this order. */
  function Outlook(m: Machine): nat {
    match m.activity
    case Idle => if OneIsLocked(m) then 6 else 2
    case WaitForLocked =>
      if OneIsLocked(m) then 7
      else if ShackState(m) == ShackLocked then 4
      else if m.doorB2 == m.doorC2 == Unobserved then 0
      else 3
    case WaitForOpenViaB => OpeningOutlook(m.doorB2, m.doorC2)
    case WaitForOpenViaC => OpeningOutlook(m.doorC2, m.doorB2)
  }

  function OpeningOutlook(via: DoorView, other: DoorView): nat {
    if via == Locked then (if other == Unobserved then 2 else if other == Locked then 5 else 4)
    else if via == Unobserved && Ajar(other) then 9
    else 6
  }

  /** The same once the broker has been heard. */
  function LateOutlook(m: Machine): nat {
    if m.activity == Idle && ShackState(m) != ShackOpen then 2 else 0
  }

  lemma HearingIsPaidFor(m: Machine, e: Event)
    requires Coherent(m) && !IsRequest(e) && e != Timeout
    ensures 3 * |Signals(m, e)| + Outlook(Next(m, e)) <= 7 + Outlook(m)
  {
    match m.activity
    case Idle => HearingWhileIdleIsPaidFor(m, e);
    case WaitForLocked => HearingWhileLockingIsPaidFor(m, e);
    case _ => HearingWhileOpeningIsPaidFor(m, e);
  }

  lemma HearingWhileIdleIsPaidFor(m: Machine, e: Event)
    requires Coherent(m) && m.activity == Idle && !IsRequest(e) && e != Timeout
    ensures 3 * |Signals(m, e)| + Outlook(Next(m, e)) <= 7 + Outlook(m)
  {
  }

  lemma HearingWhileLockingIsPaidFor(m: Machine, e: Event)
    requires Coherent(m) && m.activity == WaitForLocked && !IsRequest(e) && e != Timeout
    ensures 3 * |Signals(m, e)| + Outlook(Next(m, e)) <= 7 + Outlook(m)
  {
  }

  lemma HearingWhileOpeningIsPaidFor(m: Machine, e: Event)
    requires Coherent(m) && m.activity in {WaitForOpenViaB, WaitForOpenViaC} && !IsRequest(e) && e != Timeout
    ensures 3 * |Signals(m, e)| + Outlook(Next(m, e)) <= 7 + Outlook(m)
  {
  }

  lemma ServingIsPaidFor(m: Machine, e: Event)
    requires Coherent(m) && (IsRequest(e) || e == Timeout)
    ensures 3 * |Signals(m, e)| + LateOutlook(Next(m, e)) <= 7 + LateOutlook(m)
  {
  }
}
