/** What each signal of the daemon's state machine is for: the table of module PortalMachine
    read the other way round.  For every signal there is exactly one set of circumstances in
    which it is emitted, and for every activity one in which it is entered or kept. */
module PortalCauses {
  import opened PortalMachine

  // ---- The circumstances ----

  /** What the machine is doing, what happens, whether all inner doors are locked or all
      unlocked once the event has been taken note of, and how they were seen before. */
  datatype Situation = Situation(
    activity: Activity,
    event: Event,
    allLocked: bool,
    allUnlocked: bool,
    b2: DoorView,
    c2: DoorView)

  /** The view of a door once the event has been taken note of. */
  function Seen(m: Machine, e: Event, door: Door): DoorView {
    if NewsOf(e).News? && NewsOf(e).door == door then NewsOf(e).view else View(m, door)
  }

  function SituationOf(m: Machine, e: Event): Situation {
    Situation(m.activity, e,
              Seen(m, e, B2) == Locked && Seen(m, e, C2) == Locked,
              Seen(m, e, B2) in {Opened, Closed} && Seen(m, e, C2) in {Opened, Closed},
              m.doorB2, m.doorC2)
  }

  function Before(s: Situation, door: Door): DoorView {
    if door == B2 then s.b2 else s.c2
  }

  predicate Awaits(activity: Activity, door: Door) {
    activity == if door == B2 then WaitForOpenViaB else WaitForOpenViaC
  }

  predicate AwaitsSomebody(activity: Activity) {
    activity in {WaitForOpenViaB, WaitForOpenViaC}
  }

  /** A request to enter by a door, while that takes unlocking. */
  predicate BeginsEntry(s: Situation, door: Door) {
    s.activity == Idle && s.event == (if door == B2 then SshOpenFront else SshOpenBack) && !s.allUnlocked
  }

  /** A request to close, over SSH or by a button, while there is something to lock. */
  predicate BeginsLocking(s: Situation) {
    s.activity == Idle && s.event in {SshClose, ButtonB2, ButtonC2} && !s.allLocked
  }

  predicate CompletesOpening(s: Situation) {
    AwaitsSomebody(s.activity) && s.event in {DoorB2Opened, DoorB2Closed, DoorC2Opened, DoorC2Closed} && s.allUnlocked
  }

  predicate CompletesLocking(s: Situation) {
    s.activity == WaitForLocked && s.event in {DoorB2Locked, DoorC2Locked} && s.allLocked
  }

  /** Nobody entered, and the door has locked itself again. */
  predicate GivesUpEntry(s: Situation, door: Door) {
    Awaits(s.activity, door) && s.event == (if door == B2 then DoorB2Locked else DoorC2Locked) && Before(s, door) != Locked
  }

  predicate TimesOut(s: Situation) {
    s.activity != Idle && s.event == Timeout
  }

  /** The circumstances in which a signal other than StateChange is emitted. */
  predicate Calls(s: Situation, signal: Signal) {
    match signal
    case StateChange => false
    case StartTimeout =>
      BeginsEntry(s, B2) || BeginsEntry(s, C2) || BeginsLocking(s) || GivesUpEntry(s, B2) || GivesUpEntry(s, C2)
    case CancelTimeout => CompletesOpening(s) || CompletesLocking(s)
    case UserRequestedTimedOut => TimesOut(s)
    case UnlockTimeout => GivesUpEntry(s, B2) || GivesUpEntry(s, C2)
    case OpenSuccessful => CompletesOpening(s)
    case LockSuccessful => CompletesLocking(s)
    case LockAll => BeginsLocking(s)
    case OpenDoorB2Safe => BeginsEntry(s, B2)
    case OpenDoorC2Safe => BeginsEntry(s, C2)
    case OpenDoorC2Unsafe => Awaits(s.activity, B2) && s.event == DoorB2Opened && !s.allUnlocked
    case OpenDoorB2Unsafe => Awaits(s.activity, C2) && s.event == DoorC2Opened && !s.allUnlocked
    case ChangeKeyholder => s.activity == Idle && s.event in {SshOpenFront, SshOpenBack} && s.allUnlocked
    case NoStateChange => s.activity == Idle && s.event == SshClose && s.allLocked
    case CannotHandleRequest => s.activity != Idle && s.event in {SshOpenFront, SshOpenBack, SshClose}
    case OpenDoorB =>
      || (s.event == DoorbellFront && s.allUnlocked)                          // visitors of an open shack
      || (s.event == ButtonB2 && s.allLocked)                                 // people leaving a locked one
      || (s.activity == Idle && s.event == SshOpenFront)                      // members entering by the front
      || (s.activity == Idle && s.event == SshClose && s.allLocked)           // people who are late
      || CompletesLocking(s)                                                  // people who have just locked it
    case OpenDoorC =>
      || (s.event == ButtonC2 && s.allLocked)
      || (s.activity == Idle && s.event == SshOpenBack)
    case UnlockSuccessful => false
  }

  // ---- The shack ----

  /** What the shack state means, door by door. */
  lemma ShackStateMeans(b2: DoorView, c2: DoorView)
    ensures ShackOf(b2, c2) == ShackUnobserved <==> b2 == Unobserved || c2 == Unobserved
    ensures ShackOf(b2, c2) == ShackLocked <==> b2 == Locked && c2 == Locked
    ensures ShackOf(b2, c2) == ShackOpen <==> b2 in {Opened, Closed} && c2 in {Opened, Closed}
    ensures ShackOf(b2, c2) == UnlockedViaB2 <==> b2 in {Opened, Closed} && c2 == Locked
    ensures ShackOf(b2, c2) == UnlockedViaC2 <==> b2 == Locked && c2 in {Opened, Closed}
  {
  }

  /** The shack state tells a situation what it needs to know. */
  predicate Fits(s: Situation, shack: Shack) {
    (shack == ShackLocked <==> s.allLocked) && (shack == ShackOpen <==> s.allUnlocked)
  }

  lemma SituationFits(m: Machine, e: Event)
    ensures Fits(SituationOf(m, e), ShackState(Observe(m, e)))
    ensures Seen(m, e, B2) == Observe(m, e).doorB2 && Seen(m, e, C2) == Observe(m, e).doorC2
  {
    var after := Observe(m, e);
    ShackStateMeans(after.doorB2, after.doorC2);
  }

  // ---- The signals ----

  lemma IdleReplyHasItsCauses(s: Situation, shack: Shack, signal: Signal)
    requires s.activity == Idle && Fits(s, shack)
    ensures signal in IdleReply(s.event, shack).1 <==> Calls(s, signal)
  {
    if s.event in {SshOpenFront, SshOpenBack, SshClose} {
      IdleRequestHasItsCauses(s, shack, signal);
    }
  }

  lemma IdleRequestHasItsCauses(s: Situation, shack: Shack, signal: Signal)
    requires s.activity == Idle && Fits(s, shack) && s.event in {SshOpenFront, SshOpenBack, SshClose}
    ensures signal in IdleReply(s.event, shack).1 <==> Calls(s, signal)
  {
    match s.event case SshOpenFront => case SshOpenBack => case SshClose =>
  }

  lemma LockingReplyHasItsCauses(s: Situation, shack: Shack, signal: Signal)
    requires s.activity == WaitForLocked && Fits(s, shack)
    ensures signal in LockingReply(s.event, shack).1 <==> Calls(s, signal)
  {
  }

  lemma OpeningReplyHasItsCauses(via: Door, s: Situation, shack: Shack, signal: Signal)
    requires Awaits(s.activity, via) && Fits(s, shack)
    requires s.allUnlocked ==> NewsOf(s.event) != News(via, Locked)
    ensures signal in OpeningReply(via, Before(s, via), s.event, shack).1 <==> Calls(s, signal)
  {
    match NewsOf(s.event) case NoNews => case News(_, _) =>
  }

  lemma ReplyHasItsCauses(m: Machine, e: Event, signal: Signal)
    ensures signal in Reply(m, e, ShackState(Observe(m, e))).1 <==> Calls(SituationOf(m, e), signal)
  {
    var s, shack := SituationOf(m, e), ShackState(Observe(m, e));
    SituationFits(m, e);
    match m.activity
    case Idle => IdleReplyHasItsCauses(s, shack, signal);
    case WaitForLocked => LockingReplyHasItsCauses(s, shack, signal);
    case WaitForOpenViaB => OpeningReplyHasItsCauses(B2, s, shack, signal);
    case WaitForOpenViaC => OpeningReplyHasItsCauses(C2, s, shack, signal);
  }

  function Notice(m: Machine, e: Event): seq<Signal> {
    if ShackState(Observe(m, e)) == m.lastShack then [] else [StateChange]
  }

  lemma NoticeComesFirst(m: Machine, e: Event)
    ensures Signals(m, e) == Notice(m, e) + Reply(m, e, ShackState(Observe(m, e))).1
  {
  }

  /** Each signal is emitted in its circumstances and in no others; and StateChange exactly
      when the shack state is not the one remembered. */
  lemma SignalsHaveTheirCauses(m: Machine, e: Event, signal: Signal)
    ensures signal in Signals(m, e) <==>
            if signal == StateChange then ShackOf(Seen(m, e, B2), Seen(m, e, C2)) != m.lastShack
            else Calls(SituationOf(m, e), signal)
  {
    NoticeComesFirst(m, e);
    ReplyHasItsCauses(m, e, signal);
    SituationFits(m, e);
    InEither(Notice(m, e), Reply(m, e, ShackState(Observe(m, e))).1, signal);
  }

  lemma InEither(a: seq<Signal>, b: seq<Signal>, signal: Signal)
    ensures signal in a + b <==> signal in a || signal in b
  {
  }

  /** The order in which the signals of one event are emitted. */
  function Rank(signal: Signal): nat {
    match signal
    case StateChange => 0
    case StartTimeout => 1
    case CancelTimeout => 1
    case OpenDoorB => 3
    case OpenDoorC => 3
    case ChangeKeyholder => 4
    case _ => 2
  }

  predicate AreOrdered(s: seq<Signal>) {
    forall i, j :: 0 <= i < j < |s| ==> Rank(s[i]) < Rank(s[j])
  }

  /** No signal is emitted twice for one event, and their order is always the same: first that
      the shack has changed, then what becomes of the timer, then what becomes of the
      operation, and last the doors of the building. */
  lemma SignalsComeInOrder(m: Machine, e: Event)
    ensures AreOrdered(Signals(m, e))
  {
    NoticeComesFirst(m, e);
    RepliesAreOrdered(m, e, ShackState(Observe(m, e)));
    OrderedAfterNotice(Notice(m, e), Reply(m, e, ShackState(Observe(m, e))).1);
  }

  lemma OrderedAfterNotice(notice: seq<Signal>, reply: seq<Signal>)
    requires notice in {[], [StateChange]} && AreReplies(reply)
    ensures AreOrdered(notice + reply)
  {
    assert forall i | 0 <= i < |reply| :: reply[i] in reply && Rank(reply[i]) > 0;
  }

  lemma RepliesAreOrdered(m: Machine, e: Event, shack: Shack)
    ensures AreReplies(Reply(m, e, shack).1)
  {
    match m.activity
    case Idle => IdleRepliesAreOrdered(e, shack);
    case WaitForLocked => LockingRepliesAreOrdered(e, shack);
    case WaitForOpenViaB => OpeningRepliesAreOrdered(B2, m.doorB2, e, shack);
    case WaitForOpenViaC => OpeningRepliesAreOrdered(C2, m.doorC2, e, shack);
  }

  predicate AreReplies(s: seq<Signal>) {
    AreOrdered(s) && StateChange !in s
  }

  lemma IdleRepliesAreOrdered(e: Event, shack: Shack)
    ensures AreReplies(IdleReply(e, shack).1)
  {
  }

  lemma LockingRepliesAreOrdered(e: Event, shack: Shack)
    ensures AreReplies(LockingReply(e, shack).1)
  {
  }

  lemma OpeningRepliesAreOrdered(via: Door, before: DoorView, e: Event, shack: Shack)
    ensures AreReplies(OpeningReply(via, before, e, shack).1)
  {
  }

  // ---- The activities ----

  /** The circumstances in which an activity is begun or goes on. */
  predicate Leads(s: Situation, activity: Activity) {
    match activity
    case WaitForOpenViaB =>
      BeginsEntry(s, B2) || (s.activity == activity && !TimesOut(s) && !CompletesOpening(s) && !GivesUpEntry(s, B2))
    case WaitForOpenViaC =>
      BeginsEntry(s, C2) || (s.activity == activity && !TimesOut(s) && !CompletesOpening(s) && !GivesUpEntry(s, C2))
    case WaitForLocked =>
      || BeginsLocking(s) || GivesUpEntry(s, B2) || GivesUpEntry(s, C2)
      || (s.activity == activity && !TimesOut(s) && !CompletesLocking(s))
    case Idle =>
      || TimesOut(s) || CompletesOpening(s) || CompletesLocking(s)
      || (s.activity == activity && !BeginsEntry(s, B2) && !BeginsEntry(s, C2) && !BeginsLocking(s))
  }

  /** An operation is begun, goes on, and ends in its circumstances and in no others. */
  lemma ActivitiesHaveTheirCauses(m: Machine, e: Event, activity: Activity)
    ensures Next(m, e).activity == activity <==> Leads(SituationOf(m, e), activity)
  {
    var s, shack := SituationOf(m, e), ShackState(Observe(m, e));
    SituationFits(m, e);
    match m.activity
    case Idle => IdleActivityHasItsCauses(s, shack, activity);
    case WaitForLocked => LockingActivityHasItsCauses(s, shack, activity);
    case WaitForOpenViaB => OpeningActivityHasItsCauses(B2, s, shack, activity);
    case WaitForOpenViaC => OpeningActivityHasItsCauses(C2, s, shack, activity);
  }

  lemma IdleActivityHasItsCauses(s: Situation, shack: Shack, activity: Activity)
    requires s.activity == Idle && Fits(s, shack)
    ensures IdleReply(s.event, shack).0 == activity <==> Leads(s, activity)
  {
  }

  lemma LockingActivityHasItsCauses(s: Situation, shack: Shack, activity: Activity)
    requires s.activity == WaitForLocked && Fits(s, shack)
    ensures LockingReply(s.event, shack).0 == activity <==> Leads(s, activity)
  {
  }

  lemma OpeningActivityHasItsCauses(via: Door, s: Situation, shack: Shack, activity: Activity)
    requires Awaits(s.activity, via) && Fits(s, shack)
    requires s.allUnlocked ==> NewsOf(s.event) != News(via, Locked)
    ensures OpeningReply(via, Before(s, via), s.event, shack).0 == activity <==> Leads(s, activity)
  {
    match NewsOf(s.event) case NoNews => case News(_, _) =>
  }
}
