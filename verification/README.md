# Portal 300: the door protocol and two calibration algorithms, verified

The portal lets members of a hackerspace open and lock its doors over SSH. A daemon
coordinates two inner doors, B2 and C2; each door has a controller that drives a motorised
bolt and reports over MQTT what its contacts say. This project models, in Dafny,

* **the daemon**: the state machine that reacts to door reports, requests and timeouts; the
  64-slot ring buffer its signals wait in; the table of connected clients; the one-shot
  timer; and the main loop that drains, polls and serves them;
* **the door controller**: the seven-state machine behind each motor, the eight-reading
  window that smooths the contacts, and the loop that joins the two;
* **the network between them**: two controllers, two status channels and the daemon;
* **the calibration visualiser's** Poisson-disk sampler, and the header of the binary PLY
  files it writes and reads.

What the program updates in place is a class here (`PortalStateMachine.StateMachine`,
`SignalRing.Ring`, `ClientTable.Table`, `PortalDaemon.PortalDaemon`,
`DoorMachine.StateMachine`, `SensorWindow.Window`, `DoorController.DoorController`), and every
method of it is proved to do exactly what a function on values says. The theorems are about
those functions, over every run.

## What is proved

* **Seventeen ordered guards are one table.** The branches of `sm_apply_event`, taken in
  program order with every signal pushed as it is emitted, decide what an order-free table
  per activity decides. The last guard is dead code. Read the other way round, every signal is
  emitted, and every activity begun, kept and ended, in its own circumstances and in no others.
* **Nobody who asked to close is forgotten.** A client that has sent a request to close and has
  been connected ever since never finds the daemon idle with all signals handled, in any run
  without loss; one that has sent a request to open does only if the locking of the shack has
  been completed since. Refusals are personal: just the client that asked is sent away. In every
  reachable daemon that has lost no signal, an empty ring and an idle machine mean that no client
  waiting for the lock is still connected. And left alone, so that nothing arrives and only the timer expires, every such
  daemon whose ring is not full comes to rest after a bounded number of steps, without losing a
  signal and without such a client.
* **For those who asked to open this fails in one case only.** If such a client is still
  connected to an idle daemon that has handled and lost nothing, then after its request an
  event completed the locking of the shack, and it has been connected ever since. An event
  strands it exactly when it completes a locking and no queued signal disconnects the client.
  A run from the start of the daemon shows it: nobody enters, and the door locks itself again.
* **A busy daemon can sleep without a timer**, in exactly one way: there was no timer when it
  had last handled all signals, and a button's message arrived between that drain and the
  sleep. The request for a timeout then waits in the ring, no door has been told anything, and
  left alone the daemon stays like that for good. In all other cases it comes to rest idle, and
  with all signals handled unless it was already about to sleep without a timer. A run shows the
  case; no client that asked to close is ever caught in it.
* **A timeout can come from an operation that is over**, exactly when a request to start or
  cancel the timer is still queued as the timer is read. It then ends an operation that has
  just begun, and the timer goes on to run for an idle daemon. A run shows it. Without such a
  late timeout an idle daemon that has handled all signals has no timer.
* **The ring is large enough for 26 events, and no more.** The loop hears the broker, reads the
  timer and serves the clients in this order, so n events between two drains queue at most
  (7n+9)/3 signals: none is lost if there are never more than 26, and a run with 27 loses one.
  The state machine alone, given its events in any order, emits up to (11n+8)/4 signals on n
  events, and this bound is attained for every n >= 3.
* **A queued client id means the client that issued it, or nobody**, over 2^32 ids that wrap
  around: ids of live clients are distinct, the scan for a free one ends although it reads a
  slot that is not filled yet, and no id is reissued while queued.
* **Disconnecting clients is exact**: the swap-removing sweep leaves precisely those without
  the flag, each socket with its own record, and closes every other socket once.
* **A controller tells tales.** The orders it takes up and the signals it gives form, in every
  run, a sequence of complete tales out of a fixed list and at most one beginning, which at
  most five timeouts complete.
* **Nobody who entered is locked in.** A controller says that nobody entered, and locks the door
  again, only if the door was not reported open since it was unlocked. The report that is waited
  for is answered at once, except that of a bolt which the machine already believes moved; then
  it was reported too early in the same operation.
* **Commands arrive as what they are.** Each signal of the daemon sets, by topic and payload, the
  bit of just the order and just the controller it is meant for; the bits of a turn are passed on
  as their orders and as nothing else; so every operation of a controller was asked for by its
  own bit.
* **The flag of an unsafe order outlives it** in an idle controller exactly when the last order
  to open since it was busy was an unsafe one to a door that was not locked. It does no harm:
  whatever comes next, the signals, pins and states are the same without it.
* **An operation of a controller takes at most 100200 ms** when timeouts are delivered
  promptly, and a run attains the limit. Opening the shack takes two controllers, the second
  told to open when the daemon hears that the first door is open, under a single timer of the
  daemon: together they take at most 100200 ms as well, and the daemon gives up only after
  120000 ms.
* **The objects do what the transition system does.** One pass of the main loop over ring,
  machine, table and timer is a sequence of its steps, each input taken once and in order.
* **Daemon and controllers agree**, through losses and restarts: once a controller has
  published again, folding whatever is on its way into the daemon's view of its door gives what
  the controller believes of it; with nothing on its way, the daemon's shack state is the one
  that follows from both controllers' states. And what they believe is true: after eight turns
  with the same contacts the daemon takes the shack for locked exactly if all four contacts are
  made.
* **The sampler** ends for all random choices; accepted points are farther apart than the
  minimal distance r, and each presample is within r of one or beyond 2r of all of them.
* **The PLY header round trip**: what is written is read back, with its length in bytes, and
  the fields keep their types exactly when none has the type code `c`. A number laid out behind
  it in the byte order of the points is found again, whatever the machine is; and types have the
  widths their names and codes say.

Five findings about the code deserve a maintainer's attention: the clients left connected
after the "nobody entered" path; the operation begun by a button just before the daemon sleeps,
which nobody times; the timeout that ends an operation it does not belong to; the flag of an
unsafe order that stays set when the door was not locked; and the window of a controller, which
counts as stable after four readings if these, like the zeros its initial value is padded with,
say "closed".

## Model

| member | source | states |
|---|---|---|
| `PortalStateMachine.OrderedGuardsAreTheTable` | software/src/state-machine.c:149-283 | The ordered guarded branches reach the same activity and the same signals as the order-free table, for every machine and event |
| `PortalStateMachine.StepThroughGuards` | software/src/state-machine.c:128-286 | Noting the door state, announcing a changed shack state and then taking the guards in order is one step of the table |
| `PortalStateMachine.StateMachine.constructor` | software/src/state-machine.c:14-28 | A new machine is idle and has observed neither door |
| `PortalStateMachine.StateMachine.ApplyEvent` | software/src/state-machine.c:128-286 | Updating the fields in place and pushing each signal as it comes leaves the machine the table says, and the ring with the table's signals, tagged with the client, as far as they fit |
| `PortalStateMachine.StateMachine.GetShackState` | software/src/state-machine.c:288-305 | The shack state read off the two door views |
| `PortalStateMachine.StateMachine.ChangeDoorState` | software/src/state-machine.c:100-121 | An event changes the view of the one door it reports on and nothing else |
| `PortalRuns.RunsStayCoherent` | software/src/state-machine.c:128-286 | After any run of events the remembered shack state is the current one, and nobody is awaited at a door while the shack is open |
| `PortalRuns.CreditPaysForStep` | software/src/state-machine.c:128-286 | The signals of one event are covered by 11/4 per event and the change of a credit that depends on activity and door views |
| `PortalRuns.SignalBound` | software/src/state-machine.c:128-286 | From any reachable state the machine by itself, whatever the order of events, emits at most (11n+8)/4 signals on n events, although one event can emit four |
| `PortalRuns.SignalBoundIsAttained` | software/src/state-machine.c:128-286 | For every n >= 3 some history and some n events emit exactly that many |
| `PortalRuns.OperationsAreAccounted` | software/src/state-machine.c:149-265 | Over any run from any machine, the operation under way at the start, if any, and started timeouts less unlock timeouts equal the operations opened, locked and timed out, and the one under way at the end, if any |
| `PortalRuns.AtMostTwoTimeoutsPerOperation` | software/src/state-machine.c:149-265 | Between two idle periods at most two timeouts are started |
| `PortalRuns.WaitingWasAskedFor` | software/src/state-machine.c:224-240 | Whenever somebody is awaited at a door, an earlier request for that door came in while the machine was idle and it has been waiting there since |
| `PortalRuns.CommandsWhileIdle` | software/src/state-machine.c:224-265 | An idle machine commands a safe opening exactly on the request for that door with the shack not open, and locking exactly on a request to close with the shack not locked |
| `PortalRuns.CommandsWhileOpening` | software/src/state-machine.c:174-184 | A machine waiting at one door opens the other exactly when the first reports open and the shack is not open yet |
| `PortalRuns.DoorCommandsWereAskedFor` | software/src/state-machine.c:174-240 | In every run a safe opening is emitted on the request itself, and an unsafe one only when somebody entered by the other door after a request for it, with no idle state in between |
| `PortalRuns.LockingIsAskedFor` | software/src/state-machine.c:259-265 | Any machine emits LOCK_ALL exactly on a close request while it is idle and its shack is not locked |
| `PortalCauses.ShackStateMeans` | software/src/state-machine.c:288-305 | Each shack state in terms of the two doors, exactly |
| `PortalCauses.SignalsHaveTheirCauses` | software/src/state-machine.c:142-283 | For every machine, event and signal: the signal is emitted exactly in the circumstances listed for it |
| `PortalCauses.SignalsComeInOrder` | software/src/state-machine.c:142-283 | No signal is emitted twice for an event, and their order is always the same |
| `PortalCauses.ActivitiesHaveTheirCauses` | software/src/state-machine.c:149-265 | For every machine, event and activity: the activity is begun, kept or resumed exactly in the circumstances listed for it |
| `LoopBursts.HearingIsPaidFor` | software/src/state-machine.c:128-286 | The signals of one event from the broker are covered by 7/3 per event and the change of a credit that depends on activity and door views |
| `LoopBursts.ServingIsPaidFor` | software/src/state-machine.c:128-286 | The same for a timeout or a request, with the smaller credit left once the broker has been heard |
| `SignalRing.FirstInFirstOut` | software/src/portal-daemon.c:777-805 | Over any interleaving of pushes and pops, accepted entries are the popped ones followed by those still queued, never more than 64 |
| `SignalRing.Ring.Push` | software/src/portal-daemon.c:777-788 | Across the wrap-around the new pair comes last; the push fails exactly when 64 are queued and then changes nothing |
| `SignalRing.Ring.Pop` | software/src/portal-daemon.c:790-805 | The oldest signal comes out with its own client id; fails exactly when empty |
| `ClientTable.SwapRemoveTakesOne` | software/src/portal-daemon.c:1139-1146 | Filling the gap with the last element removes one element and keeps the rest |
| `ClientTable.SweepIsExact` | software/src/portal-daemon.c:1113-1124 | The sweep leaves the clients having none of the flags, as often as they were there |
| `ClientTable.SweepReleasesSockets` | software/src/portal-daemon.c:1113-1147 | The sockets closed and the sockets kept are together the sockets there were |
| `ClientTable.SweepKeepsIdsInOrder` | software/src/portal-daemon.c:1113-1124 | Live ids stay distinct and valid, and the next id stays free |
| `ClientTable.RemovalKeepsIdsInOrder` | software/src/portal-daemon.c:1126-1147 | The same for the removal of one client; exactly the removed id is free afterwards |
| `ClientTable.ScanGoesOn` | software/src/portal-daemon.c:1351-1364 | While every id tried is held by some slot there are untried ones, so the scan makes progress across the wrap-around |
| `ClientTable.Table.IsHeld` | software/src/portal-daemon.c:1360-1364 | Whether any slot in use, filled or not, holds the id |
| `ClientTable.Table.FetchNextId` | software/src/portal-daemon.c:1347-1367 | The stored id is handed out; the new one is valid, held by no slot, and all ids passed over are held; the loop ends |
| `ClientTable.Table.Add` | software/src/portal-daemon.c:1084-1111 | With all slots taken nothing changes; otherwise the client is last, with the stored id and no flags, and all earlier clients and the fixed slots are untouched |
| `ClientTable.Table.Remove` | software/src/portal-daemon.c:1126-1147 | One client is gone and its socket closed, the others keep socket and record together |
| `ClientTable.Table.RemoveAll` | software/src/portal-daemon.c:1113-1124 | Survivors are the clients without the flags, the closed sockets are the others', the fixed slots are untouched, and the loop ends |
| `ClientTable.Table.FindById` | software/src/portal-daemon.c:1332-1340 | The slot of a client with that id, or the invalid index exactly if there is none |
| `ClientTable.Table.Mark` | software/src/portal-daemon.c:560-561 | A client's flags are added to, and it sees the log |
| `Topics.DecodeIsExact` | software/src/portal-daemon.c:912-982 | A message is taken for an event exactly if its topic and payload announce that event |
| `Topics.StatusIsDecoded` | software/src/portal-daemon.c:921-940 | A door's status topic with one of the three payloads tells of that door and that state; any other payload of nothing |
| `DaemonLemmas.CloseIsAnswered` | software/src/state-machine.c:259-283 | Every close request is refused, answered "no change", or leads to waiting for the lock |
| `DaemonLemmas.HandleIsExact` | software/src/portal-daemon.c:283-428 | Handling a signal disconnects exactly the clients it dismisses |
| `DaemonLemmas.DrainIsExact` | software/src/portal-daemon.c:279-430 | After the drain the ring is empty, exactly the dismissed clients are gone, the timer has followed all requests in order, and the machine is as before |
| `DaemonLemmas.HandleSendsCommands` | software/src/portal-daemon.c:289-353 | A signal publishes its commands up to the first that fails; the second door is told to lock only if the first was |
| `DaemonLemmas.DrainSendsCommands` | software/src/portal-daemon.c:289-353 | What the drain publishes is taken from the queued commands, in order and each at most once: all of them while connected and accepted, none while not connected |
| `DaemonLemmas.OwnCommandsAreIgnored` | software/src/portal-daemon.c:965-973 | The commands the daemon publishes and receives back leave it unchanged |
| `DaemonLemmas.ExpiryLosesNoTimer` | software/src/portal-daemon.c:414-422 | Whenever the timer expires between a request and its handling, the queued requests leave it as alive as without the expiry |
| `DaemonRuns.ActionKeepsInv` | software/src/portal-daemon.c:279-728 | Every action in every phase of the loop keeps the invariant: closers will be dismissed, the timer is due, the ring is paid for, ids are in order |
| `DaemonRuns.ReachableKeepsInv` | software/src/portal-daemon.c:279-728 | The invariant holds in every reachable daemon |
| `DaemonRuns.MachineFollowsEvents` | software/src/portal-daemon.c:279-728 | The machine takes one step of its own for each event the loop applies, and none otherwise |
| `DaemonRuns.AskingToCloseIsServed` | software/src/portal-daemon.c:633-648 | Right after its request a client that asks to close is waiting for an operation or for a queued signal that will dismiss it |
| `DaemonRuns.ApplyKeepsServing` | software/src/portal-daemon.c:362-427 | Every event keeps such a client waiting for the one or the other |
| `DaemonRuns.MachineFollowsRun` | software/src/portal-daemon.c:279-728 | On every run of the loop its machine is what the state machine by itself makes of the events applied |
| `DaemonTheorems.NoCloserIsLeftHanging` | software/src/portal-daemon.c:362-427 | With no signal lost, an idle reachable daemon with an empty ring has no client waiting for the lock |
| `DaemonRequests.AskersAreMarked` | software/src/portal-daemon.c:557-648 | On every run a client that has sent a request to open or to close, and stays connected, carries the three flags of its request and sees the log |
| `DaemonRequests.WhoeverAskedToCloseIsServed` | software/src/portal-daemon.c:633-648 | On every run without loss a client that sent a request to close, and has been connected since, finds the daemon busy or with signals to handle |
| `DaemonRequests.WhoeverAskedToOpenIsServed` | software/src/portal-daemon.c:557-608 | The same for a request to open, unless an event has completed the locking of the shack since the request |
| `DaemonRequests.RefusalsArePersonal` | software/src/portal-daemon.c:388-399 | A request while an operation is under way sends just the client that made it away, and the operation goes on |
| `DaemonRequests.ProperRequests` | software/src/portal-daemon.c:595-648 | A request with a nick, a name and a positive number, or to close, marks its client and is applied in its name |
| `DaemonRequests.NamelessRequests` | software/src/portal-daemon.c:563-570 | Without these a request to open sends its client away and does nothing else |
| `DaemonRequests.CommandingRequests` | software/src/portal-daemon.c:650-677 | Forcing the doors open publishes all four commands whichever of them fail, a reset one to everybody; the client leaves and nothing else happens |
| `DaemonRequests.PlainRequests` | software/src/portal-daemon.c:667-718 | All other messages, and hanging up, send the client away and do nothing else |
| `DaemonWaiting.LeftAloneItRests` | software/src/portal-daemon.c:279-527 | Every sequence of steps a reachable daemon without loss and with room in its ring takes with nothing arriving is bounded; where it ends no client waits for the lock, and the daemon is as it was if it was about to sleep without a timer, and otherwise idle with all signals handled |
| `DaemonWaiting.RestIsReached` | software/src/portal-daemon.c:279-527 | From every reachable daemon such a sequence leads to rest |
| `DaemonWaiting.RestIsUntimedSleep` | software/src/portal-daemon.c:437-443 | Nothing happens by itself exactly while the daemon sleeps without a timer |
| `DaemonWaiting.UntimedSleepIsHarmlessToClosers` | software/src/portal-daemon.c:432-437 | A reachable daemon about to sleep without a timer has no client that waits for the lock, and a request for a timeout queued if it is busy |
| `DaemonWaiting.BusySleepIsUntimedExactly` | software/src/portal-daemon.c:432-437 | On every run a daemon that is busy before or during its sleep has no timer if and only if it had none at the end of the last drain; it was idle then, and a button began the operation since |
| `DaemonWaiting.OperationsCanSleepUntimed` | software/src/portal-daemon.c:432-437 | A daemon can be reached that sleeps while locking, without a timer, with nothing sent and the request queued |
| `DaemonWaiting.SuchOperationsNeverEnd` | software/src/portal-daemon.c:437-443 | Whatever such a daemon does with nothing arriving, its state does not change |
| `DaemonTheorems.TimeoutDismissesEverybody` | software/src/portal-daemon.c:424-427 | A timeout disconnects exactly the clients that wait for an outcome |
| `DaemonOpeners.OpenerIsStrandedExactly` | software/src/portal-daemon.c:557-608 | While an operation is under way or asked for, whatever is queued, an event leaves a client that only asked to open in an idle, drained daemon if and only if it completes a locking and no signal queued before disconnects the client |
| `DaemonOpeners.ApplyKeepsOpenerServed` | software/src/state-machine.c:149-283 | Every event that does not complete a locking keeps an opener waiting for an operation or for a queued signal that disconnects it |
| `DaemonOpeners.OpenersOnlyStayAfterALocking` | software/src/portal-daemon.c:362-427 | In every run without loss, an opener still connected to an idle, drained daemon had asked before an event that completed a locking, and has been connected since |
| `DaemonOpeners.OpenersCanBeStranded` | software/src/state-machine.c:156-202 | Such a daemon can be reached: the shack is locked, a client asks to enter by the front door, nobody does, and the door reports locked twice |
| `DaemonTheorems.BusyDaemonHasTimer` | software/src/portal-daemon.c:414-527 | In every reachable daemon that lost no signal, a busy machine's timer is running or fired unread once the queue is handled |
| `DaemonTimeouts.RequestsAreAccounted` | software/src/portal-daemon.c:414-422 | In every run without loss each request for a timeout was carried out or is still queued |
| `DaemonTimeouts.TimeoutEndsItsOwnOperationExactly` | software/src/portal-daemon.c:516-527 | A timeout read while the machine is busy ends the operation; it is the one that made the last request if and only if no start or cancel request is queued, and otherwise the timer ends up running for an idle daemon |
| `DaemonTimeouts.TimeoutsCanBeLate` | software/src/portal-daemon.c:475-527 | A daemon can be reached whose expired timer is read while an operation has just begun and its request is still queued |
| `DaemonTimeouts.IdleDaemonHasNoTimer` | software/src/portal-daemon.c:414-422 | On every run without loss and without a late timeout an idle daemon has no timer once its queue is handled |
| `DaemonBursts.QueueIsBounded` | software/src/portal-daemon.c:279-728 | A reachable daemon that lost nothing has at most (7n+9)/3 signals queued, n being the events since the last drain |
| `DaemonBursts.ModerateBurstsLoseNothing` | software/src/portal-daemon.c:766-822 | No signal is lost on a trace with at most 26 events between two drains |
| `DaemonBursts.BurstsOf27CanOverflow` | software/src/portal-daemon.c:766-822 | A trace from the start, with at most 27 events between two drains, ends with a signal lost |
| `DaemonBursts.BurstsLoseNothingExactly` | software/src/portal-daemon.c:279-728 | All traces with at most n events between two drains are free of loss if and only if n is at most 26 |
| `DaemonTheorems.IdsAreNotReissuedWhileQueued` | software/src/portal-daemon.c:1084-1108 | When clients are accepted no queued signal names a client, so a new id is not one still queued |
| `DaemonTheorems.QueuedIdResolvesToItsIssuer` | software/src/portal-daemon.c:284-286 | A client found for an id that has been queued all along was connected, on the same socket, when it was queued |
| `PortalDaemon.PortalDaemon.constructor` | software/src/portal-daemon.c:90-103 | The daemon starts idle, with an empty ring, no client and no timer |
| `PortalDaemon.PortalDaemon.ApplyEvent` | software/src/portal-daemon.c:807-822 | The objects follow the daemon's value, and whether a signal was refused is recorded |
| `PortalDaemon.PortalDaemon.SendMessage` | software/src/portal-daemon.c:876-894 | Publishes and succeeds exactly if connected and the MQTT client accepts the message |
| `PortalDaemon.PortalDaemon.HandleSignal` | software/src/portal-daemon.c:288-428 | The branch for each signal changes the objects as the value changes |
| `PortalDaemon.PortalDaemon.DrainSignals` | software/src/portal-daemon.c:283-430 | The loop ends and leaves the fully drained value |
| `PortalDaemon.PortalDaemon.HandleMessage` | software/src/portal-daemon.c:912-982 | Applies the event a message announces, if any |
| `PortalDaemon.PortalDaemon.AcceptClient` | software/src/portal-daemon.c:453-473 | A client is accepted with the stored id, and the next id is free and new, as the transition system demands |
| `PortalDaemon.PortalDaemon.HandleOpen` | software/src/portal-daemon.c:557-608 | Marks the client; without proper member data it is removed, otherwise its request is applied |
| `PortalDaemon.PortalDaemon.HandleRequest` | software/src/portal-daemon.c:530-725 | Each kind of message, an unknown one and hanging up change the objects as the value changes; forcing the doors open and resetting the system while not connected are exactly what the daemon does not survive |
| `PortalDaemon.PortalDaemon.HandleTimer` | software/src/portal-daemon.c:516-527 | Reading the fired timer applies a timeout |
| `DaemonLoop.Pass` | software/src/portal-daemon.c:279-728 | One pass over the objects takes exactly the listed steps: every queued signal, every message of the flush, the sleep, and once woken the caller, every message, the timer if it was ready, and the clients' requests in the order of their slots; it ends finished, asleep because nothing is ready, or dead |
| `DaemonLoop.ServeFixedSlots` | software/src/portal-daemon.c:448-527 | After waking up a caller is connected if a slot is free, all messages are applied, and the timer is read exactly if it had expired |
| `DaemonLoop.ServeClients` | software/src/portal-daemon.c:529-728 | The slots in use are served from first to last, each once, and only the two requests that need the broker end the daemon |
| `DaemonLoop.PathsStayReachable` | software/src/portal-daemon.c:279-728 | From a reachable daemon such steps lead to reachable daemons, so the theorems hold of the objects |
| `DoorMachine.StateMachine.SetState` | firmware/door-control/main/state-machine.c:50-130 | Entering a state sets the pins, timeout, flag and signal that belong to it |
| `DoorMachine.StateMachine.ChangeDoorState` | firmware/door-control/main/state-machine.c:156-256 | The whole reaction to a door report in every state: new fields, pins, timer request and signals in order |
| `DoorMachine.StateMachine.SendEvent` | firmware/door-control/main/state-machine.c:258-378 | The whole reaction to an order in every state, and the result its sender gets |
| `DoorCauses.SignalsHaveTheirCauses` | firmware/door-control/main/state-machine.c:156-378 | For every machine, report or order and signal: the signal is given exactly in the circumstances listed for it |
| `DoorCauses.StatesHaveTheirCauses` | firmware/door-control/main/state-machine.c:156-378 | For every machine and input: each state is entered exactly in the circumstances listed for it |
| `DoorCauses.TimeoutsFollowStates` | firmware/door-control/main/state-machine.c:50-130 | Entering a state starts its own timeout afresh, becoming idle stops it, everything else leaves it |
| `DoorCauses.OutcomesAreExact` | firmware/door-control/main/state-machine.c:258-314 | The sender of an order is told exactly when the machine is busy and when its door is at fault |
| `DoorCauses.HistoriesAreRuns` | firmware/door-control/main/state-machine.c:132-154 | The machines before each input of a run from the start form a history |
| `DoorCauses.AwaitedReportsAreAnswered` | firmware/door-control/main/state-machine.c:220-242 | On every run opening the door that is to be entered, and closing the one that is to be locked, take the operation on at once |
| `DoorCauses.BoltReportsAreAnsweredExactly` | firmware/door-control/main/state-machine.c:193-254 | The report of the bolt does so exactly if the machine does not believe it already |
| `DoorCauses.EarlyReportsAreMissed` | firmware/door-control/main/state-machine.c:169-175 | On every run a machine that locks and believes its door locked was told so before it began to wait for that, in the same operation |
| `DoorCauses.NobodyWhoEnteredIsLockedIn` | firmware/door-control/main/state-machine.c:341-348 | On every run NO_ENTRY is said only at a timeout, and only if since UNLOCKED the door was not reported open |
| `DoorRuns.ControllersTellTales` | firmware/door-control/main/state-machine.c:156-378 | In every run orders and signals form complete tales and at most one beginning, none exactly when idle; no tale of an unsafe order has NO_ENTRY or a lock |
| `DoorRuns.TimeoutsCompleteTales` | firmware/door-control/main/state-machine.c:316-374 | From every busy state at most five timeouts make the machine idle, and with what they signal the tale begun is complete |
| `DoorRuns.PinsFollowStateAlways` | firmware/door-control/main/state-machine.c:50-130 | In every run the OPEN pin is active exactly in INIT_OPEN and the CLOSE pin exactly in INIT_LOCK, never both, and only a safe order waits for entry |
| `DoorRuns.UnsafeFlagAfterStep` | firmware/door-control/main/state-machine.c:262-289 | Exactly when a machine that is idle after a report or an order has the flag of an unsafe order set |
| `DoorRuns.UnsafeFlagLingersExactly` | firmware/door-control/main/state-machine.c:262-289 | On every run that ends idle the flag is set if and only if the last order to open since the machine was busy was an unsafe one to a door that was not locked |
| `DoorRuns.UnsafeFlagCanLinger` | firmware/door-control/main/state-machine.c:262-282 | Telling an unlocked door to open leaves the flag set while idle |
| `DoorRuns.LingeringFlagIsHarmless` | firmware/door-control/main/state-machine.c:193-218 | From an idle machine every sequence of inputs is answered by the same signals, pins and states with the flag and without |
| `DoorRuns.BusyControllersAreTimed` | firmware/door-control/main/door-control.c:421-450 | Whatever is delivered and when, a busy machine's timeout runs or is pending, and an idle one's does not run, the timeout task being replaced in one go |
| `DoorRuns.OperationsEndInTime` | firmware/door-control/main/state-machine.c:7-11 | Time taken and time that can still be taken stay within 100200 ms along every run with prompt timeouts |
| `DoorRuns.EveryOperationEndsInTime` | software/src/state-machine.h:6 | From the start of a controller on, as long as timeouts are delivered promptly, no operation takes longer than 100200 ms, less than the daemon's 120000 ms |
| `DoorRuns.LongestOperationOccurs` | firmware/door-control/main/state-machine.c:7-11 | A run with prompt timeouts that takes 100200 ms |
| `DoorRuns.StatesAreNotRevisited` | firmware/door-control/main/state-machine.c:156-378 | On every run a machine that leaves a state does not come back to it before it has been idle |
| `DoorPairs.PairsAreOnTime` | firmware/door-control/main/state-machine.c:7-11 | Every prompt move of two controllers and the daemon's machine, which hears what they report and commands the second, keeps within 80100 ms for the first controller and 20100 ms more for the second |
| `DoorPairs.EntryIsAnswered` | software/src/state-machine.c:174-184 | A daemon waiting at the first door commands the second exactly when the first reports open and the shack is not open yet |
| `DoorPairs.OpeningsEndBeforeTheDaemonGivesUp` | software/src/state-machine.h:6 | An opening taken up by a locked, idle first controller is over, with both doors, after at most 100200 ms, and until then the daemon's timeout cannot occur |
| `SensorWindow.Window.constructor` | firmware/door-control/main/door-control.c:101-103 | The window starts as open, closed, locked, fault and four times closed |
| `SensorWindow.Window.Push` | firmware/door-control/main/door-control.c:105-112 | Across the wrap-around the window holds the last eight readings |
| `SensorWindow.Window.Smoothed` | firmware/door-control/main/door-control.c:114-125 | Succeeds with a state exactly if the whole window agrees on it |
| `SensorWindow.Classify` | firmware/door-control/main/door-control.c:83-99 | Two contacts to a state, never a fault |
| `SensorWindow.StableWhenLastEightAgree` | firmware/door-control/main/door-control.c:101-125 | After eight readings the window is stable exactly if the last eight agree |
| `SensorWindow.StableBeforeEightReadings` | firmware/door-control/main/door-control.c:103-103 | Before that, exactly if there are at least four readings and all say closed |
| `SensorWindow.StableIsNeverFault` | firmware/door-control/main/door-control.c:194-217 | A stable state is never a fault |
| `DoorCommands.CommandsReachTheirDoor` | firmware/door-control/main/door-control.c:323-351 | The commands of each signal set exactly the bit they are meant to set in exactly the controllers they are meant for |
| `DoorController.BitsAreOrders` | firmware/door-control/main/door-control.c:259-274 | The orders of a turn are those whose bits are set, each once, in a fixed sequence |
| `DoorController.IdleMachinesObeyExactly` | firmware/door-control/main/door-control.c:259-274 | For every combination of bits: whether an idle machine starts to open, safely or not, to lock or to wait for the door |
| `DoorController.BusyMachinesOnlyTimeOut` | firmware/door-control/main/door-control.c:259-274 | A busy machine is left alone unless the timeout bit is set |
| `DoorController.TurnsAreRuns` | firmware/door-control/main/door-control.c:226-303 | Over any number of turns the machine makes the run of the orders given and the states published |
| `DoorController.OperationsWereAskedFor` | firmware/door-control/main/door-control.c:259-274 | Every operation heard of over any number of turns had the bit of its order set in one of them |
| `DoorController.FirstTurnIsHeard` | firmware/door-control/main/door-control.c:224-292 | The first stable turn after the start publishes, moved or not |
| `DoorController.TurnIsConsistent` | firmware/door-control/main/door-control.c:259-303 | A turn keeps machine and published state in agreement, publishes at most one state, one that eight readings agree on, and does so exactly if it is new or an update is due |
| `DoorController.TurnsCountDown` | firmware/door-control/main/door-control.c:276-303 | Consistency over any number of turns; while nothing is published the forced update comes closer |
| `DoorController.SilenceIsBounded` | firmware/door-control/main/door-control.c:281-298 | More than a hundred turns, the last of them stable, publish at least once |
| `DoorController.DoorController.GetDoorState` | firmware/door-control/main/door-control.c:127-147 | Takes one reading and says what the window agrees on |
| `DoorController.DoorController.Start` | firmware/door-control/main/door-control.c:194-217 | Reads the contacts at most 101 times and ends with a machine in the first stable state, or without one exactly if there was none |
| `DoorController.DoorController.PassOrders` | firmware/door-control/main/door-control.c:259-274 | The orders of a turn reach the machine in a fixed sequence |
| `DoorController.DoorController.LoopOnce` | firmware/door-control/main/door-control.c:226-303 | One turn of the loop changes the objects as the value changes |
| `Network.LastStatusDecides` | software/src/portal-daemon.c:921-940 | Receiving a channel whose last status is a state gives the daemon the view of that state |
| `Network.TurnKeepsAgreement` | firmware/door-control/main/door-control.c:164-175 | A turn of a controller, publishing or not, keeps the agreement |
| `Network.DeliveryKeepsAgreement` | software/src/portal-daemon.c:921-940 | So does the receipt of the oldest status |
| `Network.LossKeepsAgreement` | software/src/portal-daemon.c:921-940 | So does the loss of a status, unless it was the newest |
| `Network.ActionKeepsInv` | software/src/portal-daemon.c:912-982 | So does everything that can happen, restarts included, for both doors at once |
| `Network.ViewsAgree` | software/src/state-machine.c:100-121 | On every run, once a controller has published since the last restart and the last loss of its newest status, folding its channel into the daemon's view gives the controller's own state |
| `Network.ShackStateIsTrue` | software/src/state-machine.c:288-305 | With both channels empty, and both controllers having published since, the daemon's shack state follows from both controllers' states |
| `Network.ViewsAreTrue` | firmware/door-control/main/door-control.c:83-125 | On every run, after eight turns with the same contacts, with the controller heard since and nothing on its way, the daemon sees the door as the two contacts say |
| `Network.ShackIsLockedExactly` | software/src/state-machine.c:288-305 | So it takes the shack for locked exactly if all four contacts are made, and for open exactly if neither door has both |
| `PoissonDisk.AnnulusPoints` | scripts/calibration/space_view3d_point_cloud_visualizer.py:4811-4834 | Exactly the unused presamples of the annulus are taken and become used |
| `PoissonDisk.AddCandidates` | scripts/calibration/space_view3d_point_cloud_visualizer.py:4845-4859 | Candidates stay apart from one another and from accepted points, and each tried point is covered |
| `PoissonDisk.SampleSurface` | scripts/calibration/space_view3d_point_cloud_visualizer.py:4787-4866 | For all random choices the loop ends, and accepted points are separated and cover what is within twice the distance |
| `PlyText.DecimalRoundTrip` | scripts/calibration/space_view3d_point_cloud_visualizer.py:1261-1261 | A number is read back from its decimal digits |
| `PlyHeader.WriteHeader` | scripts/calibration/space_view3d_point_cloud_visualizer.py:1234-1274 | Fails on an unknown type code, then on non-ASCII text; otherwise gives the header's lines |
| `PlyHeader.CollectLines` | scripts/calibration/space_view3d_point_cloud_visualizer.py:1115-1121 | The lines up to the end of the header or of the file, raw and stripped |
| `PlyHeader.ReadHeader` | scripts/calibration/space_view3d_point_cloud_visualizer.py:1112-1184 | The method with its three passes finds what the recursive definition of the header finds, errors included |
| `PlyHeader.LinesAreReadBack` | scripts/calibration/space_view3d_point_cloud_visualizer.py:1115-1121 | From the concatenation of header lines and any payload exactly these lines are read |
| `PlyHeader.TypeIsReadBack` | scripts/calibration/space_view3d_point_cloud_visualizer.py:1043-1060 | The reader's type table undoes the writer's except that `c` becomes `b` |
| `PlyHeader.FieldsAreReadBack` | scripts/calibration/space_view3d_point_cloud_visualizer.py:1138-1168 | After k property lines the reader has the vertex element with the first k fields in order |
| `PlyHeader.HeaderRoundTrip` | scripts/calibration/space_view3d_point_cloud_visualizer.py:1251-1274 | A written header followed by any payload is read as the same format, count and fields, and its length is exactly the bytes written |
| `PlyHeader.FieldsSurviveExactly` | scripts/calibration/space_view3d_point_cloud_visualizer.py:1232-1232 | The fields keep their types if and only if no type code is `c` |
| `PlyHeader.HeaderInFull` | scripts/calibration/space_view3d_point_cloud_visualizer.py:1251-1274 | A header written out, line by line |
| `PlyHeader.HeadersAreChecked` | scripts/calibration/space_view3d_point_cloud_visualizer.py:1115-1137 | Text that is not ASCII, an empty file and a wrong first line are rejected, and an accepted header names a supported format |
| `PlyHeader.FormatsAreChecked` | scripts/calibration/space_view3d_point_cloud_visualizer.py:1126-1136 | A format line is accepted exactly with a supported format and version |
| `PlyHeader.ScalarsAreChecked` | scripts/calibration/space_view3d_point_cloud_visualizer.py:1151-1166 | A property line of any program is accepted exactly after a format and an element and with a known type |
| `PlyHeader.ListsAreRead` | scripts/calibration/space_view3d_point_cloud_visualizer.py:1152-1157 | A list line gives the types of count and items and the name, in this order |
| `PlyHeader.ElementsAreChecked` | scripts/calibration/space_view3d_point_cloud_visualizer.py:1146-1150 | An element line is accepted exactly if its count is a number |
| `PlyValues.NumbersAreReadBack` | scripts/calibration/space_view3d_point_cloud_visualizer.py:1257-1277 | A number of any width, laid out in the byte order of the points behind the header written for it, is found by the reader's byte order and header length |
| `PlyValues.TypesHaveTheirSize` | scripts/calibration/space_view3d_point_cloud_visualizer.py:1232-1232 | The type written for a code is to the reader the one of the code's own kind and width |
| `PlyValues.OriginalTypesHaveTheirWidth` | scripts/calibration/space_view3d_point_cloud_visualizer.py:1042-1060 | The reader gives the original PLY types their widths and signs |

## Left out

- Sockets, TLS, the MQTT library, timer and serial system calls, GPIO pins and FreeRTOS tasks appear only as steps that can happen at any time in their place; which attempts to publish the MQTT library accepts is an input.
- `DaemonLoop.Pass`: the connection to the broker is made and lost between passes only; the transition system lets it happen at any time.
- `PortalDaemon.PortalDaemon.HandleRequest`: a message that cannot be received whole is retried by the program and not a step of the model.
- A failing read of the timer and a poll that fails for a reason other than a signal leave the daemon's state alone; the first is not a step of the model.
- The timer may fire any time after it was armed; that it fires 120000 ms later is used only for the comparison with the controllers.
- `PortalDaemon.PortalDaemon.HandleOpen`: the members' names are not kept, as only the log shows them, and running out of memory is not modelled.
- Texts sent to clients, log forwarding, the online status of devices, the API file and the measurement of the loop's duration, none of which acts on the protocol.
- The reset branch at the end of `mqtt_handle_message` cannot be reached for the daemon's own reset topic, because the branch for the common prefix comes first; the model ignores such messages as the code does.
- Disconnect flags are sets instead of bits, and the slots of removed clients are overwritten with constants of the model's own choice.
- `Network.ViewsAgree` assumes channels that keep the order of statuses and do not double them; a publication that fails, at which a controller aborts, is a restart.
- `Network.ShackStateIsTrue` takes the daemon's machine by itself; `DaemonRuns.MachineFollowsRun` says that the loop leads it through the same steps.
- A controller's button with its debounce time, its beeps and its texts.
- `DoorRuns.BusyControllersAreTimed`: the controller's timeout task is deleted and created atomically in the model; preemption between its last two statements is not modelled.
- `DoorRuns.EveryOperationEndsInTime` gives upper bounds only: a stale timeout can shorten any wait, and a bolt moved during the 100 ms of a button press is noticed late or by the timeout only.
- `DaemonBursts.BurstsLoseNothingExactly` counts events between two drains in the model of the loop; how many messages the broker can deliver in one pass is not limited by it.
- `DoorPairs.OpeningsEndBeforeTheDaemonGivesUp` has the daemon's machine without its ring, and leaves out the time messages take between the controllers and the daemon, for which almost 20 seconds remain.
- `PoissonDisk.SampleSurface` uses exact real numbers instead of floating point, takes range queries as inclusive, starts from an unspecified presample instead of drawing until one is found, and requires at least one presample, whose absence the presampler reports.
- `PlyValues.NumbersAreReadBack` is about one number; arrays of records, elements other than vertices and ASCII data are not modelled.
- `PlyHeader.ReadHeader` reads counts as decimal digits with an optional sign (Python also takes underscores and surrounding white space), and counts the lines of an ASCII header by newlines alone.
- `PlyHeader.WriteHeader` takes the byte order of the field x and of the machine as inputs.
- The Busch interface, the IPC and log modules, the trigger program, the shell and Lua scripts and all Blender code: thin plumbing around the parts above.
