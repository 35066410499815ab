# Verified model of the c6021light kernel services

c6021light runs on FreeRTOS V10.4.1.  This project models the parts of that kernel which the
firmware is built on, the firmware's own I2C interrupt machine and its command-line dispatch,
and proves what they promise:

- **Software timers** (`TimerSpec`, `TimerInvariant`, `TimerSchedule`, `TimerLimits`,
  `TimerDormancy`, `TimerEffects`, `TimerCommands`, `TimerDaemon`).  A daemon keeps two sorted lists and swaps them when the 32-bit tick count
  wraps.  Code decides on wrapped ticks only; absolute times ride along as history, and the
  proofs say that the decisions are those that the absolute times demand.
- **Lists** (`ListSpec`, `RoundRobin`, `Lists`).  Circular doubly linked lists on the heap,
  proved to be a sequence with a moving index.
- **Queues** (`Ring`, `QueueSpec`, `QueueRing`, `QueueWakeups`, `QueueWaiters`).  A ring of slots
  proved to be a bounded double-ended queue, the protocol that defers wake-ups while a task holds
  the queue, in every interleaving of tasks and interrupts, and whom it wakes.
- **Stream and message buffers** (`StreamSpec`, `StreamBuffer`, `StreamInterleaving`,
  `StreamOffers`, `MessageInterleaving`, `MessageRing`).  The byte ring, length-prefixed framing, and
  one writer and one reader without a lock, from what the sender's caller hands in to what the
  receiver's caller gets.
- **Event groups** (`EventGroupSpec`, `EventGroup`, `EventGroupProperties`, `EventGroupAnswers`,
  `Rendezvous`).
- **I2C** (`I2cSpec`, `I2cDriver`, `I2cProperties`, `I2cAnswers`).  The interrupt handlers under an arbitrary
  stream of bus events, against an independent listener.
- **Command line** (`CliSpec`, `Cli`).

Where the source changes things in place the model is a class (`Daemon`, `List`, `Queue`,
`StreamBuffer`, `EventGroup`, `Driver`).  Each of its methods is proved to change the state as
a function of the same name says, or as its contract says outright; the properties over steps
and whole runs are lemmas about those functions.  `Ticks` is 32-bit tick arithmetic;
`Options` and `Sequences` are shared odds and ends.

Run `dafny verify dfyconfig.toml` to check everything.

## Where the code and its documentation disagree

The model follows the code.  Each disagreement is stated exactly.

- A one-shot timer is documented to be dormant once it has expired.  A timer that has fired is
  dormant if and only if the daemon met its expiry in a turn of its own loop with no tick
  overflow since it last looked; an expiry drained at an overflow, or found to be past when the
  start command is handled, leaves the timer active, until some command about it comes
  (`TimerDormancy.OneShotDormantOnlyAfterNormalExpiry`, `TimerDormancy.FiredButActive`).
- At a tick overflow the daemon posts a command to itself for every auto-reload timer on the
  list and asserts that there is room.  It stops at that assertion if and only if there is such
  a timer, and the commands waiting, these timers, and the commands posted by the callbacks run
  up to the last of its own commands together exceed the queue
  (`TimerLimits.DrainTrapsExactlyWhenFull`, `TimerLimits.OnePostTraps`).  The condition of every
  assertion of the daemon is `TimerLimits.StepStopsExactlyWhen`.
- A message that needs exactly the length of the buffer passes the feasibility test of
  `xStreamBufferSend` and yet can never be sent (`StreamSpec.FeasibleIsNotEnough`,
  `StreamSpec.NeverSent`).  A stream send of that length or more waits until its time is up: the
  cap on its requirement, put in against this, is one byte too high
  (`StreamSpec.StreamWaitsInVain`).
- A queue reset frees every slot but wakes one sender
  (`QueueWakeups.ResetCoversSendersExactlyWhen`, `QueueWakeups.ResetLosesSender`).
- The I2C receiver does not guard against a byte outside a transaction: one that comes while
  the slot of a truncated message lacks just its last byte completes that message
  (`I2cProperties.StrayByteIsHarmlessExactlyWhen`, `I2cProperties.StrayByteCompletesTruncated`).
- Sending is to start transmitting.  A message that finds the I2C bus busy when its turn comes gets
  its start bit only when a message has been received or with a bus error as master; sending
  another one does not help, even if the bus is free by then (`I2cAnswers.GoesOnExactlyWhen`,
  `I2cAnswers.SecondSendDoesNotStart`).

## Model

| member | source | states |
|---|---|---|
| `Ticks.Later` | c6021light/lib/freertos/timers.c:699-740 | Of two times less than one wrap apart, the wrapped ticks alone give the epoch of the later one and the exact distance between them |
| `Ticks.SameEpochOrder` | c6021light/lib/freertos/timers.c:508-519 | Within one epoch, tick order is time order |
| `TimerInvariant.PlaceIsExact` | c6021light/lib/freertos/timers.c:699-740 | For a command less than 2^32 ticks old, "process now" exactly when the absolute expiry is past, current list exactly when it lies ahead in this epoch, overflow list exactly when it lies in the next |
| `TimerInvariant.PlaceNeedsTimeliness` | c6021light/lib/freertos/timers.c:699-740 | One tick more lateness breaks it: a command exactly 2^32 ticks late is never processed at once |
| `TimerInvariant.DrainHeadInv` | c6021light/lib/freertos/timers.c:904-945 | One turn of the drain keeps both lists sorted, in their epochs, and every timer linked at most once |
| `TimerInvariant.DrainHeadOrder` | c6021light/lib/freertos/timers.c:904-945 | The timer handled is the earliest, and nothing left or put back is due before it |
| `TimerSpec.DrainProgress` | c6021light/lib/freertos/timers.c:904-945 | Each turn of the drain uses up ticks of the epoch, so that the loop ends although it puts timers back |
| `TimerSpec.Drain` | c6021light/lib/freertos/timers.c:893-950 | The drain leaves the list empty unless an assertion fails, and touches neither the other list nor the timers |
| `TimerInvariant.DrainInv` | c6021light/lib/freertos/timers.c:893-950 | A whole drain keeps the invariant and arms no timer that was not armed |
| `TimerInvariant.DrainCallbacks` | c6021light/lib/freertos/timers.c:893-950 | Its callbacks run in non-decreasing order of absolute expiry, all of them expiries of the epoch that has passed, and no waiting timer is left out |
| `TimerInvariant.SampleInv` | c6021light/lib/freertos/timers.c:676-696 | Sampling less than one wrap after the last sample moves the invariant to the new time, across an overflow or not, with no callback before its time |
| `TimerInvariant.ReloadInv` | c6021light/lib/freertos/timers.c:508-544 | Re-arming or retiring the expired timer keeps the invariant |
| `TimerInvariant.RearmInv` | c6021light/lib/freertos/timers.c:527-538 | The next expiry is one period after the last, and goes to a list of its own epoch unless it is past too |
| `TimerInvariant.ExpireHeadInv` | c6021light/lib/freertos/timers.c:508-548 | Processing a due timer keeps the invariant and calls nothing early |
| `TimerInvariant.HandleStartInv` | c6021light/lib/freertos/timers.c:804-835 | A start command less than one wrap late keeps the invariant, late or not |
| `TimerInvariant.HandleChangePeriodInv` | c6021light/lib/freertos/timers.c:843-856 | A new period keeps the invariant |
| `TimerInvariant.HandleCommandInv` | c6021light/lib/freertos/timers.c:743-889 | Every received command, with the sampling that goes with it, keeps the invariant |
| `TimerInvariant.TakeTurnInv` | c6021light/lib/freertos/timers.c:587-646 | So does every pass over the timers |
| `TimerInvariant.StepInv` | c6021light/lib/freertos/timers.c:551-584 | So does every step of the daemon, of the application and of interrupts that post commands |
| `TimerInvariant.ReachableInv` | c6021light/lib/freertos/timers.c:551-950 | In every reachable state that has not stopped at an assertion the current list holds expiries of this epoch, the overflow list of the next, both sorted, each timer at most once, and no callback ever ran before its time |
| `TimerInvariant.NeverOversleeps` | c6021light/lib/freertos/timers.c:587-673 | The daemon sleeps past no expiry of either list, exactly to the earliest one of the current list, or to the next time the tick count is zero if that list is empty, and without a timeout exactly when nothing is armed |
| `TimerSchedule.NthIsLinear` | c6021light/lib/freertos/timers.c:527-538 | The n-th expiry is start + n * period, without drift |
| `TimerSchedule.InitiallySilent` | c6021light/lib/freertos/timers.c:377-421 | Before the first command a timer has nothing ahead |
| `TimerSchedule.StartSetsPlan` | c6021light/lib/freertos/timers.c:377-421 | A queued start command sets the schedule of an idle timer, from the time that the command carries |
| `TimerSchedule.DrainHeadOnSchedule` | c6021light/lib/freertos/timers.c:904-945 | The drain replaces an expiry by the next one, on the list or as a command, and loses or repeats none |
| `TimerSchedule.ExpireHeadOnSchedule` | c6021light/lib/freertos/timers.c:508-548 | The same for a normal expiry |
| `TimerSchedule.HandleStartOnSchedule` | c6021light/lib/freertos/timers.c:804-835 | The same for a start command, late or not |
| `TimerSchedule.OtherCommand` | c6021light/lib/freertos/timers.c:782-889 | Commands about other timers do not disturb a timer's schedule |
| `TimerSchedule.RunOnSchedule` | c6021light/lib/freertos/timers.c:522-939 | Over every run in which nobody touches the timer, an auto-reload timer runs for exactly V+P, V+2P, ... in order, once each; a one-shot timer once; an idle one never |
| `TimerSchedule.CaughtUpBeforeSleep` | c6021light/lib/freertos/timers.c:587-646 | When the daemon goes to sleep, the expiries handled are exactly those up to now |
| `TimerSchedule.StartedTimerKeepsTime` | c6021light/lib/freertos/timers.c:377-950 | From the initial state: whatever else happens before and after, an auto-reload timer started at V has run, whenever the daemon goes to sleep, for exactly V+P, V+2P, ... up to now |
| `TimerLimits.DrainTrapsExactlyWhenFull` | c6021light/lib/freertos/timers.c:904-945 | The assertion in the drain fails if and only if an auto-reload timer is on the list and the commands waiting, the auto-reload timers, and the commands that callbacks post before the last reload command exceed the queue length; for every behaviour of the callbacks |
| `TimerLimits.SampleTrapsExactlyWhenFull` | c6021light/lib/freertos/timers.c:676-696 | Sampling the time stops the daemon if and only if the tick count has overflowed and that condition holds |
| `TimerLimits.StepStopsExactlyWhen` | c6021light/lib/freertos/timers.c:508-950 | Over every step of daemon and application within the invariant, an assertion fails if and only if the drain finds no room; or, with no overflow, an auto-reload timer whose next expiry is past meets a full queue; or a late start of an auto-reload timer leaves no room behind its callback; or a period of zero is asked for |
| `TimerLimits.QuietDrainTraps` | c6021light/lib/freertos/timers.c:904-945 | Where callbacks post nothing, the commands waiting and the auto-reload timers decide |
| `TimerLimits.OnePostTraps` | c6021light/lib/freertos/timers.c:904-945 | A state within the invariant, with room for the one reload command, in which the daemon stops exactly if the callback posts a command |
| `TimerDormancy.FiringStep` | c6021light/lib/freertos/timers.c:508-945 | The step in which a one-shot timer fires leaves it dormant if and only if it is a turn of the daemon without a tick overflow |
| `TimerDormancy.SilentKeepsBit` | c6021light/lib/freertos/timers.c:551-950 | No later step changes the active bit of a timer that nobody touches |
| `TimerDormancy.OneShotDormantOnlyAfterNormalExpiry` | c6021light/lib/freertos/timers.c:508-945 | Over every run that leaves the timer alone, a one-shot timer that has fired is dormant if and only if it fired in such a step |
| `TimerDormancy.FiredButActive` | c6021light/lib/freertos/timers.c:804-835 | A one-shot timer that has fired, has nothing ahead, and still counts as active |
| `TimerDormancy.FiredAndDormant` | c6021light/lib/freertos/timers.c:508-548 | One that a turn of the daemon has met, and that is dormant |
| `TimerEffects.CallbackEffect` | c6021light/lib/freertos/timers.c:377-421 | A callback is logged for its expiry, and of the commands it posts those that find room are queued behind the others, in order; nothing else changes |
| `TimerEffects.ReloadAnswers` | c6021light/lib/freertos/timers.c:522-544 | An expired auto-reload timer has exactly its next expiry ahead, one period on: armed if that lies ahead, queued as a start if it is past; a one-shot timer has nothing armed and is inactive; nobody else is touched |
| `TimerEffects.ExpiryAnswers` | c6021light/lib/freertos/timers.c:508-548 | An expiry calls the timer once, for the time it was due, behind that re-arming |
| `TimerEffects.TurnMeetsDueHead` | c6021light/lib/freertos/timers.c:587-646 | A turn that finds the first timer of the list due, and no overflow, is such an expiry of it: one call for the time it was due, its next expiry ahead or none, all other timers and their arming as they were |
| `TimerEffects.QuietTurnAnswers` | c6021light/lib/freertos/timers.c:587-646 | With nothing due the turn goes to sleep and has changed nothing but the time of the last look |
| `TimerEffects.SwitchedTurnAnswers` | c6021light/lib/freertos/timers.c:587-646 | At an overflow the turn is the drain and the exchange of the lists, and no more |
| `TimerEffects.TurnPaysOne` | c6021light/lib/freertos/timers.c:587-646 | Such a turn takes the first off the calls that the list owes, and owes no new one |
| `TimerEffects.NothingDueBlocks` | c6021light/lib/freertos/timers.c:587-646 | With nothing due and no overflow the turn is a sleep |
| `TimerEffects.TurnsPayAll` | c6021light/lib/freertos/timers.c:551-646 | So as many turns as timers are due call them all, in the order of the list, and no other, and then the daemon sleeps |
| `TimerEffects.DueCallsAreAll` | c6021light/lib/freertos/timers.c:649-673 | The calls owed are those of all timers on the list that are due, and of no other |
| `TimerEffects.DrainAnswers` | c6021light/lib/freertos/timers.c:904-945 | A turn of the drain calls its timer once; the next expiry is armed if it lies in the epoch drained, and queued as a start behind the callback's own commands if not; nobody else is touched |
| `TimerEffects.PostAnswers` | c6021light/lib/freertos/timers.c:377-421 | Posting queues the commands that find room, in order, and does nothing else |
| `TimerEffects.ReloadModeAnswers` | c6021light/lib/freertos/timers.c:442-460 | A change of the reload mode changes just that |
| `TimerCommands.BeforehandAnswers` | c6021light/lib/freertos/timers.c:782-800 | Before a command is carried out its timer is off its list; without an overflow everyone else is untouched, with one the other list has become the current one |
| `TimerCommands.StopAnswers` | c6021light/lib/freertos/timers.c:837-882 | Stopping and deleting leave the timer on no list, inactive and not called |
| `TimerCommands.StartInTimeAnswers` | c6021light/lib/freertos/timers.c:804-820 | A start in time leaves the timer active and armed for exactly one period after it was asked for, and calls nobody |
| `TimerCommands.LateStartAnswers` | c6021light/lib/freertos/timers.c:815-831 | A late start calls the timer once, for that time, and queues the next start if it reloads |
| `TimerCommands.ChangePeriodAnswers` | c6021light/lib/freertos/timers.c:843-856 | A new period leaves the timer active, with that period, armed for exactly now and the period |
| `TimerCommands.ReceivedCommandAnswers` | c6021light/lib/freertos/timers.c:743-889 | Every step in which the daemon receives a command does that for the command's timer, and leaves the others as they were beforehand |
| `TimerCommands.StoppedIsSilent` | c6021light/lib/freertos/timers.c:837-882 | A timer stopped, with nothing about it queued, has nothing ahead |
| `TimerCommands.StoppedStaysSilent` | c6021light/lib/freertos/timers.c:551-950 | Over every run in which nobody starts it again it is not called, not armed and not active |
| `TimerDaemon.Daemon.InsertTimerInActiveList` | c6021light/lib/freertos/timers.c:699-740 | The in-place insertion is the placement proved exact |
| `TimerDaemon.Daemon.DrainOne` | c6021light/lib/freertos/timers.c:904-945 | One turn of the in-place drain loop |
| `TimerDaemon.Daemon.SwitchTimerLists` | c6021light/lib/freertos/timers.c:893-950 | The loop ends and does to the state what the recursive drain and the swap do |
| `TimerDaemon.Daemon.SampleTimeNow` | c6021light/lib/freertos/timers.c:676-696 | Reports a switch exactly when the tick went back, and returns the tick it recorded |
| `TimerDaemon.Daemon.ProcessExpiredTimer` | c6021light/lib/freertos/timers.c:508-548 | Expiry in place: removal, re-arming or retiring, then the callback |
| `TimerDaemon.Daemon.ProcessTimerOrBlockTask` | c6021light/lib/freertos/timers.c:587-646 | Chooses between expiry, switch and sleep as the decision that is proved never to oversleep |
| `TimerDaemon.Daemon.ProcessStart` | c6021light/lib/freertos/timers.c:804-835 | The start command in place |
| `TimerDaemon.Daemon.ProcessReceivedCommand` | c6021light/lib/freertos/timers.c:743-889 | One command in place |
| `TimerDaemon.Daemon.ProcessReceivedCommands` | c6021light/lib/freertos/timers.c:743-889 | The receiving loop is a run of the daemon's receive steps, which ends only with the queue empty, an assertion failed, or no more clock samples given |
| `ListSpec.InsertKeepsOthers` | c6021light/lib/freertos/list.c:115-180 | Insertion keeps the other items in their order |
| `ListSpec.InsertKeepsSorted` | c6021light/lib/freertos/list.c:115-180 | A sorted list stays sorted, and the new item stands behind all items of the same value |
| `Lists.List.constructor` | c6021light/lib/freertos/list.c:48-70 | A new list is a ring of its end marker alone |
| `Lists.List.FindPlace` | c6021light/lib/freertos/list.c:127-168 | The walk ends, behind the last item that is not greater, for `portMAX_DELAY` too |
| `Lists.List.Insert` | c6021light/lib/freertos/list.c:115-180 | Keeps ring, count and container links, and the contents become the sorted insertion |
| `Lists.List.InsertEnd` | c6021light/lib/freertos/list.c:85-112 | Keeps ring, count and container links, and puts the item just behind where the index rests |
| `Lists.List.Remove` | c6021light/lib/freertos/list.c:183-209 | Takes the item out, moves the index back if it rested there, and returns what is left |
| `Lists.List.NextEntry` | c6021light/lib/freertos/list.h:279-290 | Moves the index to the next item, past the end marker, and returns its owner |
| `Lists.LinkBetween` | c6021light/lib/freertos/list.c:99-106 | The four pointer assignments of an insertion make a ring with one node more |
| `Lists.LinkOut` | c6021light/lib/freertos/list.c:189-190 | The two of a removal make a ring with one node less |
| `RoundRobin.AdvanceRotates` | c6021light/lib/freertos/list.h:279-290 | Each call returns the head of the visiting order and sends it to the back |
| `RoundRobin.FullRound` | c6021light/lib/freertos/list.h:279-290 | n calls on n items return each item exactly once |
| `RoundRobin.InsertEndComesLast` | c6021light/lib/freertos/list.c:85-112 | An item added at the end is returned after all others but the one that the index rests on |
| `RoundRobin.RemoveKeepsOrder` | c6021light/lib/freertos/list.c:183-209 | Removing any item, even the indexed one, leaves the visiting order of the others |
| `RoundRobin.RemoveUndoesInsert` | c6021light/lib/freertos/list.c:85-209 | Removing an item just inserted restores the list and its index |
| `Ring.PushBack` | c6021light/lib/freertos/queue.c:2151-2164 | Storing behind the last item of a ring appends |
| `Ring.PushFront` | c6021light/lib/freertos/queue.c:2165-2177 | Storing before the first item of a ring prepends |
| `Ring.PopFront` | c6021light/lib/freertos/queue.c:2206-2224 | Moving the start of a ring on drops the first item |
| `QueueRing.Queue.PointersAgree` | c6021light/lib/freertos/queue.c:264-315 | (lastRead + 1 + count) mod length is always the next cell to write |
| `QueueRing.Queue.CopyDataToQueue` | c6021light/lib/freertos/queue.c:2123-2203 | To the back appends, to the front prepends, overwriting replaces the one item |
| `QueueRing.Queue.CopyDataFromQueue` | c6021light/lib/freertos/queue.c:2206-2224 | Hands out the front item |
| `QueueRing.Queue.Send` | c6021light/lib/freertos/queue.c:791-893 | The send section refines the bounded deque and wakes the first waiting receiver |
| `QueueRing.Queue.SendFromISR` | c6021light/lib/freertos/queue.c:1016-1131 | The same from an interrupt: wakes, or counts the wake-up owed while the queue is locked |
| `QueueRing.Queue.Receive` | c6021light/lib/freertos/queue.c:1342-1385 | Takes the front item and wakes the first waiting sender |
| `QueueRing.Queue.ReceiveFromISR` | c6021light/lib/freertos/queue.c:1828-1920 | The same from an interrupt, or counted while the queue is locked |
| `QueueRing.Queue.Peek` | c6021light/lib/freertos/queue.c:1705-1755 | Returns the front item, leaves the contents, and passes the wake-up on |
| `QueueRing.Queue.UnlockTx` | c6021light/lib/freertos/queue.c:2235-2313 | Wakes one receiver per item counted, as long as there are any |
| `QueueRing.Queue.UnlockRx` | c6021light/lib/freertos/queue.c:2316-2343 | Wakes one sender per slot counted, as long as there are any |
| `QueueRing.Queue.Lock` | c6021light/lib/freertos/queue.c:249-261 | Starts the counters that are not running |
| `QueueRing.Queue.Reset` | c6021light/lib/freertos/queue.c:264-315 | Empties the queue and wakes one sender |
| `QueueSpec.WakeReceivers` | c6021light/lib/freertos/queue.c:2240-2309 | Receivers stay on the list only if as many as were to be woken have been; which ones is `QueueWaiters.StepMovesReceivers` |
| `QueueWakeups.StepCoversReceivers` | c6021light/lib/freertos/queue.c:1016-1454 | Every step keeps: while receivers wait, the messages are covered by receivers woken and not yet retried, or by wake-ups counted |
| `QueueWakeups.StepCoversSenders` | c6021light/lib/freertos/queue.c:768-1454 | The mirror for free slots and senders, for every step but a reset |
| `QueueWakeups.ResetCoversSendersExactlyWhen` | c6021light/lib/freertos/queue.c:264-315 | After a reset the senders are covered if and only if at most one was waiting or enough have been woken before |
| `QueueWakeups.ResetLosesSender` | c6021light/lib/freertos/queue.c:264-315 | A run of a new queue after which, unlocked, a sender sleeps beside a free slot that nobody has been woken for |
| `QueueWakeups.RunCovers` | c6021light/lib/freertos/queue.c:2227-2344 | Both hold over all runs |
| `QueueWakeups.NoLostWakeup` | c6021light/lib/freertos/queue.c:2227-2344 | In no interleaving of tasks and interrupts on a new queue does a message wait in the unlocked queue while every receiver sleeps and none has been woken for it |
| `QueueWakeups.RunReplays` | c6021light/lib/freertos/queue.c:2123-2224 | Over every run, with back, front and overwriting sends, receives and resets, the queue holds what a bounded deque holds after the same transfers, and every item handed out was at its front |
| `QueueWakeups.BackOnlyIsFifo` | c6021light/lib/freertos/queue.c:2151-2164 | Such a deque that is filled at the back only and never reset hands items out in the order they went in |
| `QueueWakeups.RunFifo` | c6021light/lib/freertos/queue.c:2123-2224 | Over every run that sends to the back only and does not reset, the items put in are those handed out followed by those in the queue |
| `QueueWaiters.HeadsGoFirst` | c6021light/lib/freertos/tasks.c:3149-3205 | Taking from the head of a sorted list takes nobody who is less urgent than someone left, and of those alike the ones who joined first |
| `QueueWaiters.OfValueInsert` | c6021light/lib/freertos/tasks.c:3070-3098 | A task joins behind those of its priority and disturbs no other |
| `QueueWaiters.StepMovesReceivers` | c6021light/lib/freertos/queue.c:768-1454 | In every step the receivers' list stays sorted, and a task joins it, or one gives up, or exactly as many as are due are woken: each task once, everyone woken at least as urgent as everyone left, the longest waiting first among equals |
| `QueueWaiters.StepMovesSenders` | c6021light/lib/freertos/queue.c:768-1454 | The same for the senders: receives, the unlocking of the receive side, and resets |
| `QueueWaiters.RunKeepsOrder` | c6021light/lib/freertos/tasks.c:3070-3205 | Both lists are sorted over every run |
| `QueueWaiters.NobodyOvertakes` | c6021light/lib/freertos/queue.c:768-2344 | So over every run of a new queue, whatever the interleaving, wake-ups go by priority, and by age within it |
| `QueueWaiters.SendAnswers` | c6021light/lib/freertos/queue.c:791-1131 | A send succeeds exactly into a free slot or if it overwrites; the item stands where it was to go, the others keep their order, and a send turned away changes nothing |
| `QueueWaiters.TakeAnswers` | c6021light/lib/freertos/queue.c:1342-1920 | A receive or peek succeeds exactly if there is an item; a receive takes the front one off, a peek leaves all |
| `QueueWaiters.LocksCount` | c6021light/lib/freertos/queue.c:1016-2344 | While the queue is locked, its counters have grown by the items that came and went since, so that unlocking owes one wake-up for each |
| `StreamSpec.HeaderRoundTrip` | c6021light/lib/freertos/stream_buffer.c:735-743 | A length survives being written as bytes and read back |
| `StreamSpec.FirstFrame` | c6021light/lib/freertos/stream_buffer.c:970-1019 | Behind a frame's header lies its message, whole, and then the rest |
| `StreamSpec.ReceiveReturnsOldest` | c6021light/lib/freertos/stream_buffer.c:970-1019 | Receiving returns the oldest message if it fits the caller's buffer, and otherwise changes nothing |
| `StreamSpec.FramingRoundTrip` | c6021light/lib/freertos/stream_buffer.c:712-1019 | Over every sequence of sends and receives the messages accepted are those returned, in order and whole, followed by those in the buffer |
| `StreamSpec.SendBytesAnswers` | c6021light/lib/freertos/stream_buffer.c:712-761 | The first bytes of the data go in behind those there, and none stays out while there is room |
| `StreamSpec.ReceiveBytesAnswers` | c6021light/lib/freertos/stream_buffer.c:1192-1247 | What is taken and what is left make up what was there, and something is left only if the caller's buffer is full |
| `StreamSpec.SendMessageAnswers` | c6021light/lib/freertos/stream_buffer.c:712-761 | A message goes in, behind its length and everything that was there, exactly if there is room for it and its header |
| `StreamSpec.FeasibleIsNotEnough` | c6021light/lib/freertos/stream_buffer.c:532-584 | A message that passes the feasibility test goes into a buffer at some fill level if and only if what it needs is below the length |
| `StreamSpec.NeverSent` | c6021light/lib/freertos/stream_buffer.c:532-584 | A message needing exactly that length passes the test and is refused at every fill level |
| `StreamSpec.StreamWaitsInVain` | c6021light/lib/freertos/stream_buffer.c:562-584 | A stream send always passes the test, and its requirement can be met at some fill level if and only if it is shorter than the buffer |
| `StreamBuffer.StreamBuffer.BytesInBuffer` | c6021light/lib/freertos/stream_buffer.c:1250-1268 | Counts the bytes held |
| `StreamBuffer.StreamBuffer.SpacesAvailable` | c6021light/lib/freertos/stream_buffer.c:475-496 | bytes + spaces == length - 1 |
| `StreamBuffer.StreamBuffer.WriteBytes` | c6021light/lib/freertos/stream_buffer.c:1143-1189 | Two copies round the end of the array append the bytes |
| `StreamBuffer.StreamBuffer.ReadBytes` | c6021light/lib/freertos/stream_buffer.c:1192-1247 | Returns and removes the oldest bytes |
| `StreamBuffer.StreamBuffer.WriteMessage` | c6021light/lib/freertos/stream_buffer.c:712-761 | On a sample of the space that may be out of date: a message goes in whole with its header if it fits the sample, or not at all; a stream takes what fits the sample |
| `StreamBuffer.StreamBuffer.Send` | c6021light/lib/freertos/stream_buffer.c:511-658 | With or without waiting, while the reader takes bytes in each sleep: goes by the sample proved below, a message whole or not at all, a stream what fits |
| `StreamBuffer.StreamBuffer.WaitForSpace` | c6021light/lib/freertos/stream_buffer.c:586-620 | The waiting loop returns the last sample it took, and only the reader has changed the buffer meanwhile |
| `StreamBuffer.WaitingSucceedsExactlyWhen` | c6021light/lib/freertos/stream_buffer.c:586-633 | A waiting sender sees the space it needs if and only if there is room before one of its sleeps, or the buffer was full before the last one and there is room after it; room made in the last sleep goes unnoticed otherwise |
| `StreamBuffer.WaitedIs` | c6021light/lib/freertos/stream_buffer.c:586-620 | A waiting sender stops at the first of its samples that shows room, before the reader takes more; without one it sleeps to the end and keeps its last sample |
| `StreamBuffer.LeftAfterIs` | c6021light/lib/freertos/stream_buffer.c:586-620 | What is left after some sleeps is what was there less what the reader took in them, or nothing |
| `StreamBuffer.NoWaitSeesAll` | c6021light/lib/freertos/stream_buffer.c:611-633 | A sender that may not wait, or asks for more than the length, goes by the whole free space |
| `StreamBuffer.StreamBuffer.ReadMessage` | c6021light/lib/freertos/stream_buffer.c:970-1019 | On a sample of the bytes that may be out of date: takes one message, or puts the tail back if it is too long, and leaves what came later |
| `StreamBuffer.StreamBuffer.Receive` | c6021light/lib/freertos/stream_buffer.c:764-865 | With or without one sleep, in which the writer adds bytes: takes the oldest message, or what fits, of what is then there |
| `StreamBuffer.StreamBuffer.NextMessageLength` | c6021light/lib/freertos/stream_buffer.c:868-910 | Reads the next length and leaves the contents; 0 for an empty buffer and for a stream |
| `StreamInterleaving.BytesAndSpaces` | c6021light/lib/freertos/stream_buffer.c:475-496 | For all indices in range the two counts add up to length - 1 |
| `StreamInterleaving.WriterStaysClear` | c6021light/lib/freertos/stream_buffer.c:1143-1189 | The writer's next cell holds no unread byte |
| `StreamInterleaving.StepCopyIn` | c6021light/lib/freertos/stream_buffer.c:1143-1189 | Copying a byte in changes nothing that is unread |
| `StreamInterleaving.PublishHeadUnread` | c6021light/lib/freertos/stream_buffer.c:1175-1186 | Publishing the head appends the copied bytes to the unread ones |
| `StreamInterleaving.PublishTailUnread` | c6021light/lib/freertos/stream_buffer.c:1230-1239 | Publishing the tail takes the copied bytes off the unread ones and never shrinks the space |
| `StreamInterleaving.StepActsOnUnread` | c6021light/lib/freertos/stream_buffer.c:1143-1268 | To both sides the buffer is a queue of bytes: publishing the head appends, publishing the tail takes off, no other step shows |
| `StreamInterleaving.StepInv` | c6021light/lib/freertos/stream_buffer.c:712-1268 | Every step of either side keeps the invariant: what a side sampled still suffices, for the header and then the data of a message, however far the other side has moved |
| `StreamInterleaving.ReadIsPrefixOfWritten` | c6021light/lib/freertos/stream_buffer.c:1143-1268 | Under every interleaving the bytes read, and those of a read in progress, are the first bytes written |
| `StreamInterleaving.StageGoesOn` | c6021light/lib/freertos/stream_buffer.c:970-1019 | What is left of the reader's sample behind a header is enough for the data it goes on to |
| `StreamOffers.StepBegins` | c6021light/lib/freertos/stream_buffer.c:712-761 | Every message that comes while the writer is idle and there is room for it and its header is begun, as it came, and no other |
| `StreamOffers.StepWrites` | c6021light/lib/freertos/stream_buffer.c:712-761 | A stream's writer takes of the data that comes as much as there is room for, from its first byte |
| `StreamOffers.MessagesAreOffers` | c6021light/lib/freertos/stream_buffer.c:511-865 | Over every run the messages begun, and the one about to be, are those that came while there was room; and the reader has taken one for each time it was asked while one was there |
| `StreamOffers.StreamArrivesWhole` | c6021light/lib/freertos/stream_buffer.c:511-865 | Over every run of a new stream the bytes read are the first of those that came while there was room, as many as were asked for while they were there, and all of them once nothing is under way |
| `MessageRing.StepSimulates` | c6021light/lib/freertos/stream_buffer.c:712-1019 | Each step on the ring, byte copies and publications, is one step of messages on a queue of bytes, or none |
| `MessageRing.RunSimulates` | c6021light/lib/freertos/stream_buffer.c:712-1019 | So is every run |
| `MessageRing.MessagesArriveWhole` | c6021light/lib/freertos/stream_buffer.c:712-1019 | On the ring, under every interleaving of single bytes, the messages received are the first of those that came while there was room for them, each as it came, whole and in order, never the unfinished one; one for each time the reader was asked while one was there, and all of them once nothing is under way |
| `MessageInterleaving.HeaderAloneIsNotRead` | c6021light/lib/freertos/stream_buffer.c:843-845 | A reader that finds only an unfinished message's header takes nothing |
| `EventGroupSpec.EncodedReads` | c6021light/lib/freertos/event_groups.c:374-395 | The bits waited for and both options can be read back from a list item's value |
| `EventGroup.Examine` | c6021light/lib/freertos/event_groups.c:561-596 | The inline test of the set loop is the wait condition |
| `EventGroup.EventGroup.Visit` | c6021light/lib/freertos/event_groups.c:558-614 | A satisfied task leaves the list with the bits and the mark in its item; another stays |
| `EventGroup.EventGroup.SetBits` | c6021light/lib/freertos/event_groups.c:531-623 | The walk over the changing list wakes and clears as the group as a value does |
| `EventGroup.EventGroup.ClearBits` | c6021light/lib/freertos/event_groups.c:471-496 | Clears, and returns the bits as they were |
| `EventGroup.EventGroup.WaitBits` | c6021light/lib/freertos/event_groups.c:315-405 | Returns at once or joins the list |
| `EventGroup.EventGroup.Sync` | c6021light/lib/freertos/event_groups.c:192-253 | Sets, then returns at once or joins the list |
| `EventGroup.EventGroup.Resume` | c6021light/lib/freertos/event_groups.c:407-468 | Tells a task woken by its bits from one that timed out |
| `EventGroup.EventGroup.Delete` | c6021light/lib/freertos/event_groups.c:626-665 | Releases everyone with no bits |
| `EventGroupProperties.WakesExactlyTheSatisfied` | c6021light/lib/freertos/event_groups.c:552-614 | Every waiting task is woken or kept, once; woken exactly if old or new bits meet its condition |
| `EventGroupProperties.ClearMaskIsUnion` | c6021light/lib/freertos/event_groups.c:590-618 | What is cleared is the least set holding what every woken task wants cleared |
| `EventGroupProperties.ClearMaskOrderFree` | c6021light/lib/freertos/event_groups.c:590-618 | The order of the list plays no part in it |
| `EventGroupProperties.SetOverlooksNobody` | c6021light/lib/freertos/event_groups.c:531-623 | After setting bits nobody is left waiting for bits that are there |
| `EventGroupProperties.JoiningOverlooksNobody` | c6021light/lib/freertos/event_groups.c:374-395 | A task joins the list only for bits that are not there |
| `EventGroupProperties.StepOverlooksNobody` | c6021light/lib/freertos/event_groups.c:192-665 | Every operation keeps that |
| `EventGroupProperties.RunOverlooksNobody` | c6021light/lib/freertos/event_groups.c:192-665 | In no run is a task left waiting for bits that are there |
| `EventGroupAnswers.MetAnswers` | c6021light/lib/freertos/event_groups.c:686-720 | A wait is over exactly if some part of the wanted bits is there, or, for all, every part |
| `EventGroupAnswers.SetBitsLeaves` | c6021light/lib/freertos/event_groups.c:531-623 | Exactly those bits are set afterwards that were set or are added and that no woken task wants cleared |
| `EventGroupAnswers.ClearBitsLeaves` | c6021light/lib/freertos/event_groups.c:471-496 | Clearing leaves exactly the other bits, and the list |
| `EventGroupAnswers.WokenReturnTheBits` | c6021light/lib/freertos/event_groups.c:552-618 | Every task woken, and no other, returns the bits as they were when it was woken, before any were cleared, whatever the group holds when it goes on |
| `EventGroupAnswers.WokenAreTold` | c6021light/lib/freertos/event_groups.c:407-623 | So over every run of legal calls on a new group |
| `EventGroupAnswers.DeletedReturnNothing` | c6021light/lib/freertos/event_groups.c:626-665 | Deleting releases every waiting task, and each returns no bits |
| `EventGroupAnswers.TimedOutLooksAgain` | c6021light/lib/freertos/event_groups.c:407-468 | A task that timed out returns the bits as it then finds them, and clears them exactly if they are what it wanted and it asked for that |
| `EventGroupAnswers.WaitBitsAnswers` | c6021light/lib/freertos/event_groups.c:315-405 | A wait for bits that are there returns all bits as they were, and clears the wanted ones exactly if asked; for others it returns what there is or joins the list with just what it asked for |
| `EventGroupAnswers.SyncAnswers` | c6021light/lib/freertos/event_groups.c:192-253 | A rendezvous that is complete returns the bits as they were then and clears the wanted ones; another returns what is left, or waits for all |
| `EventGroupAnswers.ExpireAnswers` | c6021light/lib/freertos/event_groups.c:407-436 | A task whose time is up leaves the list, and nobody else does |
| `EventGroupAnswers.RunClean` | c6021light/lib/freertos/event_groups.c:192-665 | Over every run of legal calls the control bits of the group stay clear |
| `Rendezvous.ArriveAndWait` | c6021light/lib/freertos/event_groups.c:210-253 | A task that is not the last blocks, and nobody of the meeting is let go |
| `Rendezvous.StepAsideKeeps` | c6021light/lib/freertos/event_groups.c:192-623 | Setting, clearing, waiting, meeting, timing out and going on by others who leave the mask alone do not disturb a meeting |
| `Rendezvous.LastArrives` | c6021light/lib/freertos/event_groups.c:210-253 | The last one releases all the others with the whole mask in hand, leaves the mask cleared and nobody of the meeting on the list |
| `Rendezvous.AllButLastWait` | c6021light/lib/freertos/event_groups.c:192-253 | Until the bits brought complete the mask everybody who has arrived is on the list, whatever others do in between |
| `Rendezvous.EveryoneIsReleased` | c6021light/lib/freertos/event_groups.c:192-312 | N untimed callers on one mask, with steps of others who leave the mask alone between any two arrivals, are released together by the last, each with the whole mask whenever it goes on, and the group is as a round finds it: the next can follow |
| `I2cDriver.TransmissionControlBlock.TryClaim` | c6021light/src/hal/stm32I2C.cpp:62-72 | Claims exactly a free block, and empties it |
| `I2cDriver.TransmissionControlBlock.Release` | c6021light/src/hal/stm32I2C.cpp:74-78 | Leaves a free, empty block |
| `I2cDriver.Driver.SendI2CMessage` | c6021light/src/hal/stm32I2C.cpp:205-212 | Queues the message if there is room and starts transmitting if nothing is under way |
| `I2cDriver.Driver.StartTx` | c6021light/src/hal/stm32I2C.cpp:226-237 | Takes the oldest message in hand, or leaves the block free |
| `I2cDriver.Driver.FinishTx` | c6021light/src/hal/stm32I2C.cpp:285-292 | Lets the message in hand go and starts the next |
| `I2cDriver.Driver.ForwardRx` | c6021light/src/hal/stm32I2C.cpp:261-283 | Publishes a complete message and frees its block |
| `I2cDriver.Driver.EventIsr` | c6021light/src/hal/stm32I2C.cpp:299-377 | The event handler is the step function's event |
| `I2cDriver.Driver.ErrorIsr` | c6021light/src/hal/stm32I2C.cpp:380-428 | The error handler is the step function's error |
| `I2cProperties.FinishKeepsTx` | c6021light/src/hal/stm32I2C.cpp:285-292 | The message that leaves is the oldest in the queue |
| `I2cProperties.StepKeepsTx` | c6021light/src/hal/stm32I2C.cpp:226-428 | Every event within the contract of the bus towards a master keeps the books of the transmitter and of the wire |
| `I2cProperties.TransmitsInOrder` | c6021light/src/hal/stm32I2C.cpp:226-428 | For every stream of events, whatever the receiver goes through, messages leave in order, each once, each after its three bytes behind one start bit or a missing acknowledgement |
| `I2cProperties.EveryStartSendsFromTheFirstByte` | c6021light/src/hal/stm32I2C.cpp:247-309 | At every moment the bytes behind the last start bit on the wire are the first bytes of the message that is next to leave, so that every restart sends it from the first byte |
| `I2cProperties.RestartBeginsAnew` | c6021light/src/hal/stm32I2C.cpp:226-428 | A run from the initial state, within the contract of the bus: after a bus error in mid-message no byte may be asked for before the new start bit is answered, and then the address goes out again and the counter starts over |
| `I2cProperties.ForwardKeepsRx` | c6021light/src/hal/stm32I2C.cpp:261-283 | The end of a transaction publishes it exactly if it had two data bytes, and otherwise keeps its slot |
| `I2cProperties.BeginKeepsRx` | c6021light/src/hal/stm32I2C.cpp:310-330 | A new transaction reuses a slot left over |
| `I2cProperties.ByteKeepsRx` | c6021light/src/hal/stm32I2C.cpp:332-347 | The first two bytes are kept, further ones dropped |
| `I2cProperties.StepKeepsRx` | c6021light/src/hal/stm32I2C.cpp:299-428 | Every event within the contract of the bus towards a slave, whatever the transmitter goes through, keeps the receiver in step with the listener |
| `I2cProperties.ReceivesEndedTransactions` | c6021light/src/hal/stm32I2C.cpp:299-428 | For every stream of events what is published is what an independent listener hears, and at most one slot is taken and not published |
| `I2cProperties.StepDoesNotFault` | c6021light/src/hal/stm32I2C.cpp:226-428 | No breakpoint and no null pointer is reached within the bus contract |
| `I2cProperties.NoFaults` | c6021light/src/hal/stm32I2C.cpp:226-428 | So no run within both contracts reaches one |
| `I2cAnswers.StepFaultsExactlyWhen` | c6021light/src/hal/stm32I2C.cpp:226-428 | A breakpoint or null pointer is reached if and only if a transaction begins with the receive queue full and no slot left over, or an error comes up that the handler does not know |
| `I2cProperties.StrayByteIsHarmlessExactlyWhen` | c6021light/src/hal/stm32I2C.cpp:332-347 | A byte outside a transaction does no harm if and only if no slot left over lacks just its last byte |
| `I2cProperties.StrayByteCompletesTruncated` | c6021light/src/hal/stm32I2C.cpp:261-347 | A run in which such a byte turns a truncated message into a published one |
| `I2cAnswers.FinishAnswers` | c6021light/src/hal/stm32I2C.cpp:285-292 | When a message leaves, a stop bit goes out, and behind it, if the bus is free, the start bit for the next one queued, which is then in hand |
| `I2cAnswers.ByteAnswers` | c6021light/src/hal/stm32I2C.cpp:302-376 | The answered start bit is followed by the address, and each byte asked for is the next of the message in hand, until behind the third it leaves |
| `I2cAnswers.ErrorAnswers` | c6021light/src/hal/stm32I2C.cpp:380-428 | A message not acknowledged leaves and the next one follows; a bus error as master sends the start bit again; a lost arbitration changes nothing |
| `I2cAnswers.StopAnswers` | c6021light/src/hal/stm32I2C.cpp:261-283 | The end of a complete message publishes it, frees its block, and gives the transmitter a start bit if the bus is free and something is queued; any other end changes nothing |
| `I2cAnswers.SendAnswers` | c6021light/src/hal/stm32I2C.cpp:205-237 | A message that is sent joins the queue if there is room, and goes on at once only if nothing is in hand and the bus is free |
| `I2cAnswers.GoesOnExactlyWhen` | c6021light/src/hal/stm32I2C.cpp:226-283 | A message that came to a busy bus gets its start bit with the next message received, or with a bus error as master, and with nothing else |
| `I2cAnswers.SecondSendDoesNotStart` | c6021light/src/hal/stm32I2C.cpp:226-237 | A run in which the first of two messages finds the bus busy, the second finds it free, and nothing is sent |
| `I2cAnswers.NothingIsLeftBehind` | c6021light/src/hal/stm32I2C.cpp:201-292 | Over every run within the bus contract: the messages that left, followed by those queued, are those that tasks sent while there was room, and the oldest queued is always in hand; those that the task took, followed by those waiting for it, are those published |
| `CliSpec.FirstMatchIsFirst` | c6021light/lib/cliSupport/cliSupport.cpp:60-67 | Of several entries of one name the first counts |
| `CliSpec.OnlyOneWalk` | c6021light/lib/cliSupport/cliSupport.cpp:51-75 | The recursive path is the one walk that follows first matches as far as they go |
| `CliSpec.DispatchRunsTheDeepest` | c6021light/lib/cliSupport/cliSupport.cpp:116-124 | The recursive choice is the handler of the deepest entry that has one, with the tokens down to it counted; none exactly when no entry on the path has one |
| `CliSpec.DispatchIgnoresTheRest` | c6021light/lib/cliSupport/cliSupport.cpp:116-124 | Tokens that match nothing do not change the choice |
| `CliSpec.MatchingIsExact` | c6021light/lib/cliSupport/cliSupport.cpp:103-112 | A name is offered exactly when it is in the table and begins with what was typed |
| `CliSpec.TypingMoreNarrows` | c6021light/lib/cliSupport/cliSupport.cpp:103-112 | Typing more only takes names away |
| `CliSpec.CompletionDescends` | c6021light/lib/cliSupport/cliSupport.cpp:77-114 | An offered name put in place of the first unmatched token takes the path one entry further |
| `CliSpec.OfferedExactlyWhen` | c6021light/lib/cliSupport/cliSupport.cpp:77-114 | A name is offered exactly if it begins with the first unmatched token and in its place takes the path further |
| `CliSpec.MatchingInOrder` | c6021light/lib/cliSupport/cliSupport.cpp:103-112 | The offered names are those of all matching entries, in the order of the table |
| `Cli.FindLongestPrefix` | c6021light/lib/cliSupport/cliSupport.cpp:51-75 | Finds the deepest wanted entry of the path, or reports that there is none |
| `Cli.CallHandler` | c6021light/lib/cliSupport/cliSupport.cpp:116-124 | Calls just the handler of the recursive choice with its matched count, or reports that there is none |
| `Cli.FillCompletionData` | c6021light/lib/cliSupport/cliSupport.cpp:77-114 | Leaves in the buffer the first completions that fit, in table order, and nothing else |

## Left out

- Timers: the application's side of a command is a post that succeeds or is dropped; callbacks
  do nothing to the kernel but post commands; pended function calls, dynamic allocation and the
  suspended scheduler around the sleep are not modelled.  A failed assertion is a state in which
  the daemon stands still.  The lists are those of `ListSpec`, not the heap lists of `Lists`.
- TimerDaemon.Daemon.ProcessReceivedCommands: given one clock sample for each command, because the
  loop need not end while callbacks keep posting.
- TimerCommands.StoppedStaysSilent: requires that nothing about the timer is queued behind the
  stop, because a start that the daemon has queued for a late expiry would start it again.
- Lists: the check for integrity bytes and wrap-around of the item count.
- Queues: an item's bytes are one slot; semaphores, mutexes and priority inheritance, queue
  sets, the registry and the scheduler's own work are left out.  Blocking appears as the steps of
  locking, checking, joining a list and unlocking, and a time-out as a step of its own.
- QueueWakeups.StepCoversSenders: excludes a reset, which `ResetCoversSendersExactlyWhen` covers
  exactly.
- QueueRing.Queue.SendFromISR: requires the lock counter below 127, which the source asserts.
- Stream buffers: lengths below 2^31, so that index sums do not overflow; how a sleeping task is
  notified, the trigger level, reset and deletion are left out.  What the other side does in a
  sleep is a parameter.
- MessageRing.MessagesArriveWhole: for a receive buffer large enough for every message; the tail
  put back for a short buffer and the reading of the next length are sequential only.
- Event groups: the interrupt-safe variants, which only defer the same calls to the daemon, and
  the scheduler.
- I2C: registers, the stop and go lines, and the atomic operations of the control block;
  `AtomicRingBuffer` is not part of this model and appears as a queue with allocate, publish, peek
  and consume.  Sending from a task is one step.
- I2cProperties.StepDoesNotFault: excludes a full receive queue and errors the handler does not
  know, where the source stops at a breakpoint; `I2cAnswers.StepFaultsExactlyWhen` is exact.
- Command line: what handlers do is a function passed in; names are compared as values.
- `croutine.c`, `tasks.c`, the port layer, drivers and console output: plumbing or easy members.
