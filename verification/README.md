# Zephyr kernel core, modelled and proved

This project models the synchronisation and timing core of the Zephyr kernel, in the uniprocessor configuration with
64-bit timeouts, together with the build script that reduces device dependencies.  Each component has three layers:

* a state machine on values, in which a critical section under the component's lock is one step, with histories (logs,
  instance numbers, arrival stamps) beside the kernel's own state;
* what each operation does and answers, spelled out in terms of lists, owners, priorities and ticks (the lemmas named
  `...Answer`), and theorems about every run of that machine;
* methods that do what the kernel code does, in its order and with its loops, on what it keeps in memory (flag words, linked
  nodes, the array of lists with its mask, delta lists, ring buffers, objects pointing at each other), each proved to take the
  memory from one state of the machine to the next.

| files | component |
|---|---|
| `WorkModel`, `WorkRuns`, `WorkAnswers`, `WorkTheorems`, `WorkMemory`, `WorkSystem` | work queues (`kernel/work.c`) |
| `PipeModel`, `PipeRuns`, `PipeRing`, `Pipe` | pipes (`kernel/pipes.c`) |
| `Deadlines`, `DeadlineRuns`, `TimeoutQueue` | timeout queue (`kernel/timeout.c`) |
| `TimerModel`, `TimerRuns`, `TimerStops`, `Timers` | timers (`kernel/timer.c`) |
| `SchedModel`, `SchedRuns`, `SchedReady`, `SchedAnswers`, `SchedMemory`, `SchedSystem`, `PrioQueues` | scheduler queues and the two run-queue implementations (`kernel/sched.c`) |
| `MutexModel`, `MutexRuns`, `MutexAnswers`, `MutexInheritance`, `MutexNesting`, `MutexSingle`, `MutexCases`, `MutexSystem` | mutexes with priority inheritance (`kernel/mutex.c`) |
| `MsgqModel`, `MsgQueue` | message queues (`kernel/msg_q.c`) |
| `DeviceGraph`, `DeviceHandles` | device dependencies (`scripts/gen_handles.py`, `include/device.h`) |
| `Lists`, `SingleLists`, `Words` | sequences, the singly linked lists of `include/sys/list_gen.h`, the bits of a word |

In the state machines threads, work items, queues, mutexes and timeouts are named by numbers.  What the hardware clock reports,
the handlers that expiring timeouts call, who calls an operation and with which priority are parameters.

Where the code does not keep a promise in general, the project says exactly when it does:

* Every owner is at least as good as every waiter of every mutex it owns.  `MutexInheritance.StaysServed` says, for every step,
  exactly when it keeps this (over runs `MutexInheritance.ServedRun`).  A lock that has to wait loses it if and only if the owner
  that it raises waits itself, for a mutex whose owner is then worse: raising goes no further than one owner (the run
  `MutexCases.Transitive`).  A last unlock loses it if and only if a waiter of another mutex of the thread is better than the
  priority given back, or a remaining waiter is better than the thread that gets the mutex.  A thread that gives up readjusts the
  owner, which loses it if and only if the new priority is worse than some waiter of the owner's mutexes, or better than the owner
  of a mutex that the owner waits for.  Leaving the wait queue always keeps it.
* A thread that gives up leaves the wait queue in one critical section and readjusts the owner in a later one.  In between the owner
  keeps the priority of the thread that is gone, and if it unlocks meanwhile and nobody else waits, the readjustment follows a null
  pointer (the run `MutexCases.TooLate`); it is defined if and only if the mutex has an owner.
* The head of `kernel/mutex.c` asks that mutexes which raise their owner be nested.  `MutexNesting.StaysNested` gives the exact
  condition on a step under which every thread's chain of recorded priorities stays right (over runs `MutexNesting.NestedRun`), and
  then a thread has exactly the best priority that its mutexes have called for (`MutexNesting.NestedPrio`).  The condition implies
  the documented nesting (`MutexCases.FollowsDocumented`), but the documented nesting alone is not enough:
  `MutexCases.DocumentedNotEnough` is a run that follows it and leaves a better thread waiting, `MutexCases.TwoMutexes` one that
  breaks it.  With one mutex at a time inheritance is exact (`MutexSingle.Inheritance`).
* With a priority ceiling, a waiter that gives up while others wait leaves the owner worse than its own recorded priority
  exactly when that priority is better than the ceiling (`MutexInheritance.CeilingLowers`, and the run `MutexCases.CeilingRun`).
* Senders and receivers share the wait queue of a message queue without ever mixing if and only if the queue can hold a
  message (`MsgqModel.RolesNeverMix`).
* The devices read back from a node's handle array are exactly those of the nodes that it requires in the devicetree if and only
  if the handle of every required device is below the end mark 32767 (`DeviceHandles.EndToEnd`), and a device is found again from
  its handle if and only if its index is below 32767 (`DeviceHandles.HandleInverse`).
* A periodic timer keeps its beat if and only if no ticks had elapsed whenever it was rearmed with nothing of the announcement left
  (`TimerRuns.NoDrift`); otherwise it is late by exactly the sum of those ticks (`TimerRuns.Drift`; in the run `TimerRuns.Late` a
  timer of period 2 expires at 2 and at 5).
  A timer of period one expires every second tick.
* A sleep that is cut short returns the ticks left if and only if the 32-bit tick counter does not wrap around in between and less
  than 2^31 ticks are left (`SchedSystem.TicksLeftExact`, and the sleep `SchedSystem.SleepAcrossWrap`, which returns 0 with 5 left).
* Over every run a thread that can run is in the run queue, except one that has been released from a wait queue and not yet been
  made ready by a later call (`SchedReady.QueuedIffReady`, `SchedReady.ReleaseThenReady`).

## Model

| member | source | states |
|---|---|---|
| WorkTheorems.Placement | zephyr/kernel/work.c:202-677 | in every reachable state an item is QUEUED exactly when it is in the pending list of work->queue, once, and it is in no other list; RUNNING exactly when the thread of work->queue handles it and no other thread does; CANCELING implies RUNNING and not QUEUED |
| WorkTheorems.ArmedOnce | zephyr/kernel/work.c:867-953 | a linked timeout belongs to a DELAYED item, and schedule and reschedule arm a timeout only when it is not linked |
| WorkTheorems.Admission | zephyr/kernel/work.c:251-356 | by whichever of the sixteen steps, an item comes on to a pending list only if the queue is started, from its own thread alone while it drains, not while it is plugged unless it drains, never while the item is CANCELING, and while the item runs only on the queue that runs it |
| WorkAnswers.SubmitAnswer | zephyr/kernel/work.c:251-356 | an item gets last on the list of the queue that runs it, else of the one asked for, else of the last one, with the thread awake, if and only if it is on no list, not CANCELING, and the queue is started, not draining for others and not plugged unless draining; 1, or 2 from its handler; otherwise nothing changes and the code is -EBUSY, 0, -ENODEV or -EBUSY |
| WorkAnswers.SubmitNowhere | zephyr/kernel/work.c:251-258 | without a queue to go to nothing changes, -EINVAL |
| WorkAnswers.BusyAnswer | zephyr/kernel/work.c:145-148 | the busy mask tells handler, cancellation, list and delay apart |
| WorkAnswers.FlushAnswer | zephyr/kernel/work.c:171-427 | a flush returns at once if and only if the item is on no list and in no handler, and then every instance submitted is over; otherwise the flusher is right behind the item, or first on the list of the queue that runs it |
| WorkAnswers.CancelAnswer | zephyr/kernel/work.c:472-491 | a cancelled item is off its list and its timeout stopped; it is CANCELING if and only if a thread is in its handler; nothing else changes |
| WorkAnswers.PlainCancelAnswer | zephyr/kernel/work.c:472-491 | the same for an item that is not delayable |
| WorkAnswers.SyncAnswer | zephyr/kernel/work.c:508-522 | a record to wait for is left if and only if a thread is in the handler |
| WorkAnswers.ScheduleAnswer | zephyr/kernel/work.c:931-953 | scheduling changes nothing for an item that is on a list, CANCELING or DELAYED; else it submits at once or delays the item, for the queue given |
| WorkAnswers.RescheduleAnswer | zephyr/kernel/work.c:967-989 | rescheduling forgets the old delay and does the same whatever the state |
| WorkAnswers.ExpireAnswer | zephyr/kernel/work.c:790-811 | the expiry of a linked timeout submits the item to the queue it was scheduled for: an idle one is last on a started queue that neither drains nor is plugged; an unlinked one does nothing |
| WorkAnswers.ScheduleExpires | zephyr/kernel/work.c:790-989 | what is scheduled is submitted to that queue on expiry, and is not once it is cancelled |
| WorkAnswers.FlushDelayableAnswer | zephyr/kernel/work.c:1051-1098 | a flush of delayable work submits a delayed item and is a plain flush then |
| WorkAnswers.DrainAnswer | zephyr/kernel/work.c:730-760 | a drain returns at once if and only if nothing is pending, no handler runs, no drain is going on and none is to be plugged; else the thread is awake, DRAIN set, and the caller last on drainq |
| WorkAnswers.StartOpens | zephyr/kernel/work.c:690-780 | a queue is open once started, and again once unplugged and not draining |
| WorkTheorems.CancelMeans | zephyr/kernel/work.c:472-491 | after a cancel the item is in no pending list; it is still busy, and CANCELING, exactly when its handler was running, and then every submission of it returns -EBUSY |
| WorkTheorems.SleepSound | zephyr/kernel/work.c:584-643 | the thread of a queue sleeps on notifyq only with nothing pending, no drain asked for and no handler active; a thread on drainq implies DRAIN; BUSY means a handler is active |
| WorkTheorems.DrainSound | zephyr/kernel/work.c:730-760 | no step takes a thread off drainq unless nothing is pending on that queue and none of its handlers runs |
| WorkTheorems.CancelsMove | zephyr/kernel/work.c:91-132 | pending_cancels grows by one record of a CANCELING item at a time until the handler of such an item ends; then exactly that item's records go, the others keep their order, each removed one is signalled, and the item is neither RUNNING, QUEUED nor CANCELING |
| WorkTheorems.CancelNotLost | zephyr/kernel/work.c:508-522 | every record names an item that is CANCELING and that the thread of a started queue is handling right now |
| WorkTheorems.EachSignalledOnce | zephyr/kernel/work.c:91-132 | over every run each canceller record ever made is waiting once or has been signalled once, never both and never twice |
| WorkTheorems.FlushComplete | zephyr/kernel/work.c:171-193 | however a run goes on after a flush of an item that is on a list or in its handler, its semaphore is given only when every instance of the item submitted before the flush has ended or was cancelled, and the flusher is never lost from its queue before that |
| WorkTheorems.FlushDelayableComplete | zephyr/kernel/work.c:1051-1098 | the same for a flush of delayable work: a flusher is added if and only if the item is on a list or in its handler once a delayed one has been submitted; it waits for that submission too if the queue took it; with none added every instance is over |
| WorkTheorems.LeftAlone | zephyr/kernel/work.c:584-667 | left to itself, from inside a handler or not, the thread of a started queue handles exactly what is pending, in order, runs each of these items and touches no other, ends the drain, releases who waits for it and sleeps, with the queue as open or plugged as before |
| WorkTheorems.LeftAloneFlushes | zephyr/kernel/work.c:66-72 | so every flush of that queue is answered |
| WorkTheorems.DrainCycle | zephyr/kernel/work.c:730-780 | a drain shuts others out at once; left alone the queue rests and releases the caller; it takes nothing more until unplugged if it was plugged, and is open again if not |
| WorkRuns.NextInv | zephyr/kernel/work.c:202-1098 | every step, of callers, timeouts and queue threads alike, keeps the invariant of items, queues, flushers and cancellations |
| WorkRuns.TakeFlusherOver | zephyr/kernel/work.c:591-599 | a flusher reaches the head of the pending list only when everything it waits for is over |
| SingleLists.Append | zephyr/include/sys/list_gen.h:95-111 | the node is linked as the last one, and no link outside the list changes |
| SingleLists.Prepend | zephyr/include/sys/list_gen.h:80-93 | the node is linked as the first one |
| SingleLists.InsertAfter | zephyr/include/sys/list_gen.h:143-158 | the node is linked right behind another one, the last included |
| SingleLists.Get | zephyr/include/sys/list_gen.h:160-183 | the first node is taken off; the end is right when it was the only one |
| SingleLists.Remove | zephyr/include/sys/list_gen.h:185-212 | given its predecessor, a node is unlinked; the others stay linked in order |
| SingleLists.FindAndRemove | zephyr/include/sys/list_gen.h:214-235 | the walk unlinks the node if it is there and says so |
| SingleLists.Contains | zephyr/kernel/work.c:178-184 | the walk finds the node exactly if it is on the list |
| Words.LowFour | zephyr/include/kernel.h:3563-3569 | the busy mask is the sum of its four flags |
| WorkMemory.Memory.SetFlag | zephyr/kernel/work.c:21-31 | one flag of the word changes, and with it one flag of the item |
| WorkMemory.Memory.TestAndClear | zephyr/kernel/work.c:39-47 | clears a flag and says whether it was set |
| WorkMemory.Memory.BusyGet | zephyr/kernel/work.c:145-148 | the masked word is the busy mask of the item |
| WorkMemory.ListChanged | zephyr/kernel/work.c:202-277 | items have one link each, yet a change to the list of one queue leaves every other list as it was, because no item is on two |
| WorkMemory.Memory.SignalAll | zephyr/kernel/work.c:124-131 | the walk over pending_cancels unlinks and signals exactly the records of the item, in order, keeping the others linked |
| WorkSystem.QueueSubmit | zephyr/kernel/work.c:251-283 | on flag words and links: -EINVAL, -ENODEV, -EBUSY, or appended and notified |
| WorkSystem.SubmitTo | zephyr/kernel/work.c:311-356 | submission with its return values 0, 1, 2 and errors |
| WorkSystem.SubmitToQueue | zephyr/kernel/work.c:358-383 | the same with the invariant kept |
| WorkSystem.QueueFlusher | zephyr/kernel/work.c:171-193 | the flusher is linked right behind the item if that is pending, else first, and the thread is woken |
| WorkSystem.FlushItem | zephyr/kernel/work.c:411-459 | a flush adds a flusher and waits exactly when the item is on a list or in its handler; otherwise nothing changes and every submitted instance is over |
| WorkSystem.QueueRemove | zephyr/kernel/work.c:202-208 | a QUEUED item is unlinked and no longer QUEUED |
| WorkSystem.CancelItem | zephyr/kernel/work.c:472-539 | cancelling; the busy mask returned is not 0 exactly when a thread is in the handler |
| WorkSystem.CancelSyncItem | zephyr/kernel/work.c:541-574 | a synchronous cancel: whether the item was on a list or in its handler, and the caller waits exactly in the latter case |
| WorkSystem.FinalizeCancel | zephyr/kernel/work.c:109-132 | CANCELING is cleared and the records of the item are signalled and gone |
| WorkSystem.UnscheduleLocked | zephyr/kernel/work.c:899-911 | DELAYED is cleared and the timeout unlinked, if it was DELAYED |
| WorkSystem.ScheduleLocked | zephyr/kernel/work.c:867-885 | submission at once, or DELAYED with the timeout linked unless the delay has no end |
| WorkSystem.ScheduleForQueue | zephyr/kernel/work.c:931-953 | scheduling of an idle or running item, 0 for any other |
| WorkSystem.RescheduleForQueue | zephyr/kernel/work.c:967-989 | unscheduling and scheduling anew, with the return value of the latter |
| WorkSystem.WorkTimeout | zephyr/kernel/work.c:790-811 | the expiry of a delayed item submits it |
| WorkSystem.CancelDelayableItem | zephyr/kernel/work.c:924-1017 | unscheduling and cancelling; the busy mask returned is not 0 exactly when a thread is in the handler |
| WorkSystem.CancelDelayableSyncItem | zephyr/kernel/work.c:1019-1049 | the same; whether the item was on a list, in its handler or delayed, and the caller waits exactly when a thread is in the handler |
| WorkSystem.FlushDelayableItem | zephyr/kernel/work.c:1051-1098 | a delayed item is submitted, then flushed; the caller waits exactly when the item is on a list or in its handler then |
| WorkSystem.WorkerLook | zephyr/kernel/work.c:584-643 | one pass of the queue thread under the lock: take a node, or end a drain and sleep |
| WorkSystem.HandleFlush | zephyr/kernel/work.c:66-72 | the handler of a flusher gives its semaphore |
| WorkSystem.WorkerEnd | zephyr/kernel/work.c:658-667 | after a handler RUNNING and BUSY are cleared, and a cancellation is finalised |
| WorkSystem.QueueStart | zephyr/kernel/work.c:690-728 | a started queue is empty, idle and neither draining nor plugged |
| WorkSystem.QueueDrain | zephyr/kernel/work.c:730-760 | draining; the caller waits exactly when something is pending or running, a drain is going on, or it is to be plugged |
| WorkSystem.QueueUnplug | zephyr/kernel/work.c:762-780 | unplugging; -EALREADY if the queue was not plugged |
| PipeRuns.FreshFifo | zephyr/kernel/pipes.c:398-713 | over every run of puts, gets and timeouts of a new pipe, the bytes taken from writers are the bytes delivered to readers followed by the ring; the waiter invariant holds; every call is finished or waiting, once, and moved exactly the bytes logged for it, a prefix of what it asked for |
| PipeRuns.RunFifo | zephyr/kernel/pipes.c:398-713 | the same from any state in which it holds |
| PipeRuns.NextConserves | zephyr/kernel/pipes.c:456-665 | every step keeps: bytes taken = bytes delivered + ring, on the direct, the partial-waiter and the ring path |
| PipeRuns.NextTracks | zephyr/kernel/pipes.c:398-713 | every step keeps each call's own account of its bytes and its return value |
| PipeModel.NextShape | zephyr/kernel/pipes.c:269-281 | readers waiting: ring empty and no writer waits; writers waiting: ring full and no reader waits; every waiter still lacks bytes |
| PipeRuns.PutNoWait | zephyr/kernel/pipes.c:285-348 | a put with K_NO_WAIT returns -EIO with nothing changed, or 0 having moved exactly the smaller of its data and the room, at least the minimum; the waiting readers get the first of these bytes, up to what they want, and the ring the rest |
| PipeRuns.GetNoWait | zephyr/kernel/pipes.c:285-348 | a get with K_NO_WAIT returns -EIO with nothing changed, or 0 with the first bytes of the stream, as many as asked for or there are, at least the minimum; the rest of the stream stays |
| PipeRuns.PutAnswer | zephyr/kernel/pipes.c:398-545 | a put of less than its minimum is refused with -EINVAL, one that may not wait without room for its minimum with -EIO; any other places as much as there is room for, the readers first; it returns 0 if that is all, or it may not wait, or the minimum is not 0 and reached; otherwise it waits with the rest behind the writers that are no worse |
| PipeRuns.GetAnswer | zephyr/kernel/pipes.c:547-713 | the same for a get and the bytes of the stream |
| PipeRuns.TimeoutAnswer | zephyr/kernel/pipes.c:362-374 | a waiter that times out leaves with what it has moved: 0 if that is its minimum, else -EAGAIN |
| PipeRing.Ring.PutPass | zephyr/kernel/pipes.c:199-214 | one pass copies up to the end of the buffer and wraps the write index |
| PipeRing.Ring.Put | zephyr/kernel/pipes.c:190-217 | the two passes store min(request, free) bytes behind the contents |
| PipeRing.Ring.GetPass | zephyr/kernel/pipes.c:235-250 | one pass copies up to the end of the buffer and wraps the read index |
| PipeRing.Ring.Get | zephyr/kernel/pipes.c:227-253 | the two passes take min(request, used) bytes from the front |
| PipeRing.Ring.ReadAvail | zephyr/kernel/pipes.c:755-780 | the bytes computed from the indices are the bytes stored |
| PipeRing.Ring.WriteAvail | zephyr/kernel/pipes.c:792-817 | and the room is the rest of the buffer |
| Pipe.Prepare | zephyr/kernel/pipes.c:285-348 | fails exactly when a call that may not wait cannot move its minimum; else selects the waiters that can be served completely |
| Pipe.Xfer | zephyr/kernel/pipes.c:167-180 | copies as much as fits |
| Pipe.Pipe.ServeReaders | zephyr/kernel/pipes.c:456-487 | the working set is served and woken, the next reader gets the rest |
| Pipe.Pipe.PutTransfer | zephyr/kernel/pipes.c:456-496 | the copies of a put amount to handing the data to the waiting readers in turn and the rest to the ring |
| Pipe.Pipe.Put | zephyr/kernel/pipes.c:398-545 | refines a put up to its return or pend: -EINVAL, -EIO, 0 with all, with the minimum or without waiting, or the caller pends, and who is woken |
| Pipe.Pipe.FromRing | zephyr/kernel/pipes.c:586-626 | ring first, then the working set |
| Pipe.Pipe.FromLast | zephyr/kernel/pipes.c:628-665 | the partly served writer, the ring refilled from the working set, and that writer again |
| Pipe.Pipe.GetTransfer | zephyr/kernel/pipes.c:586-665 | the five copies of a get amount to taking a prefix of ring plus waiting writers' data and refilling the ring from the rest |
| Pipe.Pipe.Get | zephyr/kernel/pipes.c:547-713 | refines a get up to its return or pend, with the same answers |
| Pipe.Pipe.ReaderExpires | zephyr/kernel/pipes.c:362-374 | a reader that times out leaves with what it has got |
| Pipe.Pipe.WriterExpires | zephyr/kernel/pipes.c:362-374 | a writer that times out leaves with what was taken from it |
| DeadlineRuns.AnnounceExact | zephyr/kernel/timeout.c:233-267 | an announcement of n ticks moves the clock by exactly n, fires only what was due within those ticks, each such arming exactly once unless cancelled, and leaves only later deadlines |
| DeadlineRuns.FromBoot | zephyr/kernel/timeout.c:82-267 | over every run, whatever handlers arm or cancel: expiry is in deadline order, first armed first among equals, and each arming is exactly one of expired, cancelled and pending |
| DeadlineRuns.ArmAnswer | zephyr/kernel/timeout.c:82-142 | arming adds one deadline: the tick named, or ticks from now with those elapsed once the announcement is accounted for, never at once; a linked entry or one without end changes nothing |
| DeadlineRuns.CancelAnswer | zephyr/kernel/timeout.c:144-156 | cancelling unlinks the entry and touches no other |
| DeadlineRuns.ArmedExpires | zephyr/kernel/timeout.c:82-267 | over every run, an entry that is armed and not cancelled has expired if and only if its tick, relative or absolute, has been announced, and is pending until then |
| DeadlineRuns.HandlerArms | zephyr/kernel/timeout.c:233-267 | an entry armed by a handler is due from the tick at which the handler runs, and expires in the same announcement if and only if its tick is within it |
| DeadlineRuns.HandlerCancels | zephyr/kernel/timeout.c:233-267 | an entry cancelled by a handler is out of the queue |
| Deadlines.FireOneProgress | zephyr/kernel/timeout.c:243-255 | every round of the announcement advances the clock or leaves fewer entries due, for all handlers, so the announcement ends |
| TimeoutQueue.SplicedPlace | zephyr/kernel/timeout.c:108-119 | splitting a delta inserts the new deadline behind all equal ones and moves no other |
| TimeoutQueue.UnsplicedDues | zephyr/kernel/timeout.c:53-60 | giving a delta to the successor removes one deadline and moves no other |
| TimeoutQueue.TimeoutQueue.Add | zephyr/kernel/timeout.c:82-142 | arming on the delta list is insertion at the deadline: the tick named, never before the next one, or the ticks asked for plus one plus those elapsed |
| TimeoutQueue.TimeoutQueue.Remove | zephyr/kernel/timeout.c:53-60 | removal on the delta list is removal of that deadline |
| TimeoutQueue.TimeoutQueue.Abort | zephyr/kernel/timeout.c:144-156 | aborting removes the entry, or returns -EINVAL if it is not active |
| TimeoutQueue.TimeoutQueue.Remaining | zephyr/kernel/timeout.c:159-186 | what remains of an active entry is its deadline minus current tick and elapsed ticks; 0 if inactive |
| TimeoutQueue.TimeoutQueue.Round | zephyr/kernel/timeout.c:243-255 | one round on the delta list is one firing on the deadlines, with the clock at the deadline when the handler runs |
| TimeoutQueue.TimeoutQueue.Announced | zephyr/kernel/timeout.c:233-267 | the whole announcement on the delta list is the announcement on deadlines, handlers included |
| TimerModel.HappensAs | zephyr/kernel/timer.c:25-129 | whatever is done to a timer and by its handlers, the queue goes through a run of the timeout queue |
| TimerRuns.StatusRun | zephyr/kernel/timer.c:25-184 | at every point of every run the status is the number of expiries of the timer since the last read or effective start, modulo 2^32 |
| TimerRuns.ReadCounts | zephyr/kernel/timer.c:175-184 | after a read or a start and any events that do not clear it, the status is the difference of the numbers of expiries, modulo 2^32 |
| TimerRuns.TimerRun | zephyr/kernel/timer.c:25-129 | however time is cut into announcements and whatever else goes on, a started periodic timer expires first at the tick its duration names or after max(duration, 1) ticks, then every max(period, 2) ticks later by the ticks that had elapsed at its rearming, at all these ticks up to now and at no other |
| TimerRuns.Drift | zephyr/kernel/timer.c:35-39 | the k-th expiry is late by the sum of what the rearmings before it added |
| TimerRuns.NoDrift | zephyr/kernel/timer.c:35-39 | the expiries are at first, first + s, first + 2s, ... if and only if no ticks had elapsed at any rearming with nothing of the announcement left, the last one apart |
| TimerRuns.StatusBeats | zephyr/kernel/timer.c:25-184 | the status read is the number of the beats of the timer after the read before it and up to now, modulo 2^32 |
| TimerRuns.Late | zephyr/kernel/timer.c:35-39 | a timer of period 2 whose first handler call is one tick late expires at 2 and at 5, not at 2 and at 4 |
| TimerStops.StartAnswer | zephyr/kernel/timer.c:93-129 | a start without end is refused; any other links the timer for its first expiry only, clears the status and touches no other deadline |
| TimerStops.StopAnswer | zephyr/kernel/timer.c:142-150 | stopping unlinks the timer whatever it was doing and touches no other deadline |
| TimerStops.StoppedRun | zephyr/kernel/timer.c:142-150 | over every run in which nobody starts it, a stopped timer does not expire again |
| TimerStops.StoppedByHandler | zephyr/kernel/timer.c:25-50 | nor does one that a handler stops, its own expiry function included |
| TimerStops.OneShot | zephyr/kernel/timer.c:25-129 | over every run a timer started without a period expires exactly once, at the tick it was started for |
| Timers.Timer.Start | zephyr/kernel/timer.c:93-129 | on the delta list: an earlier arming is dropped, the period stored, the status cleared and the timer armed; no effect for a duration without end |
| Timers.Timer.Stop | zephyr/kernel/timer.c:142-150 | the entry is removed and not linked any more; whether the timer was running is returned |
| Timers.Timer.Expire | zephyr/kernel/timer.c:25-42 | expiry rearms a periodic timer and counts |
| Timers.Timer.StatusGet | zephyr/kernel/timer.c:175-184 | reading returns and clears the status |
| Timers.Timer.Announce | zephyr/kernel/timeout.c:233-267 | an announcement on the delta list, with the timer rearming itself and handlers starting, stopping and reading it, is the announcement of the state machine |
| SchedRuns.Placement | zephyr/kernel/sched.c:242-724 | in every reachable state a thread has the QUEUED bit exactly when it is in the run queue, once; it is on the wait queue named by pended_on, which exists, once, and on no other; never on both; a dead thread on none; and only ready threads are queued |
| SchedRuns.FifoOrder | zephyr/kernel/sched.c:174-189 | the run queue is sorted by priority, first queued first within a priority |
| SchedRuns.CacheAgrees | zephyr/kernel/sched.c:284-493 | after every operation and switch, if the current thread is preemptible or cannot run, the cache is the head of the run queue, or the idle thread if and only if the queue is empty |
| SchedRuns.BestRuns | zephyr/kernel/sched.c:120-155 | with no switch due and a preemptible current thread, no queued thread has a better priority |
| SchedRuns.KillReleases | zephyr/kernel/sched.c:1520-1553 | when a thread has died nobody is left on its join queue |
| SchedReady.QueuedIffReady | zephyr/kernel/sched.c:242-1722 | over every run, a thread other than the idle one is in the run queue if and only if nothing keeps it from running, unless it has been released from a wait queue and not been made ready since |
| SchedReady.ReleaseThenReady | zephyr/kernel/sched.c:690-704 | a release without making ready leaves out only the thread released, and making it ready puts this right |
| SchedRuns.ExpiryReadies | zephyr/kernel/sched.c:706-724 | a thread whose timeout expires leaves its wait queue and runs again, unless it is dead, a dummy, or pending without a wait queue |
| SchedRuns.YieldGivesWay | zephyr/kernel/sched.c:1229-1244 | a yielding thread is switched out if any queued thread is no worse |
| SchedRuns.SliceGivesWay | zephyr/kernel/sched.c:416-458 | at the end of a time slice another queued thread that is no worse is chosen |
| SchedAnswers.ReadyAnswer | zephyr/kernel/sched.c:524-542 | a thread that nothing keeps from running and that is not queued is queued behind all that are no worse, and the next thread is chosen anew unless the current one is cooperative or has locked the scheduler; any other is not touched |
| SchedAnswers.StartAnswer | zephyr/kernel/sched.c:560-572 | only a thread that has not been started is started, and made ready |
| SchedAnswers.ResumeAnswer | zephyr/kernel/sched.c:604-620 | only a suspended thread is resumed, and made ready |
| SchedAnswers.WakeupAnswer | zephyr/kernel/sched.c:1361-1386 | only a sleeper is woken: not pending, and with a timeout or suspended and nothing else |
| SchedAnswers.SuspendAnswer | zephyr/kernel/sched.c:574-592 | a suspended thread is out of the run queue and its timeout is stopped |
| SchedAnswers.SuspendedRun | zephyr/kernel/sched.c:574-620 | and stays so over every run in which nobody resumes it or wakes it up |
| SchedAnswers.SetPrioAnswer | zephyr/kernel/sched.c:796-821 | the thread has the new priority and the others keep theirs; a queued one stands behind all that are no worse and before all that are, the best is next, and it is itself if strictly the best; one that cannot run stays where it is |
| SchedAnswers.PendAnswer | zephyr/kernel/sched.c:640-681 | a pending thread is out of the run queue and on the wait queue behind those that are no worse, with its timeout if it has one |
| SchedAnswers.ReleaseAnswer | zephyr/kernel/sched.c:690-793 | a released thread waits no longer, its timeout is stopped if asked for, and it is not made ready yet |
| SchedAnswers.WakeAnswer | zephyr/kernel/sched.c:1702-1722 | the first waiter is released and made ready, the others wait on |
| SchedAnswers.WakeAllAnswer | zephyr/kernel/sched.c:1109-1122 | everyone on the wait queue is released and in the run queue unless something else keeps it; nobody else is touched |
| SchedAnswers.ExpireAnswer | zephyr/kernel/sched.c:706-724 | the timeout of a thread that is not dead takes it off its wait queue, ends a sleep or a delayed start and makes it ready |
| SchedAnswers.KillAnswer | zephyr/kernel/sched.c:1520-1553 | a thread that ends is dead, in no queue and without a timeout, everyone who joined it is released, nobody else is touched, and the best is next |
| SchedAnswers.JoinAnswer | zephyr/kernel/sched.c:1614-1644 | 0 for a dead thread, -EBUSY for who may not wait, -EDEADLK for itself or a thread that waits for the caller, else the caller pends on its join queue |
| SchedAnswers.SleepAnswer | zephyr/kernel/sched.c:1254-1291 | the sleeper is out of the run queue with its timeout, and the best other thread runs |
| SchedAnswers.YieldAnswer | zephyr/kernel/sched.c:1229-1244 | the yielding thread stands behind its equals and the first in the run queue runs |
| SchedAnswers.SliceAnswer | zephyr/kernel/sched.c:416-458 | a used-up slice moves a preemptible thread with time slices behind its equals and does nothing to any other |
| SchedAnswers.LockAnswer | zephyr/kernel/sched.c:881-906 | locking counts up; unlocking counts down, not below 0, and chooses anew |
| SchedRuns.NextInv | zephyr/kernel/sched.c:242-1722 | every step keeps placement, order, the state of the current thread and the cache |
| SchedMemory.Memory.SetStateBit | zephyr/include/kernel_structs.h:47-65 | one bit of thread_state changes, and with it one property of the thread |
| SchedMemory.Memory.OnlySuspended | zephyr/kernel/sched.c:1369-1373 | the state word equals _THREAD_SUSPENDED exactly when the thread is suspended and nothing else |
| SchedMemory.Memory.QueueThread | zephyr/kernel/sched.c:242-254 | on the array of lists with its mask: the thread goes where the sorted run queue has it, and is marked queued |
| SchedMemory.Memory.DequeueThread | zephyr/kernel/sched.c:256-262 | the thread leaves the list of its priority and with it the run queue |
| SchedMemory.Memory.NextUp | zephyr/kernel/sched.c:284-313 | the thread found by the lowest set bit is the head of the run queue, or the idle thread if that is empty |
| SchedSystem.Search | zephyr/kernel/sched.c:174-189 | the walk over a priority list finds the place before the first worse thread |
| SchedSystem.RefreshCache | zephyr/kernel/sched.c:477-493 | the choice of the cached thread; a new slice begins exactly when another thread than the current one is chosen |
| SchedSystem.ReadyThread | zephyr/kernel/sched.c:524-542 | a thread is made ready only if it is not queued and ready |
| SchedSystem.AddToWaitq | zephyr/kernel/sched.c:640-660 | a thread leaves the run queue and is pended on a wait queue by priority |
| SchedSystem.ThreadTimeout | zephyr/kernel/sched.c:706-724 | the expiry of a thread's timeout |
| SchedSystem.SetPriority | zephyr/kernel/sched.c:796-821 | the thread has the new priority; one that can run is requeued by it and the cache chosen anew |
| SchedSystem.StartThread | zephyr/kernel/sched.c:560-572 | starting a thread |
| SchedSystem.SuspendThread | zephyr/kernel/sched.c:574-592 | suspending a thread |
| SchedSystem.ResumeThread | zephyr/kernel/sched.c:604-620 | resuming a suspended thread |
| SchedSystem.WakeupThread | zephyr/kernel/sched.c:1361-1386 | waking a sleeper |
| SchedSystem.YieldCurrent | zephyr/kernel/sched.c:1229-1244 | yielding |
| SchedSystem.TickSleep | zephyr/kernel/sched.c:1254-1291 | sleeping until the tick kept in 32 bits; for no ticks it is yielding |
| SchedSystem.TicksLeftExact | zephyr/kernel/sched.c:1294-1300 | a sleep returns what is left of it, 0 if nothing is, if and only if the wake-up tick and the present one are in one period of the 32-bit counter and less than 2^31 apart, or, when the time is over, the counter is not behind the wake-up tick's |
| SchedSystem.SleepAcrossWrap | zephyr/kernel/sched.c:1275-1299 | a sleep of 5 ticks across the wrap-around of the counter, woken at once, returns 0 |
| SchedSystem.PendCurrent | zephyr/kernel/sched.c:669-754 | blocking the current thread and switching away |
| SchedSystem.LockScheduler | zephyr/kernel/sched.c:881-888 | locking the scheduler |
| SchedSystem.UnlockScheduler | zephyr/kernel/sched.c:890-906 | unlocking the scheduler, with the cache chosen anew |
| SchedSystem.TimeSlice | zephyr/kernel/sched.c:388-458 | ticks are counted down; a sliceable thread that has used up its slice goes to the end of its priority and a new slice begins with the elapsed ticks added |
| SchedSystem.WakeFirst | zephyr/kernel/sched.c:1702-1722 | waking the first waiter |
| SchedSystem.UnpendAll | zephyr/kernel/sched.c:1109-1122 | the loop releases everyone on a wait queue and says whether there was anyone |
| SchedSystem.EndThread | zephyr/kernel/sched.c:1520-1553 | the death of a thread |
| SchedSystem.JoinOn | zephyr/kernel/sched.c:1614-1644 | joining: 0, -EBUSY, -EDEADLK, or the caller is pended |
| PrioQueues.AddFlat | zephyr/kernel/sched.c:1075-1081 | appending to the list of a priority is insertion into the sorted list |
| PrioQueues.RemoveFlat | zephyr/kernel/sched.c:1083-1091 | unlinking from the list of a priority is removal from the sorted list |
| PrioQueues.AddedSorted | zephyr/kernel/sched.c:174-189 | the list stays sorted, and a new entry goes behind all of its priority |
| PrioQueues.DumbQueue.Add | zephyr/kernel/sched.c:174-189 | the sorted list after an add |
| PrioQueues.DumbQueue.Remove | zephyr/kernel/sched.c:986-991 | the sorted list after a removal |
| PrioQueues.DumbQueue.Peek | zephyr/kernel/sched.c:993-1002 | the best is the head, no worse than any entry |
| PrioQueues.MultiQueue.Add | zephyr/kernel/sched.c:1075-1081 | the concatenated lists change as the sorted list does; a mask bit is set exactly for a non-empty list |
| PrioQueues.MultiQueue.Remove | zephyr/kernel/sched.c:1083-1091 | the same for removal |
| PrioQueues.MultiQueue.Peek | zephyr/kernel/sched.c:1093-1107 | the head of the list at the lowest set bit is the best of the sorted list; none exactly if that is empty |
| PrioQueues.SideBySide | zephyr/kernel/sched.c:986-1107 | after every operation of every run of adds and removes the sorted list and the array of lists give the same best thread |
| MutexRuns.NextStructure | zephyr/kernel/mutex.c:95-263 | every step keeps: each thread waits for one mutex at most, once in its queue; free exactly if not counted; no owner waits for its own mutex; and a thread's record lists exactly the mutexes it owns |
| MutexRuns.InitialStructure | zephyr/kernel/mutex.c:49-62 | it holds of initialised mutexes |
| MutexRuns.OwnedIffCounted | zephyr/kernel/mutex.c:95-263 | over every run of any threads a mutex has no owner exactly when its count is 0, and waiters imply an owner |
| MutexRuns.LockUnlock | zephyr/kernel/mutex.c:95-263 | unlocking undoes a granted lock: the whole state for a nested lock, all but the recorded priority for a free mutex |
| MutexAnswers.GrantAnswer | zephyr/kernel/mutex.c:95-124 | a mutex that is free or the caller's own is granted: counted once more, the priority recorded the first time, no priority changed |
| MutexAnswers.WaitAnswer | zephyr/kernel/mutex.c:126-145 | a mutex of another: -EBUSY and nothing changed for who may not wait; else the caller waits behind those that are no worse, and the owner gets the better of both priorities, none better than the ceiling, if that is better than its own |
| MutexAnswers.UnlockAnswer | zephyr/kernel/mutex.c:195-263 | -EINVAL without an owner, -EPERM for another than the owner; else one level less, or the recorded priority back and the first waiter owner with its own priority recorded, or the mutex free |
| MutexAnswers.TimeoutAnswer | zephyr/kernel/sched.c:690-724 | a waiter whose time is up is off the wait queue and no priority has changed |
| MutexAnswers.AdjustAnswer | zephyr/kernel/mutex.c:164-183 | the owner gets what the mutex recorded, or the better of that and the first waiter's priority, none better than the ceiling |
| MutexInheritance.StaysServed | zephyr/kernel/mutex.c:95-263 | from any consistent state in which it holds: a step keeps every owner at least as good as every waiter of every mutex it owns if and only if it is not a waiting lock that makes the owner better than the owner of a mutex which that owner waits for, a last unlock with a better waiter on another mutex of the thread or one better than the thread handed to, or a readjustment to a priority worse than a waiter of the owner's mutexes or better than the owner of a mutex which the owner waits for |
| MutexInheritance.ServedRun | zephyr/kernel/mutex.c:95-263 | over every run: everybody is always served if and only if no step is such a drop |
| MutexInheritance.InitialServed | zephyr/kernel/mutex.c:49-62 | nobody waits for an initialised mutex, so everybody is served |
| MutexInheritance.CeilingLowers | zephyr/kernel/mutex.c:72-79 | when a waiter has given up and others remain, readjusting leaves the owner worse than its recorded priority exactly when that is better than the ceiling |
| MutexNesting.StaysNested | zephyr/kernel/mutex.c:16-26 | from any state with right chains: a step keeps every thread's chain of recorded and called-for priorities, in the order of taking, right if and only if it changes the owner's priority through its newest mutex only |
| MutexNesting.NestedRun | zephyr/kernel/mutex.c:16-26 | over every run from right chains, the chains are always right if and only if every step nests like that |
| MutexNesting.NestedPrio | zephyr/kernel/mutex.c:12-14 | with right chains a thread has exactly the best of its own priority and of what its mutexes have called for |
| MutexSingle.StaysSound | zephyr/kernel/mutex.c:95-263 | while no thread waits that owns a mutex, every step keeps: wait queues sorted, and every mutex has called for exactly what its recorded priority and its first waiter call for, or for more if somebody who gave up has still to readjust it |
| MutexSingle.SoundRun | zephyr/kernel/mutex.c:95-263 | and so does every run |
| MutexSingle.LastUnlock | zephyr/kernel/mutex.c:238-263 | the last unlock restores the recorded priority and hands the mutex, held once, to the first waiter, which is the best and needs no raising |
| MutexSingle.NestedServed | zephyr/kernel/mutex.c:12-14 | with right chains, sorted queues and mutexes in step everybody is served |
| MutexSingle.Inheritance | zephyr/kernel/mutex.c:95-263 | when threads take one mutex at a time: at any moment of any run a thread without a mutex has its original priority; an owner is no worse than that and than any of its waiters, and it has exactly the better of that and the first waiter's unless somebody who gave up has still to readjust it |
| MutexCases.FollowsDocumented | zephyr/kernel/mutex.c:16-26 | whoever keeps the chains right releases contributing mutexes in reverse order and lets none but the newest one bump the owner, as documented |
| MutexCases.DocumentedNotEnough | zephyr/kernel/mutex.c:16-26 | a run that nests as documented at every step and still leaves a better thread waiting for an owner at its original priority |
| MutexCases.TwoMutexes | zephyr/kernel/mutex.c:195-263 | releasing in the order of taking: a run whose last step meets the failing condition, breaks the documented nesting, and leaves a better thread waiting |
| MutexCases.Transitive | zephyr/kernel/mutex.c:134-143 | a run in which an owner that waits is raised and the owner it waits for is not: everybody is served before the last lock and not after it |
| MutexCases.TooLate | zephyr/kernel/mutex.c:158-172 | after a timeout the owner keeps the raised priority until the readjustment; if it unlocks first, the mutex has no owner and the readjustment is undefined |
| MutexCases.CeilingRun | zephyr/kernel/mutex.c:158-183 | with ceiling 0 an owner of priority -1 keeps it when one of its two waiters times out, and ends at 0 when that one readjusts it |
| MutexSystem.AdjustOwner | zephyr/kernel/mutex.c:81-93 | through the owner pointer: the owner's priority is set |
| MutexSystem.Search | zephyr/kernel/sched.c:174-189 | the walk over the wait queue finds the place before the first worse thread |
| MutexSystem.LockMutex | zephyr/kernel/mutex.c:95-147 | on thread and mutex objects: 0, -EBUSY, or the owner is raised and the caller waits |
| MutexSystem.Unpend | zephyr/kernel/sched.c:690-724 | the scheduler takes a thread whose time is up off the wait queue, wherever it stands |
| MutexSystem.LockTimedOut | zephyr/kernel/mutex.c:164-183 | the thread that gave up: whoever owns the mutex now is readjusted to its recorded priority and its first waiter; the mutex must have an owner |
| MutexSystem.UnlockMutex | zephyr/kernel/mutex.c:195-263 | unlocking: -EINVAL, -EPERM, one level less, or hand-over to the first waiter |
| MsgqModel.BoundedFifo | zephyr/kernel/msg_q.c:116-337 | over every run the messages accepted are, in order, those delivered or purged followed by those stored; never more than the maximum is stored |
| MsgqModel.RolesNeverMix | zephyr/kernel/msg_q.c:116-270 | in all runs the waiters are all receivers at an empty queue or all senders at a full one, if and only if max_msgs is at least 1 |
| MsgqModel.EveryCallOnce | zephyr/kernel/msg_q.c:116-337 | over every run every call has ended exactly once or is waiting exactly once; a put ended having sent its own message, a get having got one, or it failed, with -EAGAIN only if it was ready to wait |
| MsgqModel.PutAnswer | zephyr/kernel/msg_q.c:116-174 | a put is accepted if and only if there is room, handed to the first receiver that waits or else stored last; without room it fails with -ENOMSG or waits behind those that are no worse |
| MsgqModel.GetAnswer | zephyr/kernel/msg_q.c:206-270 | a get has the oldest message if there is one, and the first sender that waits has its message stored last; without one it fails with -ENOMSG or waits |
| MsgqModel.PurgeAnswer | zephyr/kernel/msg_q.c:318-337 | a purge leaves nothing and nobody: each waiter fails with -ENOMSG, each message is thrown away |
| MsgqModel.TimeoutAnswer | zephyr/kernel/msg_q.c:116-174 | a waiter whose time is up fails with -EAGAIN and the others wait on |
| MsgQueue.MsgQ.Store | zephyr/kernel/msg_q.c:144-149 | copying to the write pointer appends a message, around the end of the buffer |
| MsgQueue.MsgQ.Fetch | zephyr/kernel/msg_q.c:219-226 | copying from the read pointer takes the oldest message |
| MsgQueue.MsgQ.Put | zephyr/kernel/msg_q.c:116-174 | refines a put: direct hand-over, storage, -ENOMSG, or the caller waits |
| MsgQueue.MsgQ.Get | zephyr/kernel/msg_q.c:206-270 | refines a get; the place goes to the first waiting sender's message |
| MsgQueue.MsgQ.Peek | zephyr/kernel/msg_q.c:284-306 | returns the oldest message without taking it, or -ENOMSG |
| MsgQueue.MsgQ.Purge | zephyr/kernel/msg_q.c:318-337 | wakes every waiter with -ENOMSG and drops the stored messages |
| MsgQueue.MsgQ.TimedOut | zephyr/kernel/msg_q.c:116-174 | a waiter whose timeout expires leaves with -EAGAIN, its message not accepted |
| DeviceGraph.Forward | zephyr/scripts/gen_handles.py:268-281 | for any order of taking nodes from the set, and without a visited set, the loop ends with exactly the used nodes that a path through unused non-root nodes reaches |
| DeviceGraph.ForwardAll | zephyr/scripts/gen_handles.py:261-282 | the same for every used node |
| DeviceGraph.WeightDrops | zephyr/scripts/gen_handles.py:272-280 | replacing a node by its dependencies makes the sum of the powers of two of the ordinals smaller |
| DeviceHandles.Parse | zephyr/scripts/gen_handles.py:245-259 | reads device and other dependencies up to the end mark; neither contains a mark |
| DeviceHandles.ParsedLayout | zephyr/scripts/gen_handles.py:245-259 | an array laid out with ordinal, dependencies, separator, others and end mark is read back exactly |
| DeviceHandles.Encode | zephyr/scripts/gen_handles.py:288-323 | writes dependencies, separator and others, padded to the old length with at least one end mark, or fails |
| DeviceHandles.RequiredHandles | zephyr/include/device.h:484-501 | the scan counts the handles before the first mark; nothing for a device without an array |
| DeviceHandles.RoundTrip | zephyr/scripts/gen_handles.py:288-323 | what is read is what was written if and only if no dependency looks like a mark |
| DeviceHandles.HandleInverse | zephyr/include/device.h:413-450 | a device is found again from its handle if and only if its index is below 32767, and a handle up to 32767 from its device |
| DeviceHandles.EndToEnd | zephyr/include/device.h:484-501 | the handles read back for a node stand for exactly the devices of the nodes that it requires in the devicetree, if and only if the handle of every required device is below the end mark |
| DeviceHandles.RequiredDevices | zephyr/scripts/gen_handles.py:261-323 | the whole way: forward the dependencies, write the array, count the handles and look up the devices; none exactly if there is no room, else exactly the required devices if and only if all their handles are below the end mark |

## Left out

- Multiprocessor paths, spinlocks, inter-processor interrupts and context-switch internals: a critical section is one step.
- The time between removing an expired timeout and running its handler: for delayable work and thread timeouts the two are one step.
- Interference while a pipe copies with its lock dropped: a put or get up to its return or pend is one step; asynchronous descriptors of pipes are absent.
- Reuse of memory: items, flushers and canceller records are numbered and never re-initialised while in use; doubly linked lists (wait queues, the lists of the run queue) are sequences.
- Tick counters are unbounded integers, without 64-bit wrap-around; the depth of scheduler locking has no 8-bit wrap-around.
- TimeoutQueue.TimeoutQueue.Perform: a handler that arms an entry which is already linked, an assertion failure in the kernel, has no effect; announcements are not nested inside handlers.
- TimeoutQueue.TimeoutQueue.Announced: programming the hardware timer for the next expiry, and z_timeout_expires, which inherits the elapsed ticks, are not modelled.
- TimerRuns.NoDrift: for relative periods; nobody starts or stops the timer meanwhile.
- TimerModel.HappensAs: threads waiting in k_timer_status_sync are not modelled; an expiry function is a finite list of operations on timeouts and on this timer.
- Timers.Timer.Stop: the stop function and the thread released from the timer's wait queue are not modelled.
- WorkSystem.QueueStart: threads that called drain on a queue before it was started are dropped with the re-initialised wait queue, as in the code; yielding between work items is not modelled.
- WorkRuns.NextInv: plain operations are not applied to delayable items and delayable ones only to these, as the code asserts.
- SchedRuns.NextInv: callers see to it that nobody touches the idle thread, that only the executing thread blocks, yields or joins, and that no priority changes between unpending a thread and making it ready.
- SchedRuns.FifoOrder: the order of wait queues is not claimed, because a change of priority does not move a pended thread; deadline scheduling, meta-interrupt threads, CPU masks and the red-black run queue are absent.
- PrioQueues.MultiQueue.Peek: priorities are fixed while queued, and the mask is a natural number whose bits are set and cleared one at a time.
- SchedSystem.SetPriority: asks that a ready thread be queued, because the code unlinks a ready thread from the run queue without looking; and that the array of lists has a list for the new priority.
- SchedSystem.TimeSlice: only the counting of ticks for the current thread; programming the hardware timer for the end of the slice is not modelled.
- MutexInheritance.StaysServed: priorities are changed by mutexes only, and none is better than the ceiling.
- MutexSystem.LockTimedOut: asks that the mutex has an owner, because the code follows the owner pointer without looking.
- MutexSingle.Inheritance: the lock count has no 32-bit wrap-around.
- MsgQueue.MsgQ.Put: poll events, allocation and cleanup of the buffer are absent.
- DeviceGraph.Forward: the ordinals are taken as given; their computation by the devicetree library is not modelled.
- DeviceHandles.Encode: finding symbols in the first-pass image and the text of the generated C file are not modelled.
- Semaphores, condition variables, FIFOs, stacks, mailboxes, events, futexes, polling, memory slabs and heaps, memory domains and paging, system-call wrappers, tracing, boot code and the applications: they would add easier members or rest on code outside this model.
