# Verified models of the Zephyr 2.2 kernel in BlueSWAT

The Dafny project beside this file models the scheduling, timing and
message-passing core of the Zephyr 2.2 kernel that BlueSWAT runs on, one ADC
driver and two build-time generators, and proves what they promise: mostly
invariants over every run of calls, interrupts and timeouts, and agreement
between the code and a simpler reference.  The configuration is one processor
with atomic context switch; each section under a spinlock is one step.
`dafny verify dfyconfig.toml` checks everything.

## How it is organised

Most subsystems come in two or three modules.  The reference is a state of
plain values with step functions, invariants and run theorems.  The kernel
module holds the code on data of its own (linked nodes, state bits, rings,
descriptors, byte buffers, updated in place) and proves that each call takes
the reference through one step, so that the run theorems hold of it.

- Timeouts, TimeoutList, Timers: the timeout service by absolute expiry, the
  delta list and announcement loop that implement it, and timers on top.
- WaitQueues, Pipes, PipeSteps, PipeKernel: wait queues in priority order;
  pipes as byte streams with waiting readers and writers; calls split where
  interrupts come in; ring, working list and copy loops.
- Bitmasks, RunQueues: the three ready-queue back ends against the list of
  arrivals.
- Lists, DLists, Scheduler, SchedulerKernel, ThreadStates, Preemption, MetaIrqs:
  intrusive lists; where each thread is and what runs next; the scheduler on the
  link node every thread has; what a call does to a thread; who may take the
  processor from whom; the promise to cooperative threads displaced by meta-IRQ
  threads.
- Poll, PollChecks, PollKernel, PollQueues: one k_poll call against everything
  that can happen around it, what it owes its caller, the code, and several
  calls that wait for the same object.
- Mutexes, MutexRuns, MutexCases, MutexAnswers, MutexKernel: priority inheritance
  with nested mutexes, on the scheduler: when each call keeps its promise, whole
  runs, special cases and breaking runs; return codes and mutual exclusion; the
  code.
- Mailboxes, MailboxRuns, MailboxKernel; MsgQueues, MsgQueueKernel; Slabs: the
  other blocking objects.
- Adc, AdcRuns, AdcKernel; Idt; Syscalls: the ADC sampling protocol and its buffer,
  vector allocation and system call marshalling.
- Memory, Wrappers: bytes, memcpy and equal slots; optional values.

## Where the code does not keep a promise

In each case the model does what the code does and a lemma says exactly when
the promise holds; an input or run that breaks it is given beside it, or is any
that fails the condition.

- k_thread_resume is documented to have no effect on a thread that is not
  suspended; on a thread in the ready queue it queues it a second time
  (Scheduler.ResumeExact, Scheduler.ResumeBroken).
- A meta-IRQ thread is to return to the cooperative thread it preempted; the
  record is cleared when the return is decided, so another decision before the
  switch forgets the thread unless it would be chosen anyway
  (MetaIrqs.StepExact, MetaIrqs.ForgettingBreaks, MetaIrqs.PromiseBroken).
  Making the running thread cooperative while another is owed breaks it too
  (MetaIrqs.UnfitBreaks), and so does doing it, by a lock, after the choice of a
  meta-IRQ thread was made (MetaIrqs.UnfitFreeBreaks).
  A record left behind makes a later pend return at once
  (MetaIrqs.PendStaysExact, MetaIrqs.StaleRecord).
- The tree-based ready queue can lose arrival order when its 32-bit order key
  wraps (RunQueues.TreeRun, RunQueues.WrapOvertakes).
- A priority change does not move a pended thread within its wait queue
  (Scheduler.WaitOrderExact, Scheduler.WaitOrderBroken), and unlinks a node in
  no list if the thread is between being unpended and being made ready
  (Scheduler.SetPrioExact).
- A thread is to run at the best of its own priority and those of the waiters
  for its mutexes, up to the ceiling.  A release restores the one priority the
  mutex remembers, which is wrong if another mutex has been waited for since it
  was taken (Mutexes.ReleaseExact), also in reverse order
  (MutexCases.ReverseReleaseDrops, MutexCases.GivenUpEarly).  A boost is not
  passed on by an owner that itself waits (Mutexes.BlockExact,
  MutexCases.BoostNotPassedOn).  A waiter's timeout demotes an owner that
  started out above the ceiling (Mutexes.TimedOutExact,
  MutexCases.CeilingBroken), an aborted waiter leaves its boost behind
  (Mutexes.AbortWaiterExact), and a priority set while mutexes are held is lost
  (MutexRuns.GivenExact).  A thread gets its own priority back after its last
  mutex if it gives up last the one it took first, and may not otherwise
  (MutexRuns.BaseRestored, MutexRuns.BaseLost).
- The clean-up after a timeout takes it that the mutex has an owner, which may
  have released it since (MutexCases.NoOwnerExact, MutexCases.CleanUpTooLate).
- A signal wakes a caller of k_poll only if the first event registered for the
  object belongs to a caller that sleeps (PollQueues.SignalWakesExact,
  PollQueues.SignalWasted).
- The handler of a system call with more than six words checks all the words
  behind the sixth register but the last (Syscalls.CheckCovers).
- Announcements can be batched freely only while the driver counts no tick
  during the catch-up (Timeouts.BatchingNeedsQuietDriver); a periodic timer that
  fires on the last tick announced drifts by that count (Timers.ArmedNext).
- A message queue of capacity 0 lets senders and receivers wait side by side
  (MsgQueues.OneRoleExact).
- The bitfield of free interrupt vectors also marks an assigned one whose
  handler is a spurious one (Idt.FreeBitsExact).

The states given in MetaIrqs and MutexCases are shown to satisfy the invariants
and the runs to go through from there; Scheduler.ResumeBroken starts at boot and
PollQueues.SignalWasted at an unused object.

## Model

| member | source | states |
|---|---|---|
| Timeouts.InsertPosition | ZephyrOS/zephyr/kernel/timeout.c:96-110 | a new timeout goes behind every one due no later and before every one due later: equal expiries keep their order |
| Timeouts.InsertExpiries | ZephyrOS/zephyr/kernel/timeout.c:95-110 | arming a timeout changes no other expiry |
| Timeouts.DeleteExpiries | ZephyrOS/zephyr/kernel/timeout.c:58-65 | aborting a timeout changes no other expiry |
| Timeouts.PerformExpiries | ZephyrOS/zephyr/kernel/timeout.c:86-129 | on the map from timeout to absolute expiry each request is one update |
| Timeouts.PerformValid | ZephyrOS/zephyr/kernel/timeout.c:86-129 | a request keeps the queue sorted and duplicate-free and never makes more timeouts due now |
| Timeouts.FireProgress | ZephyrOS/zephyr/kernel/timeout.c:194-206 | the catch-up loop terminates: time moves, or fewer timeouts are due now, because a re-armed one is at least a tick ahead |
| Timeouts.SurvivorsInFuture | ZephyrOS/zephyr/kernel/timeout.c:184-218 | after an announcement time is exactly the target and every pending timeout is strictly later |
| Timeouts.FiresInOrder | ZephyrOS/zephyr/kernel/timeout.c:194-206 | timeouts fire in the order of their expiries, within the announced span |
| Timeouts.Batching | ZephyrOS/zephyr/kernel/timeout.c:184-218 | announcing to a and then to b gives the queue, time, handler state and firings of announcing to b at once, whatever handlers re-arm or abort |
| Timeouts.AnyBatching | ZephyrOS/zephyr/kernel/timeout.c:184-218 | of a whole run of announcements only the total matters |
| Timeouts.BatchingNeedsQuietDriver | ZephyrOS/zephyr/kernel/timeout.c:67-70 | splitting an announcement anywhere is irrelevant, for every handler, clock and span, if and only if the driver counts no tick during the catch-up |
| Timeouts.FiresWhenDue | ZephyrOS/zephyr/kernel/timeout.c:184-218 | a timeout no handler touches fires in the announcement that reaches its expiry, at that expiry |
| Timeouts.QueueOrderFires | ZephyrOS/zephyr/kernel/timeout.c:96-110 | of two timeouts no handler touches the one ahead in the queue fires first, whatever else is armed, aborted or fired meanwhile |
| Timeouts.FirstInFirstOut | ZephyrOS/zephyr/kernel/timeout.c:86-115 | of two timeouts due at the same tick the one armed first fires first, with any calls for other timeouts in between |
| TimeoutList.InsertRefines | ZephyrOS/zephyr/kernel/timeout.c:95-110 | insertion by deltas is insertion by absolute expiry |
| TimeoutList.RemoveRefines | ZephyrOS/zephyr/kernel/timeout.c:58-65 | removal with the delta passed to the follower is removal by absolute expiry |
| TimeoutList.AbsoluteAt | ZephyrOS/zephyr/kernel/timeout.c:139-148 | a node's expiry is the prefix sum of deltas |
| TimeoutList.TimeoutQueue.NextTimeout | ZephyrOS/zephyr/kernel/timeout.c:72-84 | never beyond the earliest expiry nor beyond the time slice, and otherwise exactly the ticks to that expiry, 0 if it has passed, the maximum if nothing is pending |
| TimeoutList.TimeoutQueue.Link | ZephyrOS/zephyr/kernel/timeout.c:95-110 | the insertion loop computes the delta insertion |
| TimeoutList.TimeoutQueue.Add | ZephyrOS/zephyr/kernel/timeout.c:86-115 | arms the timeout at now + max(1, ticks) + elapsed, leaves the others, and the driver still wakes in time |
| TimeoutList.TimeoutQueue.AbortTimeout | ZephyrOS/zephyr/kernel/timeout.c:117-129 | removes exactly that timeout; 0 if it was pending, -EINVAL otherwise |
| TimeoutList.TimeoutQueue.Remaining | ZephyrOS/zephyr/kernel/timeout.c:131-149 | exact ticks to the expiry, 0 if not pending |
| TimeoutList.TimeoutQueue.FireHead | ZephyrOS/zephyr/kernel/timeout.c:194-206 | one turn of the loop moves time to the head's expiry and runs its handler |
| TimeoutList.TimeoutQueue.Settle | ZephyrOS/zephyr/kernel/timeout.c:208-215 | the ticks left over come off the head without moving any expiry |
| TimeoutList.TimeoutQueue.Announce | ZephyrOS/zephyr/kernel/timeout.c:184-218 | the announcement loop on deltas does exactly the advance of module Timeouts, and the driver is set to wake in time |
| Timers.OneFiring | ZephyrOS/zephyr/kernel/timer.c:46-87 | with an expiry function that leaves it alone, a timer's own expiry re-arms it a period later, and later still by what the driver has counted since, and counts once; another's leaves it alone |
| Timers.FiringObeys | ZephyrOS/zephyr/kernel/timer.c:46-66 | for every expiry function and seen from every timer: the timer that fires is armed a period on and counted before its expiry function runs, and what that function then did last to a timer stands: started, it is due that long from now with its new period and count 0; stopped, it is disarmed; untouched, it is as it was |
| Timers.StaysSilent | ZephyrOS/zephyr/kernel/timer.c:137-155 | a disarmed timer that no expiry function starts never fires, whatever the others do and however late the driver is |
| Timers.StoppedByItself | ZephyrOS/zephyr/kernel/timer.c:55-66 | a timer, periodic or not, that is stopped in its own expiry function has fired for the last time |
| Timers.FiresOnSchedule | ZephyrOS/zephyr/kernel/timer.c:46-61 | over an announcement an armed timer fires exactly at first, first + period, ... up to the new time and counts each modulo 2^32, whatever the other timers do and however late the driver is |
| Timers.ScheduleExact | ZephyrOS/zephyr/kernel/timer.c:46-61 | the k-th scheduled tick is first + k * period, and k is scheduled exactly when that is not after the target |
| Timers.NeverFires | ZephyrOS/zephyr/kernel/timer.c:137-155 | a disarmed timer that nobody touches does not fire and keeps its count, however late the driver is |
| Timers.NoDrift | ZephyrOS/zephyr/kernel/timer.c:108-123 | after any run of announcements the status is the number of k with start + max(1, duration) + k * period not after now: no drift |
| Timers.ArmedNext | ZephyrOS/zephyr/kernel/timer.c:46-61 | afterwards a periodic timer is armed for the next tick of its schedule, and later by what the driver has counted since if and only if it fired on the last tick announced |
| Timers.ReadsAddUp | ZephyrOS/zephyr/kernel/timer.c:166-175 | over any run of announcements and status reads each read returns exactly the expiries since the read before it, modulo 2^32: none is lost or counted twice |
| Timers.TimerService.TimerStart | ZephyrOS/zephyr/kernel/timer.c:108-123 | re-arms the timer afresh and resets period and status |
| Timers.TimerService.TimerStop | ZephyrOS/zephyr/kernel/timer.c:137-155 | disarms it; reports whether it was armed |
| Timers.TimerService.Tick | ZephyrOS/zephyr/kernel/timer.c:46-87 | a tick announcement on the real list fires, re-arms and counts as the model does, for every expiry function, which by Timers.FiringObeys sees its timer re-armed and has the last word on it |
| WaitQueues.PendByPriority | ZephyrOS/zephyr/kernel/sched.c:792-807 | inserting a waiter keeps a wait queue in priority order |
| WaitQueues.PendTids | ZephyrOS/zephyr/kernel/sched.c:792-807 | and adds exactly that waiter |
| WaitQueues.UnpendTids | ZephyrOS/zephyr/kernel/sched.c:809-821 | removing one removes exactly it |
| WaitQueues.UnpendPend | ZephyrOS/zephyr/kernel/sched.c:792-821 | taking a waiter out before or after another is inserted gives the same queue; taking out the inserted one undoes the insertion |
| Pipes.DrainCounts | ZephyrOS/zephyr/kernel/pipes.c:624-687 | draining n bytes from writers takes min(n, all they offer), in order, and leaves nobody with nothing to give |
| Pipes.FeedCounts | ZephyrOS/zephyr/kernel/pipes.c:478-509 | feeding readers loses no byte: what they got followed by what is left is what was put |
| Pipes.PutKeepsQueues | ZephyrOS/zephyr/kernel/pipes.c:429-576 | a put keeps: writers wait only behind a full ring, readers only before an empty one, never both, nobody with nothing left to move |
| Pipes.GetKeepsQueues | ZephyrOS/zephyr/kernel/pipes.c:578-719 | a get keeps the same |
| Pipes.NoWaitMovesMinimum | ZephyrOS/zephyr/kernel/pipes.c:315-378 | a call that does not wait is refused exactly when it could not move its minimum, and otherwise moves all it can |
| Pipes.PutAnswers | ZephyrOS/zephyr/kernel/pipes.c:429-576 | a put is invalid exactly when its minimum exceeds it, refused exactly when it may not wait and there is no room for the minimum, and blocks exactly when it may wait and there is no room for all of it, the caller then waiting with exactly the missing bytes; otherwise the count it returns is what there was room for; the bytes moved are filed under the request and are the next of the stream |
| Pipes.GetAnswers | ZephyrOS/zephyr/kernel/pipes.c:578-719 | a get answers likewise by what is in stock, and waits for exactly what is missing; the bytes delivered under the request are the next of the stream, as many as the count says |
| Pipes.LeavesSatisfied | ZephyrOS/zephyr/kernel/pipes.c:486-512 | a waiting call that leaves the queue other than by its timeout has had all of its request moved, and a timeout moves nothing |
| Pipes.PutConserves | ZephyrOS/zephyr/kernel/pipes.c:429-576 | bytes taken from writers, in order, stay the bytes delivered followed by the ring |
| Pipes.GetConserves | ZephyrOS/zephyr/kernel/pipes.c:578-719 | likewise for a get, with its refill of the ring |
| Pipes.DrainAccounts | ZephyrOS/zephyr/kernel/pipes.c:624-687 | every put's taken bytes followed by what it still offers stay its data |
| Pipes.FeedAccounts | ZephyrOS/zephyr/kernel/pipes.c:478-509 | every get's delivered bytes and what it still needs stay what it asked for |
| Pipes.StepInv | ZephyrOS/zephyr/kernel/pipes.c:429-719 | every whole put, get and waiter's timeout keeps queues, conservation and accounts |
| Pipes.EveryRun | ZephyrOS/zephyr/kernel/pipes.c:429-719 | so does every run of them |
| Pipes.FromEmpty | ZephyrOS/zephyr/kernel/pipes.c:131-143 | from a new pipe, through every run: the bytes taken are those delivered and those in the ring, in order; each put's taken bytes are a prefix of its data, no get gets more than it wants, and readers and writers never wait together |
| Pipes.ReturnCodeReports | ZephyrOS/zephyr/kernel/pipes.c:392-404 | in every state that a run leads to, a waiting call that comes back gets 0 exactly when at least its minimum really was taken from it or delivered to it |
| PipeSteps.PutCompletes | ZephyrOS/zephyr/kernel/pipes.c:429-576 | a put's prepare, copy and wait steps run together are the whole put |
| PipeSteps.GetCompletes | ZephyrOS/zephyr/kernel/pipes.c:578-719 | likewise for a get with its refill |
| PipeSteps.TimeoutCommutes | ZephyrOS/zephyr/kernel/pipes.c:464-476 | a waiter that times out while another call copies, also the one served in part, leaves the same pipe as if it timed out right behind that call |
| PipeSteps.SplitStepGood | ZephyrOS/zephyr/kernel/pipes.c:429-719 | every step of a call and every timeout within it keeps that: completing the call now gives the run of whole calls so far |
| PipeSteps.SplitRefines | ZephyrOS/zephyr/kernel/pipes.c:280-300 | every run of split calls with timeouts anywhere is a run of whole calls, the timeouts moved behind the calls they fell into |
| PipeSteps.SplitFromIdle | ZephyrOS/zephyr/kernel/pipes.c:429-719 | from a pipe with no call in progress, whatever timeouts fall into the calls: completing the call in progress gives what the run of whole calls gives, invariant included, which is what the pipe is whenever no call is in progress |
| PipeKernel.Xfer | ZephyrOS/zephyr/kernel/pipes.c:197-210 | copies what fits and touches nothing else |
| PipeKernel.Prepare | ZephyrOS/zephyr/kernel/pipes.c:315-378 | accepts exactly the requests that may go ahead, and its working list is the longest prefix of waiters it can satisfy in full |
| PipeKernel.CopyToReaders | ZephyrOS/zephyr/kernel/pipes.c:478-509 | the copies to the working list and to one more reader in part are exactly the feeding of module Pipes, and every reader made ready has nothing left to get |
| PipeKernel.CopyFromWriters | ZephyrOS/zephyr/kernel/pipes.c:624-658 | the direct copies from writers are exactly the draining of module Pipes |
| PipeKernel.RefillFromWorkingList | ZephyrOS/zephyr/kernel/pipes.c:665-677 | the writers left on the working list fit the freed ring: each made ready has nothing left |
| PipeKernel.Refill | ZephyrOS/zephyr/kernel/pipes.c:665-687 | the whole refill is the draining of module Pipes |
| PipeKernel.RingBuffer.Put | ZephyrOS/zephyr/kernel/pipes.c:220-247 | two runs around the ring append as much as fits |
| PipeKernel.RingBuffer.Get | ZephyrOS/zephyr/kernel/pipes.c:257-283 | two runs take the oldest bytes off |
| PipeKernel.KPipe.constructor | ZephyrOS/zephyr/kernel/pipes.c:131-143 | a new pipe |
| PipeKernel.KPipe.PipePut | ZephyrOS/zephyr/kernel/pipes.c:429-576 | the code on the ring and the working list does what the model's put does and returns what it returns, whose meaning Pipes.PutAnswers gives; exactly the readers that leave the queue are readied |
| PipeKernel.KPipe.PipeGet | ZephyrOS/zephyr/kernel/pipes.c:578-719 | the code of a get does what Pipes.Get says, returns those bytes, and readies exactly the writers that leave the queue |
| RunQueues.QueueRemove | ZephyrOS/zephyr/kernel/sched.c:809-821 | removal commutes with the insertions that built the sorted list |
| RunQueues.QueueHead | ZephyrOS/zephyr/kernel/sched.c:823-832 | the head of the sorted list is the earliest-added thread of the highest priority |
| RunQueues.Insert | ZephyrOS/zephyr/kernel/sched.c:792-807 | the insertion loop puts a thread before the first of lower priority |
| RunQueues.LevelBest | ZephyrOS/zephyr/kernel/sched.c:932-946 | the head of the lowest non-empty level is the earliest-added thread of the highest priority |
| RunQueues.MultiQueue.Add | ZephyrOS/zephyr/kernel/sched.c:908-914 | one list per priority, and each bit set exactly when its list is not empty |
| RunQueues.MultiQueue.Remove | ZephyrOS/zephyr/kernel/sched.c:916-930 | the same after a removal |
| RunQueues.MultiQueue.Best | ZephyrOS/zephyr/kernel/sched.c:932-946 | counting trailing zeros finds the thread to pick |
| RunQueues.SortedList.Best | ZephyrOS/zephyr/kernel/sched.c:823-832 | so does the sorted list |
| RunQueues.TreeAddExact | ZephyrOS/zephyr/kernel/sched.c:851-872 | an add to the tree keeps arrival order if and only if no queued thread of that priority holds an order key above the next one |
| RunQueues.TreeRun | ZephyrOS/zephyr/kernel/sched.c:851-889 | through every run, of any length and with any number of key wraps, the tree holds the order of arrivals after each operation if and only if no add met a queued thread of its priority with a higher key |
| RunQueues.TreeStep | ZephyrOS/zephyr/kernel/sched.c:851-889 | one operation keeps the order of arrivals if and only if it overtakes nothing |
| RunQueues.NoWrapNoOvertaking | ZephyrOS/zephyr/kernel/sched.c:857-889 | nothing is overtaken while the key counter, which restarts when the tree is empty, does not wrap |
| RunQueues.WrapOvertakes | ZephyrOS/zephyr/kernel/sched.c:857-869 | a run of 2^32 adds after which a later thread is picked before an earlier one of its priority |
| RunQueues.TreeQueue.Add | ZephyrOS/zephyr/kernel/sched.c:851-872 | the code, with the renumbering walk at the wrap, is the add the lemmas are about |
| RunQueues.TreeQueue.Remove | ZephyrOS/zephyr/kernel/sched.c:874-889 | the nodes left are in the order of the arrivals left, and the key counter restarts exactly when the last one leaves |
| RunQueues.TreeQueue.Best | ZephyrOS/zephyr/kernel/sched.c:891-900 | the least node is the thread to pick |
| RunQueues.Drive | ZephyrOS/zephyr/kernel/sched.c:792-946 | all three queues driven through the same legal calls, as long as the tree overtakes nothing, pick the same thread after each: the earliest-added of highest priority |
| Bitmasks.Setting | ZephyrOS/zephyr/kernel/sched.c:908-930 | setting or clearing a bit changes that bit and no other |
| Bitmasks.CountTrailingZeros | ZephyrOS/zephyr/kernel/sched.c:939 | the lowest set bit |
| Scheduler.InsertIsPend | ZephyrOS/zephyr/kernel/sched.c:792-807 | insertion by current priority is the insertion of module WaitQueues, so threads of one priority stay in order of arrival |
| Scheduler.PendPlaces | ZephyrOS/zephyr/kernel/sched.c:524-548 | pending keeps every thread in exactly the list its state says |
| Scheduler.WakePlaces | ZephyrOS/zephyr/kernel/sched.c:635-639 | so does waking a waiter |
| Scheduler.ExpirePlaces | ZephyrOS/zephyr/kernel/sched.c:581-592 | so does a thread's timeout |
| Scheduler.SuspendPlaces | ZephyrOS/zephyr/kernel/sched.c:425-441 | so does suspending |
| Scheduler.WakeupPlaces | ZephyrOS/zephyr/kernel/sched.c:1174-1197 | so does k_wakeup |
| Scheduler.SetPrioPlaces | ZephyrOS/zephyr/kernel/sched.c:644-668 | so does a priority change, and the ready queue stays sorted |
| Scheduler.RotatePlaces | ZephyrOS/zephyr/kernel/sched.c:399-409 | so do yielding and time slicing |
| Scheduler.AbortPlaces | ZephyrOS/zephyr/kernel/sched.c:450-489 | so does aborting |
| Scheduler.SleepPlaces | ZephyrOS/zephyr/kernel/sched.c:1109-1118 | so does sleeping |
| Scheduler.ResumeExact | ZephyrOS/zephyr/kernel/thread.c:699-703 | resuming keeps placement if and only if the thread is not in the ready queue already |
| Scheduler.ResumeBroken | ZephyrOS/zephyr/kernel/thread.c:699-703 | a thread just started and then resumed is in the ready queue twice |
| Scheduler.WaitOrderBroken | ZephyrOS/zephyr/kernel/sched.c:644-668 | whenever two threads wait, making the first less important than the second puts the queue out of order |
| Scheduler.StepPlaces | ZephyrOS/zephyr/kernel/sched.c:379-668 | every call keeps placement: QUEUED exactly when in the ready queue once, pended_on the one wait queue holding it, ready exactly when queued |
| Scheduler.EveryRunPlaces | ZephyrOS/zephyr/kernel/sched.c:379-668 | so does every run of calls |
| Scheduler.BootedPlaces | ZephyrOS/zephyr/kernel/sched.c:962-986 | it holds when nothing but the idle thread exists |
| Scheduler.NextUpIsBest | ZephyrOS/zephyr/kernel/sched.c:179-239 | the choice is a ready thread of the highest priority; idle exactly when no other is ready |
| ThreadStates.StepEffect | ZephyrOS/zephyr/kernel/sched.c:379-728 | each call changes the state of the one thread it is about and of no other: what it waits for, its priority and its lock count become what the call says, and it is ready exactly when no other reason to wait is left |
| ThreadStates.SleepsUntilWoken | ZephyrOS/zephyr/kernel/sched.c:1088-1196 | a thread that sleeps is out of the ready queue whatever the others do; its timeout or k_wakeup makes it ready and queued again, once, at its priority |
| ThreadStates.WaitsUntilWoken | ZephyrOS/zephyr/kernel/sched.c:524-642 | a thread that waits stays in its wait queue whatever the others do; being woken, or its timeout if it gave one, takes it out and makes it ready and queued again |
| Preemption.CoopLosesExact | ZephyrOS/zephyr/kernel/sched.c:116-160 | a decision that may not preempt takes the processor from a cooperative thread (by priority or by k_sched_lock) if and only if a meta-IRQ thread is queued, or is on record and can run, and then it is for a meta-IRQ thread |
| Preemption.GivesWay | ZephyrOS/zephyr/kernel/sched.c:179-198 | a decision that may preempt, or finds the running thread preemptible or unable to go on, is for the cooperative thread to return to, and without one for the head of the ready queue, which no queued thread is better than |
| Preemption.StepHolds | ZephyrOS/zephyr/kernel/sched.c:351-410 | a cooperative running thread keeps the processor through every call that is not its own yield, wait, sleep, suspension or exit, a rotation or a priority change, while it stays cooperative and no other meta-IRQ thread can run |
| Preemption.CoopKeepsRunning | ZephyrOS/zephyr/kernel/sched.c:181-185 | so it does through every run of such calls, however good the threads that are created, started, woken or resumed |
| Preemption.RaisedTakesOver | ZephyrOS/zephyr/kernel/sched.c:644-668 | a priority change is on that list because it decides as if asked by the running thread: raising another thread above a cooperative one takes the processor from it |
| Preemption.EveryRunChosen | ZephyrOS/zephyr/kernel/sched.c:337-377 | without meta-IRQ threads, after every run the choice is the head of the ready queue, or the running thread if that is cooperative and can go on |
| Preemption.BestRuns | ZephyrOS/zephyr/kernel/sched.c:116-160 | from boot, through every such run: a running thread that is preemptible or cannot go on gives way to every better ready thread, and the idle thread is chosen only if no other is ready |
| Preemption.YieldGoesBehind | ZephyrOS/zephyr/kernel/sched.c:1061-1080 | a thread that yields, or whose slice ends, goes behind every ready thread of at least its priority |
| Scheduler.WaitOrderExact | ZephyrOS/zephyr/kernel/sched.c:644-668 | a priority change of a pended thread leaves its wait queue in order if and only if the new priority fits between its neighbours |
| Scheduler.UnpendedLists | ZephyrOS/zephyr/kernel/sched.c:570-577 | between z_unpend_thread and z_ready_thread the thread is in no list and all others are where their states say |
| Scheduler.SetPrioExact | ZephyrOS/zephyr/kernel/sched.c:644-668 | z_set_prio leaves every thread in the list its state says if and only if the thread is not ready without being queued, which is that window |
| DLists.InsertRings | ZephyrOS/zephyr/include/sys/dlist.h:440-446 | the four pointer writes of an insertion turn the rings of all lists into the rings with the node at that place in that list |
| DLists.RemoveRings | ZephyrOS/zephyr/include/sys/dlist.h:495-500 | the writes of a removal close that one ring around the node and leave every other ring |
| DLists.Links.Init | ZephyrOS/zephyr/include/sys/dlist.h:192-196 | a new empty list beside the others |
| DLists.Links.IsLinked | ZephyrOS/zephyr/include/sys/dlist.h:222-225 | a node's next pointer is set exactly when it is in some list |
| DLists.Links.InsertBefore | ZephyrOS/zephyr/include/sys/dlist.h:440-446 | the node comes before the given one; every node stays in at most one list, once |
| DLists.Links.RemoveNode | ZephyrOS/zephyr/include/sys/dlist.h:495-500 | the node leaves the list it is in, which the call is not told |
| DLists.Links.Next | ZephyrOS/zephyr/include/sys/dlist.h:338-342 | following a next pointer gives the following element, or the end |
| SchedulerKernel.BundleExact | ZephyrOS/zephyr/include/kernel.h:446-471 | comparing the bundled priority and lock count with 0x80 tells exactly the preemptible threads |
| SchedulerKernel.PreventedExact | ZephyrOS/zephyr/include/kernel_structs.h:42-66 | testing thread_state against the mask tells exactly the threads that cannot run, and with the timeout those that are ready |
| SchedulerKernel.OnlySuspended | ZephyrOS/zephyr/kernel/sched.c:1174-1197 | the comparison of the whole byte in k_wakeup tells the threads suspended and nothing else |
| SchedulerKernel.Kernel.constructor | ZephyrOS/zephyr/kernel/sched.c:962-986 | the booted kernel, with its ready queue as a ring of links, is in placement |
| SchedulerKernel.Kernel.ListAdd | ZephyrOS/zephyr/kernel/sched.c:792-807 | the walk along the links inserts a thread before the first of lower priority |
| SchedulerKernel.Execute | ZephyrOS/zephyr/kernel/sched.c:337-668 | every call on the linked nodes and state bits takes the scheduler through the reference step, choice of the next thread included, to which the theorems of Scheduler, ThreadStates, Preemption and MetaIrqs apply |
| SchedulerKernel.RunAll | ZephyrOS/zephyr/kernel/sched.c:337-668 | so does every run of calls |
| MetaIrqs.UpdateRecords | ZephyrOS/zephyr/kernel/sched.c:337-349 | whenever a meta-IRQ thread is chosen over a cooperative one, that one is on record |
| MetaIrqs.UpdateRemembers | ZephyrOS/zephyr/kernel/sched.c:179-217 | while meta-IRQ threads run the record is kept until the return is decided, and then it is the decision |
| MetaIrqs.UpdateForgets | ZephyrOS/zephyr/kernel/sched.c:337-377 | once the record is cleared another decision before the switch stands by the thread if and only if the ready queue would let it in anyway |
| MetaIrqs.StepExact | ZephyrOS/zephyr/kernel/sched.c:337-377 | a call keeps the owed thread remembered and displaced threads recorded if and only if the running thread does not become cooperative while another is owed, the kinds it leaves fit the record, and it makes no decision after the return was decided, or one the ready queue decides the same way |
| MetaIrqs.PromiseKept | ZephyrOS/zephyr/kernel/sched.c:181-198 | through every run of such calls the next ordinary thread to run after meta-IRQ threads is the cooperative one they displaced, if it still can run |
| MetaIrqs.PassedOver | ZephyrOS/zephyr/kernel/sched.c:179-217 | from every state in which the owed thread is forgotten, with no record of a thread that can run, and does not head the ordinary threads, a run passes it over |
| MetaIrqs.Unrecorded | ZephyrOS/zephyr/kernel/sched.c:179-217 | so it does from every state without such a record while a meta-IRQ thread runs and a thread below the highest ordinary priority is owed |
| MetaIrqs.ForgettingBreaks | ZephyrOS/zephyr/kernel/sched.c:337-377 | every decision that forgets the owed thread, by the condition of MetaIrqs.StepExact, has a continuation that breaks the promise |
| MetaIrqs.CoopRuns | ZephyrOS/zephyr/kernel/sched.c:337-349 | from every state in which a cooperative thread runs while another is owed a run records it in place of the owed one, which is passed over |
| MetaIrqs.UnfitBreaks | ZephyrOS/zephyr/kernel/sched.c:337-377 | so every call that fails the condition of MetaIrqs.StepExact on kinds while a thread is owed has a continuation that breaks the promise |
| MetaIrqs.UnfitFreeBreaks | ZephyrOS/zephyr/kernel/sched.c:340-347 | and so has every such call while nobody is owed, if the running thread can run: it is displaced without being on record, and passed over |
| MetaIrqs.PromiseBroken | ZephyrOS/zephyr/kernel/sched.c:450-477 | a run in which a meta-IRQ thread exits, an interrupt wakes another before the switch, and the displaced thread is passed over |
| MetaIrqs.PreemptingIsValid | ZephyrOS/zephyr/kernel/sched.c:179-217 | the state that run starts from satisfies placement and has the thread on record |
| MetaIrqs.PendStaysExact | ZephyrOS/zephyr/kernel/sched.c:524-548 | a thread that pends goes on running if and only if it is still on record and no meta-IRQ thread is ready |
| MetaIrqs.StaleRecord | ZephyrOS/zephyr/kernel/sched.c:351-361 | a run that leaves such a record behind |
| Poll.StepInv | ZephyrOS/zephyr/kernel/poll.c:191-300 | every step of the caller, signal, drain and timeout keeps the protocol's invariant |
| Poll.EveryRun | ZephyrOS/zephyr/kernel/poll.c:191-300 | so does every interleaving of them |
| Poll.NoLostWakeup | ZephyrOS/zephyr/kernel/poll.c:247-285 | a caller that sleeps has every event registered, recorded none as ready when checked and none as signalled since; PollChecks ties these records to the conditions themselves |
| Poll.SleeperIsWoken | ZephyrOS/zephyr/kernel/poll.c:220-245 | signalling the object of any event wakes a sleeping caller, which returns 0 with an event set ready |
| Poll.SignalledDoesNotSleep | ZephyrOS/zephyr/kernel/poll.c:262-270 | a signal after an event's check and before the decision keeps the caller from sleeping |
| Poll.NothingLeftBehind | ZephyrOS/zephyr/kernel/poll.c:174-183 | on return no event is in a list or points to the poller; 0 only with an event ready, and that only for a condition met or signalled; registered events are a prefix |
| PollChecks.RunHistory | ZephyrOS/zephyr/kernel/poll.c:191-218 | in every run an event is recorded as found ready if and only if the condition of its object held at the moment the caller looked at it, and as signalled if and only if its object was signalled after that |
| PollChecks.RunLooks | ZephyrOS/zephyr/kernel/poll.c:191-218 | each event is looked at once, and found one way or the other |
| PollChecks.ReadyOnlyIf | ZephyrOS/zephyr/kernel/poll.c:203-214 | an event is ready if its condition held when it was looked at, and only then or if its object was signalled later |
| PollChecks.SleepsOnlyIf | ZephyrOS/zephyr/kernel/poll.c:247-297 | a caller sleeps only if it may, has looked at every event, none of the conditions held at that moment and none of the objects was signalled since |
| PollChecks.Answer | ZephyrOS/zephyr/kernel/poll.c:247-300 | in every run the call returns 0 if some condition held when it was looked at or, if it may wait, some object was signalled in time, and -EAGAIN otherwise |
| PollChecks.BoundReturns | ZephyrOS/zephyr/kernel/poll.c:268-297 | from then on it does not sleep, whatever happens, and has returned 0 once the caller has taken its remaining steps, of which there is a bound |
| PollChecks.MetReturns | ZephyrOS/zephyr/kernel/poll.c:203-207 | when the caller looks at an event whose condition holds, the event is ready and the call returns 0 without sleeping |
| PollChecks.SignalReturns | ZephyrOS/zephyr/kernel/poll.c:220-245 | so it does when an object is signalled in time |
| PollChecks.MetUntilDrained | ZephyrOS/zephyr/kernel/poll.c:56-85 | a condition holds from a signal until it is drained, and nothing the caller does changes it |
| PollKernel.PollCall.constructor | ZephyrOS/zephyr/kernel/poll.c:247-257 | a call begins with nothing registered |
| PollKernel.PollCall.RemoveEvent | ZephyrOS/zephyr/kernel/poll.c:168-170 | unlinking through the node alone removes the event from its object's list, if it is in it |
| PollKernel.PollCall.GetEvent | ZephyrOS/zephyr/kernel/poll.c:447-465 | the first event of an object's list is taken off, or none if it is empty |
| PollKernel.PollCall.Execute | ZephyrOS/zephyr/kernel/poll.c:87-300 | every section of the code on linked events takes the call through the reference step, the test of the condition included, to which the theorems of Poll and PollChecks apply |
| PollQueues.AddEvent | ZephyrOS/zephyr/kernel/poll.c:87-109 | with several callers waiting for one object the walk, with its short cut, inserts an event behind all of at least its priority |
| PollQueues.StepKeeps | ZephyrOS/zephyr/kernel/poll.c:87-300 | registrations, signals, other wake-ups and clearings keep the list in the order of priority and registration, and everyone who sleeps in it |
| PollQueues.WakesTheFirst | ZephyrOS/zephyr/kernel/poll.c:401-409 | after every run a signal concerns the event of best priority registered first and no other, and wakes its caller if that sleeps, and nobody else |
| PollQueues.SignalWakesExact | ZephyrOS/zephyr/kernel/poll.c:220-245 | with a sleeper there, a signal wakes one if and only if the first event belongs to a caller that sleeps |
| PollQueues.SignalWasted | ZephyrOS/zephyr/kernel/poll.c:286-297 | a run in which the first caller has timed out and not yet cleared its registration: the signal goes to it and the second caller sleeps on |
| Mutexes.WantedSplit | ZephyrOS/zephyr/kernel/mutex.c:12-15 | what a thread is to have, the best of its own priority and the first waiters' over all its mutexes up to the ceiling, does not depend on the order in which it took them |
| Mutexes.TakenKeeps | ZephyrOS/zephyr/kernel/mutex.c:128-145 | taking a free mutex leaves every thread at the priority it is to have |
| Mutexes.MovedExact | ZephyrOS/zephyr/kernel/mutex.c:105-117 | when one thread changes priority, every thread is at the priority it is to have if and only if that thread is, and whatever it waits for absorbs the change |
| Mutexes.BlockExact | ZephyrOS/zephyr/kernel/mutex.c:153-162 | a new waiter keeps that if and only if the owner's boost is absorbed where the owner itself waits: always for an owner that does not wait, whichever of its mutexes it is |
| Mutexes.AbortWaiterExact | ZephyrOS/zephyr/kernel/sched.c:450-489 | aborting a waiter, which readjusts nobody, keeps it if and only if the owner is to have the same without that waiter |
| Mutexes.ExpiredExact | ZephyrOS/zephyr/kernel/sched.c:581-592 | so does a timeout until the clean-up |
| Mutexes.CleanUpExact | ZephyrOS/zephyr/kernel/mutex.c:178-188 | a clean-up on its own keeps it if and only if it changes nothing |
| Mutexes.TimedOutExact | ZephyrOS/zephyr/kernel/mutex.c:174-197 | a timeout with its clean-up keeps it if and only if what the mutex remembers and its first waiter left make of the owner is what the owner is to have, and that is absorbed |
| Mutexes.ReleaseExact | ZephyrOS/zephyr/kernel/mutex.c:245-271 | a release keeps it, for the releasing thread and the waiter handed the mutex, if and only if the mutex remembers what the thread is to have without it |
| MutexRuns.SparingKeeps | ZephyrOS/zephyr/kernel/sched.c:379-668 | the scheduler's events that change no priority and abort no waiter keep it |
| MutexRuns.GivenExact | ZephyrOS/zephyr/kernel/sched.c:644-668 | a priority given from outside, at creation or by a call, keeps it if and only if a thread that owns mutexes keeps its priority, and what any other thread waits for absorbs the new one |
| MutexRuns.OutsideExact | ZephyrOS/zephyr/kernel/sched.c:379-668 | each scheduler event, creation, abort and priority change included, keeps it if and only if its guard holds |
| MutexRuns.LockExact | ZephyrOS/zephyr/kernel/mutex.c:119-162 | k_mutex_lock keeps it if and only if its guard holds, in every branch |
| MutexRuns.UnlockExact | ZephyrOS/zephyr/kernel/mutex.c:209-278 | k_mutex_unlock likewise |
| MutexRuns.AfterExact | ZephyrOS/zephyr/kernel/mutex.c:94-278 | so does every event |
| MutexRuns.EveryRun | ZephyrOS/zephyr/kernel/mutex.c:12-26 | over every legal run every thread is at the priority it is to have after each event if and only if every event is within its guard |
| MutexAnswers.LockAnswers | ZephyrOS/zephyr/kernel/mutex.c:119-162 | a lock returns 0 if and only if the caller now owns the mutex with one more lock on it, which is when nobody else owned it; busy if and only if another thread does and the caller does not wait, nothing having changed; otherwise the caller waits for it |
| MutexAnswers.UnlockAnswers | ZephyrOS/zephyr/kernel/mutex.c:209-278 | an unlock returns 0 if and only if the caller owned the mutex, -EINVAL if and only if nobody did and -EPERM if and only if another thread did; one lock less, and after the last one the first waiter has it, locked once, or nobody |
| MutexAnswers.AfterLocks | ZephyrOS/zephyr/kernel/mutex.c:119-278 | by every call the locks a thread has on a mutex change exactly as the codes returned to it say, a waiting caller's when an unlock ends its wait |
| MutexAnswers.EveryRunLocks | ZephyrOS/zephyr/kernel/mutex.c:119-278 | so they do through every legal run |
| MutexAnswers.MutualExclusion | ZephyrOS/zephyr/kernel/mutex.c:119-278 | through every legal run from free mutexes: between a lock that returned 0 and the matching unlock no other thread is in the section, no other thread's lock returns 0, and its unlock is refused |
| MutexRuns.AfterBooks | ZephyrOS/zephyr/kernel/mutex.c:119-278 | whatever becomes of priorities, every event keeps threads in the lists their states name, owners and holdings in agreement, and nobody waiting for a mutex it owns |
| MutexRuns.Inherits | ZephyrOS/zephyr/kernel/mutex.c:12-15 | then no thread is below its own priority or below any waiter for any of its mutexes, up to the ceiling, and each has its own priority or that of such a waiter |
| MutexRuns.HandsOver | ZephyrOS/zephyr/kernel/mutex.c:249-266 | the mutex goes to its best waiter, which owns it once, at its own priority; the releasing thread gets back what the mutex remembered |
| MutexRuns.BaseRestored | ZephyrOS/zephyr/kernel/mutex.c:12-26 | through every legal run in which each thread gives up last the mutex it took first, with any boosts, timeouts, aborts and priority changes, a thread without mutexes is at its own priority |
| MutexRuns.ReverseOrder | ZephyrOS/zephyr/kernel/mutex.c:16-17 | releasing in reverse order is a case of that |
| MutexRuns.Stranded | ZephyrOS/zephyr/kernel/mutex.c:245-247 | a thread whose first mutex remembers another priority than its own ends up, by releasing its mutexes, without any and not at its own priority |
| MutexRuns.BaseLost | ZephyrOS/zephyr/kernel/mutex.c:245-247 | and every release outside the condition of MutexRuns.BaseRestored leads there |
| MutexCases.AfterStacked | ZephyrOS/zephyr/kernel/mutex.c:16-25 | while each thread is boosted only through the last mutex it took and releases in reverse order, every mutex remembers what the ones before it make of the thread |
| MutexCases.NestingSuffices | ZephyrOS/zephyr/kernel/mutex.c:16-25 | so through every nested run releases keep every priority right by themselves: it is right all along if and only if the other events are within their guards |
| MutexCases.OneMutexGuards | ZephyrOS/zephyr/kernel/mutex.c:119-278 | with one mutex the guards come down to plain ones: the ceiling condition of a timeout, waiters that go without a clean-up, priorities given from outside |
| MutexCases.OneMutexRun | ZephyrOS/zephyr/kernel/mutex.c:119-278 | so with one mutex no order of calls is demanded |
| MutexCases.CleanedUp | ZephyrOS/zephyr/kernel/mutex.c:178-188 | with one mutex a clean-up puts the owner where it is to be, whatever happened since the timeout, if and only if nobody waits or the owner's own priority is not above the ceiling |
| MutexCases.CleanedUpAgain | ZephyrOS/zephyr/kernel/mutex.c:174-197 | so after any run of calls, timeouts and clean-ups in any order |
| MutexCases.NoOwnerExact | ZephyrOS/zephyr/kernel/mutex.c:188 | an event leaves a mutex without an owner, which a clean-up does not expect, if and only if it releases the mutex with nobody waiting, or finds it so and does not lock it |
| MutexCases.CleanUpTooLate | ZephyrOS/zephyr/kernel/mutex.c:174-188 | a run in which two waiters time out, the owner unlocks, and their clean-ups find no owner |
| MutexCases.CeilingBroken | ZephyrOS/zephyr/kernel/mutex.c:178-188 | an owner of priority -10 under a ceiling of -5 is left at -5 when one of two waiters times out |
| MutexCases.BoostNotPassedOn | ZephyrOS/zephyr/kernel/mutex.c:153-162 | a thread that waits for one mutex and is boosted through another does not pass the boost on: its owner stays at 5 while the first waiter is at 2 |
| MutexCases.GivenUpEarly | ZephyrOS/zephyr/kernel/mutex.c:16-25 | releasing first a mutex nobody waits for, of which the documented nesting says nothing, drops the owner below its best waiter |
| MutexCases.ReverseReleaseDrops | ZephyrOS/zephyr/kernel/mutex.c:16-25 | a run in which a waiter for the first of two mutexes boosts the owner as it should, and releasing the second, in reverse order, takes the boost away while the waiter still waits |
| MutexKernel.MutexSystem.constructor | ZephyrOS/zephyr/kernel/mutex.c:71-85 | a system without mutexes has every priority right |
| MutexKernel.MutexSystem.InitMutex | ZephyrOS/zephyr/kernel/mutex.c:71-85 | a new mutex, with a new wait queue, keeps it right |
| MutexKernel.MutexSystem.LockMutex | ZephyrOS/zephyr/kernel/mutex.c:119-162 | the code on mutex objects and linked threads does what the model does; it returns 0 if and only if the caller then owns the mutex with one more lock; and afterwards every priority is right if and only if the guard held |
| MutexKernel.MutexSystem.WaiterTimedOut | ZephyrOS/zephyr/kernel/sched.c:581-592 | likewise for a waiter's timeout |
| MutexKernel.MutexSystem.CleanUpAfter | ZephyrOS/zephyr/kernel/mutex.c:178-188 | likewise for the clean-up, which takes it that there is an owner |
| MutexKernel.MutexSystem.UnlockMutex | ZephyrOS/zephyr/kernel/mutex.c:209-278 | likewise for unlocking, with its two errors and the hand-over; it returns 0 if and only if the caller owned the mutex |
| Mailboxes.PutKeeps | ZephyrOS/zephyr/kernel/mailbox.c:235-334 | synchronous and asynchronous sends keep the invariant |
| Mailboxes.GetKeeps | ZephyrOS/zephyr/kernel/mailbox.c:418-464 | so does a receive |
| Mailboxes.DisposeKeeps | ZephyrOS/zephyr/kernel/mailbox.c:174-219 | so does disposing, which returns the descriptor of an asynchronous message |
| Mailboxes.StepKeeps | ZephyrOS/zephyr/kernel/mailbox.c:120-464 | so does every call and timeout |
| Mailboxes.EveryRun | ZephyrOS/zephyr/kernel/mailbox.c:120-464 | and every run |
| Mailboxes.MatchingIsComplete | ZephyrOS/zephyr/kernel/mailbox.c:235-335 | no waiting sender is ever compatible with a waiting receiver, and free and carrying descriptors always make up the pool |
| Mailboxes.DisposedOnce | ZephyrOS/zephyr/kernel/mailbox.c:174-183 | through every run a message once disposed of stays so, with the same bytes, and is never held again |
| MailboxRuns.StepHonest | ZephyrOS/zephyr/kernel/mailbox.c:120-464 | every call and timeout keeps the history true |
| MailboxRuns.DeliversWhatWasSent | ZephyrOS/zephyr/kernel/mailbox.c:120-162 | through every run every message received was sent, to a receiver both sides accept; what the receiver took is nothing if it discarded it, and otherwise the first bytes sent, exactly as many as it had room for |
| MailboxRuns.CompatibleExact | ZephyrOS/zephyr/kernel/mailbox.c:120-135 | message and request suit each other if and only if the receiver is the one the message names, if it names one, and the sender the one the request names |
| MailboxRuns.GetAnswers | ZephyrOS/zephyr/kernel/mailbox.c:418-464 | a receive that a waiting message suits takes the first such message; if it wants the data now, or there is none for it, it has its share of the bytes and the message is disposed of, else it holds the letter; if none suits, it fails without a trace or waits |
| MailboxRuns.PutAnswers | ZephyrOS/zephyr/kernel/mailbox.c:235-313 | a send gives its message to the first waiting request it suits, which waits no longer; if none suits, the message is gone if the sender may not wait, and otherwise waits |
| MailboxRuns.AsyncPutAnswers | ZephyrOS/zephyr/kernel/mailbox.c:316-334 | an asynchronous send does so and never fails, with the descriptor freed last |
| MailboxRuns.StepFair | ZephyrOS/zephyr/kernel/mailbox.c:235-464 | every call and timeout keeps both queues in the order of priority and call |
| MailboxRuns.BestServedFirst | ZephyrOS/zephyr/kernel/mailbox.c:250-286 | after every run a receive takes, of the waiting messages compatible with it, one of the best priority and of these the first sent; a send meets its request by the same rule |
| MailboxKernel.MessageMatch | ZephyrOS/zephyr/kernel/mailbox.c:120-162 | succeeds exactly for compatible descriptors, and then the rewritten fields of both make up the letter: identities, infos exchanged, size settled, data handed over |
| MailboxKernel.FindReceiver | ZephyrOS/zephyr/kernel/mailbox.c:250-286 | the walk stops at the first waiting receiver that matches, and only there changes descriptors |
| MailboxKernel.FindSender | ZephyrOS/zephyr/kernel/mailbox.c:429-444 | likewise for the walk over the senders |
| MailboxKernel.RoomToPush | ZephyrOS/zephyr/kernel/mailbox.c:39-43 | while a descriptor is in use the stack has room for its return |
| MailboxKernel.KMbox.constructor | ZephyrOS/zephyr/kernel/mailbox.c:57-106 | a new mailbox, with all descriptors pushed |
| MailboxKernel.KMbox.DataGet | ZephyrOS/zephyr/kernel/mailbox.c:337-351 | the receiver gets the bytes settled at the match and the sender's size becomes their number; a descriptor whose _syncing_thread is null does nothing more |
| MailboxKernel.KMbox.Execute | ZephyrOS/zephyr/kernel/mailbox.c:120-464 | every call and timeout, on descriptors rewritten in place and the descriptor stack, has the effect the run theorems are about and keeps their invariant |
| MsgQueues.StepInv | ZephyrOS/zephyr/kernel/msg_q.c:116-303 | every put, get, purge and timeout keeps: messages leave in the order they entered, and all waiters have one role |
| MsgQueues.EveryRun | ZephyrOS/zephyr/kernel/msg_q.c:116-303 | so does every run |
| MsgQueues.PutAnswers | ZephyrOS/zephyr/kernel/msg_q.c:116-160 | a put is done exactly when there is room: its message comes in last, and the first waiting receiver, if any, is made ready with it; without room it fails, changing nothing, or waits with its message |
| MsgQueues.GetAnswers | ZephyrOS/zephyr/kernel/msg_q.c:191-241 | a get is done exactly when a message is queued and returns the one that has been in longest; the first waiting sender, if any, is made ready and its message comes in last |
| MsgQueues.ReceivedInOrder | ZephyrOS/zephyr/kernel/msg_q.c:116-303 | by what the calls report, in every run the messages received or purged are, in order, the messages accepted, but for those still queued |
| MsgQueues.BestWaiterFirst | ZephyrOS/zephyr/kernel/msg_q.c:128-210 | after every run the waiter made ready, the first, has the best priority |
| MsgQueues.OneRoleExact | ZephyrOS/zephyr/kernel/msg_q.c:116-241 | through every run receivers wait only before an empty queue and senders only before a full one, if and only if the queue can hold a message |
| MsgQueues.BothWait | ZephyrOS/zephyr/kernel/msg_q.c:116-241 | with capacity 0 a sender and a receiver wait side by side |
| MsgQueueKernel.MessageRing.Write | ZephyrOS/zephyr/kernel/msg_q.c:139-145 | appends a message and keeps write = read + used * size around the ring |
| MsgQueueKernel.MessageRing.Read | ZephyrOS/zephyr/kernel/msg_q.c:203-208 | takes the oldest message off and keeps it too |
| MsgQueueKernel.MessageRing.Clear | ZephyrOS/zephyr/kernel/msg_q.c:299-300 | purging empties the ring |
| MsgQueueKernel.KMsgQ.constructor | ZephyrOS/zephyr/kernel/msg_q.c:49-66 | a new queue |
| MsgQueueKernel.KMsgQ.PutMsg | ZephyrOS/zephyr/kernel/msg_q.c:116-160 | the code does what MsgQueues.Put says, hand-off included |
| MsgQueueKernel.KMsgQ.GetMsg | ZephyrOS/zephyr/kernel/msg_q.c:191-241 | the code does what MsgQueues.Get says, refill included |
| MsgQueueKernel.KMsgQ.PeekMsg | ZephyrOS/zephyr/kernel/msg_q.c:254-273 | the oldest message, if there is one |
| MsgQueueKernel.KMsgQ.PurgeMsgs | ZephyrOS/zephyr/kernel/msg_q.c:286-303 | drops the messages and fails every waiter, in order |
| Slabs.StepPartition | ZephyrOS/zephyr/kernel/mem_slab.c:104-148 | every call keeps: each block free once or used, nobody waiting while one is free |
| Slabs.EveryRun | ZephyrOS/zephyr/kernel/mem_slab.c:104-148 | so does every run in which only used blocks are freed |
| Slabs.AllocAnswers | ZephyrOS/zephyr/kernel/mem_slab.c:104-131 | an allocation gets a block exactly when not all are used: one of the slab's that nobody had and that alone is now used; otherwise it fails, changing nothing, or waits |
| Slabs.FreeAnswers | ZephyrOS/zephyr/kernel/mem_slab.c:133-148 | a free makes the first waiter ready with the block, which stays used; with nobody waiting that block alone is unused again, and is the next to be given out |
| Slabs.NoBlockTwice | ZephyrOS/zephyr/kernel/mem_slab.c:104-148 | through every legal run the blocks that threads have, by what the calls report, are the used ones, so that no allocation returns a block another thread has |
| Slabs.Sizes | ZephyrOS/zephyr/kernel/mem_slab.c:104-148 | free and used blocks add up to the slab |
| Slabs.ZeroSizedBlocks | ZephyrOS/zephyr/kernel/mem_slab.c:46-50 | with block size 0 no more than one block can be chained |
| Slabs.RoomForLink | ZephyrOS/zephyr/kernel/mem_slab.c:37-41 | a block size that passes the alignment check gives every block room for its link, at an aligned address |
| Slabs.WriteKeepsChain | ZephyrOS/zephyr/kernel/mem_slab.c:46-50 | with such a size, whatever is written within one block leaves the chain through the others |
| Slabs.OneByteBlocks | ZephyrOS/zephyr/kernel/mem_slab.c:37-41 | without it a write to one block breaks the chain through another |
| Slabs.KMemSlab.constructor | ZephyrOS/zephyr/kernel/mem_slab.c:32-52 | the loop chains every block once, through links of four bytes stored in the blocks |
| Slabs.KMemSlab.AllocBlock | ZephyrOS/zephyr/kernel/mem_slab.c:104-131 | takes the head of the chain, or fails, or waits; num_used is the number of used blocks |
| Slabs.KMemSlab.FreeBlock | ZephyrOS/zephyr/kernel/mem_slab.c:133-148 | gives the block to the first waiter, or puts it back at the head of the chain, and writes to no other block |
| Slabs.KMemSlab.UserWrite | ZephyrOS/zephyr/kernel/mem_slab.c:37-46 | whatever the owner of a block writes into any of its bytes, the chain of free blocks is intact |
| Slabs.InitSlab | ZephyrOS/zephyr/kernel/mem_slab.c:82-102 | -EINVAL exactly when buffer or block size is not word-aligned |
| Adc.ValidateBufferSize | ZephyrOS/zephyr/drivers/adc/adc_mchp_xec.c:122-145 | true exactly when two bytes per selected channel and sampling fit |
| Adc.GetSample | ZephyrOS/zephyr/drivers/adc/adc_mchp_xec.c:221-250 | stores the readings of the reported channels, lowest first, and touches nothing else |
| Adc.StepInv | ZephyrOS/zephyr/drivers/adc/adc_context.h:76-264 | every timer expiry, completion and callback decision keeps the protocol's invariant |
| Adc.EveryRun | ZephyrOS/zephyr/drivers/adc/adc_context.h:76-264 | so does every interleaving of them |
| Adc.ReadIsSafe | ZephyrOS/zephyr/drivers/adc/adc_context.h:182-264 | a read that passed the buffer check never writes beyond the buffer and never has two samplings at once; in interval mode the counter is positive exactly while one is in progress or handled |
| AdcRuns.ReadTakesItsSamplings | ZephyrOS/zephyr/drivers/adc/adc_context.h:182-264 | through every run the buffer holds the samplings taken but for those repeated, one behind the other; the read ends exactly when the last one asked for is kept or the callback finishes it; it reports busy exactly if the timer expired while a sampling was in progress or being handled; every other expiry is a sampling |
| AdcRuns.NeverStuck | ZephyrOS/zephyr/drivers/adc/adc_context.h:208-264 | until the read is done the hardware samples, the handler is at work or the timer runs |
| AdcKernel.AdcContext.constructor | ZephyrOS/zephyr/drivers/adc/adc_context.h:182-201 | a read whose buffer passed the check begins with nothing stored |
| AdcKernel.AdcContext.StoreReadings | ZephyrOS/zephyr/drivers/adc/adc_mchp_xec.c:221-250 | the readings go behind what stands, within the buffer, and touch nothing else |
| AdcKernel.AdcContext.Execute | ZephyrOS/zephyr/drivers/adc/adc_context.h:76-264 | a timer expiry, the end of a sampling or a part of the handler, on the real buffer: no reading goes outside it, what it holds up to the buffer pointer is the samplings that stand, a repeated one replaced, and the protocol's invariant is kept |
| AdcKernel.AdcContext.ReadComplete | ZephyrOS/zephyr/drivers/adc/adc_context.h:211-264 | when the read is done every sampling up to the last is in the buffer at its own place |
| Idt.BlamedRulesOut | ZephyrOS/zephyr/arch/x86/gen_idt.py:118-175 | what each error message says of the entries rules out a table |
| Idt.Pass1 | ZephyrOS/zephyr/arch/x86/gen_idt.py:140-157 | puts every hard-coded entry where it asks, or fails with a message that is true of the entries |
| Idt.FindFree | ZephyrOS/zephyr/arch/x86/gen_idt.py:164-169 | the first free vector of a priority's group of 16, or none if there is none |
| Idt.Pass2 | ZephyrOS/zephyr/arch/x86/gen_idt.py:159-175 | puts every other entry into its group, or fails with a message that is true: no free vector only for a level with more requests than vectors |
| Idt.Pass2Full | ZephyrOS/zephyr/arch/x86/gen_idt.py:171-172 | no free vector means that the level has more requests than vectors |
| Idt.Pass3 | ZephyrOS/zephyr/arch/x86/gen_idt.py:177-187 | fills every other vector with the spurious handler that fits it |
| Idt.SetupIdt | ZephyrOS/zephyr/arch/x86/gen_idt.py:136-187 | succeeds if and only if a table is possible; then every entry has its own vector, its line points there, and the rest is spurious; otherwise the message is true of the entries |
| Idt.VectorsAllocated | ZephyrOS/zephyr/arch/x86/gen_idt.py:271-288 | bit i is set exactly when vector i has a spurious handler |
| Idt.FreeBitsExact | ZephyrOS/zephyr/arch/x86/gen_idt.py:271-288 | the field marks exactly the unassigned vectors if and only if no entry installs a spurious handler itself |
| Idt.GateRoundTrip | ZephyrOS/zephyr/arch/x86/gen_idt.py:61-74 | the processor reads back from a gate the handler, the kernel code segment, the interrupt-gate type, the privilege level and the present bit |
| Syscalls.WrapperArgs | ZephyrOS/zephyr/scripts/gen_syscalls.py:154-169 | the wrapper's expressions for an argument are where its words belong |
| Syscalls.MarshallParms | ZephyrOS/zephyr/scripts/gen_syscalls.py:230-248 | the handler looks for an argument's words at those places |
| Syscalls.SpillRoundTrip | ZephyrOS/zephyr/scripts/gen_syscalls.py:184-189 | the spill past six words is undone by the way the handler names words |
| Syscalls.CheckCovers | ZephyrOS/zephyr/scripts/gen_syscalls.py:263-265 | the range behind the sixth register that the handler checks covers the words it reads if and only if there are none; otherwise it leaves out exactly the last one |
| Syscalls.RoundTrip | ZephyrOS/zephyr/scripts/gen_syscalls.py:224-291 | the handler gets exactly the values passed, and the address for a 64-bit result, for every mix of types |
| Syscalls.Call | ZephyrOS/zephyr/scripts/gen_syscalls.py:154-291 | a call from end to end: arguments arrive and the result returns as they were |

## Left out

- BlueSWAT's firewall, its eBPF interpreter, verifier and policy cache.
- SMP, non-atomic swap, deadline scheduling, CPU masks, the context switch itself and architecture code.
- Time slicing beyond the driver's next wake-up and moving the current thread to the end of its priority; tick arithmetic near the limits of 32-bit signed integers; conversion from milliseconds to ticks.
- Asynchronous pipe blocks, k_malloc and memory pools; pipe calls made by an interrupt handler while another call copies.
- The permission and memory checks of user mode, and every z_vrfy wrapper.
- Semaphores, stacks, futexes, work queues, queues and FIFOs: their waiter invariants would only be easier variants of those here.
- k_timer_status_sync and its waiters; user data of timers.
- Triggered work items. The whole k_poll protocol is modelled for one caller; PollQueues has several for the list of one object.
- The red-black tree itself: RunQueues has its nodes in key order, as z_priq_rb_lessthan orders them.
- What the mutex clean-up does when it finds no owner: the code dereferences a null pointer, and the runs end there. The scheduler lock held during k_mutex_unlock, which affects only when the switch comes.
- Waiting for an asynchronous mailbox descriptor when none is free, memory pool blocks in messages, and the semaphore given after an asynchronous message; a receive and the disposal that follows it at once are one step.
- Channel setup, registers and interrupt wiring of the ADC driver; its asynchronous interface. Adc.GetSample takes the hardware to report only existing channels, AdcKernel and Adc.ReadIsSafe to report those requested.
- Negative vectors, lines and priorities other than -1 in Idt, and interrupt lines hard-coded to vector 0, which the generator takes for unassigned.
- Parsing of prototypes, and the text the system call generator emits: Syscalls models the expressions and what they evaluate to.
- Message descriptors in MailboxKernel and threads in SchedulerKernel are records reached through maps, not heap objects of their own; links, lists and buffers are updated in place.
- MetaIrqs.PromiseKept: holds for runs within MetaIrqs.StepExact's condition, because every call outside it can be followed by a broken promise, as the three members below show.
- MetaIrqs.ForgettingBreaks: gives the breaking continuation for a thread below the highest ordinary priority and an idle thread that is not a meta-IRQ one, because a thread of the highest ordinary priority may head the ready queue with nothing to overtake it.
- MetaIrqs.UnfitBreaks: likewise, and for a running thread other than the idle one, which cannot exit.
- MetaIrqs.UnfitFreeBreaks: likewise, and for a running thread that can run, because one that cannot is owed nothing when it is displaced, and with the idle thread not on record.
- SchedulerKernel.Execute: takes priorities within a signed byte, lock counts below 255 and initialised wait queues, as the fields hold no more.
- RunQueues.Drive: holds for runs in which the tree overtakes nothing, because the tree picks another thread otherwise, and for fewer than 2^32 threads at a time.
- Slabs.EveryRun: takes only allocated blocks to be freed, as the code does not check it, and block sizes above 0.
- Preemption.BestRuns: is about builds without meta-IRQ priorities, because with them a cooperative thread to return to goes first (Preemption.GivesWay covers every state), and takes the running thread's priority not to be changed between its sleep and its switch, because k_sleep switches with interrupts locked.
- ThreadStates.SleepsUntilWoken: leaves out the ticks left that k_sleep returns.
