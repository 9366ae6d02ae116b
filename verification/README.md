# libstpool, a verified model

libstpool is a C thread pool.  This project models its group scheduler, its thread manager, the
waiting protocol, the destruction protocol and its two allocator-like structures, and proves what
they are for.  Every critical section of the source (code under `core->mut`) is one step.

## How it is built

* Values and functions first.  `ThreadModel` and `GroupModel` hold the state of the thread manager
  and of the group pool, and one function per critical section with the source's branches in the
  source's order.  `PriorityOrder`, `PriorityQueue` and `ActivePrefix` do the same for the priority
  queues and the active table.
* Laws as lemmas about those functions: `ThreadCounts`, `ThreadSupply`, `ThreadStatus`,
  `ThreadBounds`, `ThreadAttendance`, `ThreadJobs` (thread counters, reuse, marking, bounds, who is
  left to attend, what is left alone);
  `GroupShape`, `GroupExact`, `GroupPlaces` (shape, effective numbers, conservation); `Scheduler`
  (best task, termination, draining, limits); `PoolSound`, `NoStranded` (both halves together).
* Effects: `ThreadEffects` and `GroupEffects` say what each operation does for its caller, beside what it
  keeps.
* Runs: `PoolRuns` defines the steps, when each is enabled, the books, the invariant and the guards;
  `PoolTheorems` and `PoolOrder` prove the theorems over all runs; `PoolLoop` follows a thread through
  its loop more finely, and needs less; `PoolPromises` proves over runs what users are promised;
  `Witnesses` has concrete runs from a new pool to each state in which a guard fails.
* The objects as the source changes them: classes with loops and field updates, proved equal to the
  functions: `PriorityContainer`, `ActiveTable`, `ThreadPool`, `GroupPool`.
* `Destruction`, `Waiters`, `ObjectPool`, `SmCache` and `DispatchLinks` are independent of the rest, each with its
  model, its laws and its object.

The main result is one sentence: from a state with the invariant, a step keeps the invariant if and
only if its guard holds and it is safe (`PoolTheorems.StepExactly`).  It has two halves, each an
if-and-only-if of its own.  The books (shape, places, thread counters, bounds) do not depend on the
effective numbers, and only these steps can leave them wrong (`PoolTheorems.StepBooks`):

| guarded step | the code leaves the books wrong when | a run that gets there |
|---|---|---|
| create a group suspended | its slot still lies in the active prefix | `Witnesses.CreateBreaks` |
| a thread goes to RUN, or leaves WAIT | it is marked dying, and the service check made before its status is written takes it back | `Witnesses.TakeBreaks` |
| collect garbage | the maximum is 0 and the cache can be flushed | `Witnesses.CollectBreaks` |

The effective numbers, which count what could start, are left inexact by (`PoolTheorems.StepNumbers`):

| unsafe step | the code leaves the numbers inexact when | a run that gets there |
|---|---|---|
| resume one group, or all | one has no benefits, tasks both pending and running, and together they exceed its limit | `Witnesses.ResumeBreaks` |
| set attributes, change maxthreads | a group without benefits is in that situation | `Witnesses.AttrBreaks` |
| set attributes, or a maximum of 0 | a group gains benefits with effective tasks left | `Witnesses.GainedBenefitsHideATask` |

Where only the first two of these happen the numbers still cover what could start, and that is enough
for the theorem that no work is stranded.

The code is modelled as written, in a release build (assertions are comments).  Where it departs from
its own comments and assertions the departure is kept, shown on a concrete input or family, and its
exact condition proved: insertion that compares with the first task instead of the last
(`PriorityOrder`; the field `tailFirst` of a pool selects the intended form, so that both are judged),
the unsigned binary search (`ObjectPool.SearchWritten`), the flushed list that is
dropped (`SmCache.AddLimitWritten`), and the rows above.  In three places the intended form is
modelled instead of the written one:

* `pool/com/cpool_com_internal.h:83`: the dispatch queue is spliced without being re-initialised; the
  model moves all tasks and leaves it empty.  `DispatchLinks` shows on the links that the written form
  corrupts both lists for every queue, and that re-initialising the head gives what the model uses.
* `pool/core/objpool.c:97-104`: `ObjPool.GetNew` uses the search with signed bounds.
* `pool/gp/cpool_gp_wait.c:456`: a waiter starts with the task it was given, and with none when it was
  given a callback.

## Model

| member | source | states |
|---|---|---|
| PoolTheorems.StepExactly | pool/gp/cpool_gp_entry.h:22-212 | Main theorem: over every critical section (queue, remove, mark, handler done; suspend, resume, set attributes, create, delete, give back a group; grow, pause, resume, adjust, flush, collect, suspend all, resume all, mark over the pool; take, done, join, wait, wake, time out, quit, leave), a step from a state with the invariant keeps it if and only if its guard holds and it is safe. The invariant is the shape of the groups, exact effective numbers, one place per task, right thread counters and bounds. |
| PoolTheorems.StepBooks | pool/gp/cpool_gp_core_method.c:186-335 | The books alone (shape, one place per task, empty free slots, thread counters, bounds), exact or inexact effective numbers: each of the same steps keeps them if and only if its guard holds. Guarded are a group created suspended, a take, a wake-up and a time-out of a dying thread, and a collection with a maximum of no threads; nothing is asked of resuming, of attributes or of bounds. |
| PoolTheorems.StepNumbers | pool/gp/cpool_gp_entry.h:22-97 | The effective numbers alone: each step keeps them exact if and only if it is safe; and so in the weaker form, that they cover what could start, which every resume, and every change of attributes that gives no benefits, keeps. |
| PoolTheorems.RunKeepsBooks | pool/gp/cpool_gp_core_method.c:186-335 | Over every run that keeps to those few guards, whatever is resumed and whatever attributes and bounds become, the books stay right. |
| PoolTheorems.RunKeepsNumbers | pool/gp/cpool_gp_internal.h:34-53 | Over every run of safe steps the effective numbers stay exact, or covering. |
| PoolTheorems.RunKeepsInv | pool/gp/cpool_gp_core_method.c:186-335 | Every run, in any interleaving of users and threads, whose steps are guarded and safe where they are taken ends with the invariant. |
| PoolTheorems.NewPoolInv | pool/core/cpool_core.c:22-185 | The state after construction, with one group and minthreads threads, has the invariant for all arguments. |
| PoolTheorems.BooksConsequences | pool/core/cpool_core.c:1189-1208 | Whenever the books are right: the two balance equations of VERIFY, the bounds, running == sum of the groups' running + threads holding a batch, the sums of pending and of dispatching tasks, and nactives_ok as a cardinality. |
| PoolTheorems.InvConsequences | pool/gp/cpool_gp_internal.h:86-187 | With the invariant: core->npendings is the sum, and not negative, of all pending tasks of the groups with benefits and of those that have a slot elsewhere; a take never spins. |
| PoolTheorems.RunNeverStrands | pool/core/cpool_core.c:834-888 | No stranded work: from any state with right books and covering numbers in which work is attended, in every run whose flushes and bounds take no thread out of service (a maximum of at least 1 and not below the threads in service), without marked takers, by-pool marking of one task while nobody attends, a suspended creation inside the prefix, or benefits given to a group that still counts effective tasks: removed tasks in the queue or a group that could start a task in a running pool imply that a thread is free, woken or running. Raising and lowering bounds and resuming, of one group or all, are free; the guards of the thread steps hold by themselves. |
| PoolLoop.LoopNeverStrands | pool/core/cpool_core.c:746-831 | The same over the loops of the threads, in which a thread looks for work when it joins and afterwards only if its run flag was set: nothing is asked of takers any more, because threads that time out or quit do not look again. |
| PoolLoop.TakersServe | pool/core/cpool_core.c:746-831 | Whoever takes a task in such a run is in service, not marked. |
| PoolLoop.StaysServing | pool/core/cpool_core.c:746-831 | Every step leaves the threads that are on their way to look for work awake and unmarked. |
| PoolLoop.NewMachine | pool/core/cpool_core.c:22-185 | A new pool, for all arguments, is a state from which that theorem speaks. |
| NoStranded.AdjustManned | pool/core/cpool_core.c:430-472 | Storing bounds that mark nobody leaves work attended, whatever the new limits make startable: threads are added, or every sleeper is woken, or what waits was held back by running tasks. |
| PoolRuns.AdjustCovers | pool/gp/cpool_gp_entry.h:63-97 | New bounds with a maximum of at least 1 give benefits to no group that had none, so the numbers go on covering. |
| PoolTheorems.MarkPoolManned | pool/gp/cpool_gp_entry.c:202-220 | Marking over the whole pool ensures service at its end, so it leaves work attended even where nobody attended before. |
| PoolTheorems.CanStartIsCounted | pool/gp/cpool_gp_internal.h:171-187 | A task that could start is counted in core->npendings, even where the numbers only cover. |
| PoolTheorems.ThreadGuardsHold | pool/core/cpool_core_thread_status.h:137-139 | In such runs no thread can be called back under its old status. |
| PoolTheorems.RunWithinLimits | pool/gp/cpool_gp_internal.h:99-101 | With fixed attributes and bounds no group without benefits ever runs more tasks than its limit, over every run that keeps to the guards of the books, whatever is resumed and whether the numbers are exact or not. |
| PoolPromises.RunWithinAsked | pool/gp/cpool_gp_entry.h:22-62 | A user who asks that at most so many tasks of a group run at a time is obeyed: over every guarded run in which nobody asks for something else, the group runs no more than that, nor than the maximum of threads, unless it already ran more when asked. |
| PoolPromises.StepLimitsStored | pool/gp/cpool_gp_entry.h:22-97 | Whatever the step, the limit of every group in use is min(maxthreads, max(0, what was asked)), and a group with limit 0 receives benefits. |
| PoolPromises.RunLimitsStored | pool/gp/cpool_gp_entry.h:22-97 | So it is over every guarded run. |
| PoolPromises.NewLimitsStored | pool/gp/cpool_gp_advance_method.c:142-177 | And in a new pool. |
| PoolPromises.AcceptedIsNotLost | pool/gp/cpool_gp_method.c:95-173 | A task that queueing accepts, new or running at the time, is not lost: at the end of every guarded run in which no thread has taken it and nobody has asked that it shall not run, it is in the queue of some group or marked to be queued again. |
| PoolPromises.StepKeepsExpected | pool/gp/cpool_gp_method.c:95-173 | Each step keeps it so, but for those that settle the task: its take, its removal or marking, or its detaching. |
| PoolPromises.SuspendPoolStops | pool/core/cpool_core.c:1111-1125 | Suspending the pool sets the flag and changes nothing else; then a thread that finds no removed task takes nothing. |
| PoolPromises.SuspendedPoolRuns | pool/gp/cpool_gp_core_method.c:217-222 | Over every guarded run without resuming the pool, it stays suspended and no group runs more tasks than before. |
| PoolPromises.ResumePoolTakes | pool/core/cpool_core.c:1127-1147 | After resuming, from a state with the invariant and no removed task queued, a take succeeds if and only if some group can start a task. |
| PoolPromises.SuspendedGroupRuns | pool/gp/cpool_gp_advance_method.c:356-423 | Over every guarded run in which a suspended group is not resumed, nor its slot given to another, it stays suspended and none of its tasks is started. |
| PoolPromises.MarkPoolWithdraws | pool/gp/cpool_gp_entry.c:134-220 | After a marking over the pool, at the end of any guarded run, none of the tasks it removes waits or will be queued again. |
| PoolPromises.RunWaitsOnce | pool/gp/cpool_gp_method.c:121-126 | Over every guarded run a waiting task is not marked to be queued again as well. |
| PoolPromises.HandlerIsDone | pool/gp/cpool_gp_internal.c:56-89 | After the handler of a removed task the task is no longer being removed, and one dispatch less is under way; so whoever waits for it may go on. |
| PoolPromises.MarkOneWithdraws | pool/gp/cpool_gp_method.c:175-221 | Marking or removing one waiting task leaves it neither waiting nor to be queued again. |
| PoolPromises.AllGroupsPaused | pool/gp/cpool_gp_advance_method.c:439-483 | After suspending all groups each group in use is paused. |
| PoolPromises.NoGroupPaused | pool/gp/cpool_gp_advance_method.c:569-601 | After resuming all groups none in use is. |
| PoolPromises.CreatedAccepts | pool/gp/cpool_gp_advance_method.c:142-282 | A group just created, in a slot not being destroyed, accepts tasks. |
| PoolPromises.TakeStartsOne | pool/gp/cpool_gp_internal.h:86-189 | A take starts at most one task, of a group that is not paused and has a slot or receives benefits, in a pool that is not; attributes, pausing and bounds are as they were. |
| PoolPromises.ActorStatus | pool/core/cpool_core_thread_status.h:20-36 | The status of a thread after each of its steps is the one of the diagram; after a handler it runs on while its batch lasts. |
| PoolTheorems.SuspendAllStops | pool/gp/cpool_gp_advance_method.c:439-483 | After suspend-all nothing is pending if and only if no group that is being destroyed still has unpaused pending tasks. |
| PoolTheorems.ResumeAllExactly | pool/gp/cpool_gp_advance_method.c:569-601 | Resume-all, with the service call that closes it, keeps the invariant if and only if every paused group in use receives benefits or has room for all its tasks. |
| PoolRuns.ResumeAllEntry | pool/gp/cpool_gp_advance_method.c:569-594 | After the loop of resume-all each group is as if it alone had been resumed. |
| PoolOrder.TakesTheFirst | pool/gp/cpool_gp_core_method.c:221-230 | The scheduler refines its specification: at the end of every guarded run of safe insertions, with exact numbers or not, a thread takes the first task, in the intended order, of all pending tasks of the groups with a free slot or, if there are none, of those with benefits, if and only if there is such a task. |
| PoolOrder.IntendedTakesTheFirst | pool/com/cpool_com_priq.h:46-60 | With insertion that compares first with the last task, as its comment says, every guarded run refines the specification: no condition on the priorities is left but that the PUSH flag comes with the lowest one, as `stpool.c:260-262` sets it. |
| PoolOrder.ChoosesTheFirst | pool/gp/cpool_gp_internal.h:86-128 | In any state with right shape and places and sorted queues, when some group could start a task, the chosen top is the first, in the intended order, of all pending tasks that could start in that round. |
| PoolOrder.StepSorted | pool/gp/cpool_gp_internal.h:19-31 | A step keeps all queues sorted if and only if what it queues is safe within its band. |
| Scheduler.ReplacesIsPrecedes | pool/gp/cpool_gp_internal.h:116-125 | For different sequence numbers the pairwise rule of the scan is the intended total order. |
| Scheduler.ScanIsBest | pool/gp/cpool_gp_internal.h:87-128 | Scanning only the cached tops of the lazy active prefix finds a group exactly when some unpaused group with pending tasks can start, and then the one whose top precedes all others. |
| Scheduler.ChooseIsBest | pool/gp/cpool_gp_internal.h:86-187 | The two rounds: the best group with a free slot, else the best that receives benefits; nothing exactly when none can start. |
| Scheduler.TakenIsBestOfAll | pool/gp/cpool_gp_internal.h:86-128 | With sorted queues the chosen top precedes every other pending task of every group that can start. |
| Scheduler.DeliverSorted | pool/com/cpool_com_priq.h:41-75 | Queueing keeps every queue sorted if and only if the insertion is safe within its band. |
| Scheduler.SpinsExactly | pool/gp/cpool_gp_internal.h:183-187 | The scan repeats for ever, with the lock held, exactly when core->npendings is not 0 and no group can start. |
| Scheduler.TakeTerminates | pool/gp/cpool_gp_internal.h:86-187 | With exact effective numbers a take never spins, and finds work exactly when there is some. |
| Scheduler.ResumeMakesTakeSpin | pool/gp/cpool_gp_advance_method.c:524-536 | Suspending and resuming a group at its limit, with nothing else startable, makes the next take spin. |
| Scheduler.NoneStartable | pool/gp/cpool_gp_internal.h:171-181 | core->npendings is 0 if and only if every group is paused, empty, or without benefits at its limit. |
| Scheduler.DrainExactly | pool/gp/cpool_gp_internal.h:130-189 | Draining: n successive takes with no completion in between all find a task if and only if n <= core->npendings; the numbers stay exact and the running counts grow by n. |
| Scheduler.GetTaskWithinLimits | pool/gp/cpool_gp_core_method.c:186-245 | Taking never lets a group without benefits exceed its limit. |
| GroupExact.DeliverExact | pool/gp/cpool_gp_internal.h:34-53 | Queueing keeps npendings_eff == min(npendings, max(0, limit - nrunnings)) (0 if paused or with benefits) for every group and core->npendings as their sum. |
| GroupExact.GetTaskExact | pool/gp/cpool_gp_internal.h:150-181 | Taking a task or a batch keeps the effective numbers: one startable task fewer, one running more. |
| GroupExact.FinishExact | pool/gp/cpool_gp_core_method.c:276-333 | Completing, rescheduling and detaching keep the effective numbers: a slot given up makes at most one more task startable. |
| GroupExact.RemoveTaskExact | pool/gp/cpool_gp_internal.h:234-259 | Removing a waiting task keeps the effective numbers: one fewer is startable only if all of them were. |
| GroupExact.DispatchedExact | pool/gp/cpool_gp_internal.c:56-89 | The end of a remover's handler keeps the effective numbers. |
| GroupExact.SuspendExact | pool/gp/cpool_gp_advance_method.c:375-407 | Suspending keeps the effective numbers: none of the group is startable. |
| GroupExact.ResumeExact | pool/gp/cpool_gp_advance_method.c:513-550 | Resuming keeps the effective numbers if and only if the group receives benefits, or one of its pending and running tasks is absent, or both together fit its limit. |
| GroupExact.SuspendResume | pool/gp/cpool_gp_advance_method.c:387-536 | Suspending and then resuming restores gpool->npendings always, and the group and core->npendings under exactly that condition. |
| GroupExact.SetAttrExact | pool/gp/cpool_gp_entry.h:63-77 | Setting attributes keeps the effective numbers if and only if a group that gains benefits had no effective tasks, and one without them has room for all its tasks. |
| GroupExact.UpdateAllExactly | pool/gp/cpool_gp_entry.h:86-97 | A change of maxthreads keeps the effective numbers if and only if the same condition holds for every group in use. |
| GroupEffects.QueueAnswers | pool/gp/cpool_gp_method.c:112-172 | Each refusal has exactly one cause, in the order of the tests, and changes nothing; a task accepted is expected from then on: waiting, or marked to be queued again. |
| GroupEffects.QueueRecords | pool/gp/cpool_gp_method.c:161-171 | A new task is recorded as waiting; one that runs or is in a handler gets the mark, and nothing else changes. |
| GroupEffects.NewTaskIsQueued | pool/gp/cpool_gp_method.c:161-168 | A new task goes into the queue of its group, as it is but for its number, beside those that were there; no other group changes. |
| GroupEffects.WaitingIsQueued | pool/gp/cpool_gp_internal.h:19-31 | A task is in the queue of some group if and only if it is recorded as waiting. |
| GroupEffects.FinishRequeues | pool/gp/cpool_gp_core_method.c:268-333 | Finishing a task marked to be queued again, and not detached, leaves it in the queue of its group, as the last of all if its priority was for one run; otherwise its record is gone and the queue as it was. |
| GroupEffects.DispatchedRequeues | pool/gp/cpool_gp_internal.c:56-89 | The same at the end of a remover's handler, where the task keeps its priority. |
| GroupEffects.DeliveredWaits | pool/gp/cpool_gp_internal.h:19-31 | Queueing adds exactly the task, and puts a pushed one of priority 0 last. |
| GroupEffects.OnceIsReset | pool/com/cpool_com_priq.h:196-212 | A priority for one run is reset to the lowest rank, any other is kept. |
| GroupEffects.ProcessedCounts | pool/gp/cpool_gp_core_method.c:304-307 | A task counts as processed in its group exactly when its record is dropped. |
| GroupEffects.DisposedWhere | pool/gp/cpool_gp_internal.h:192-232 | A removed task leaves its queue and goes to the pool's threads, to its remover or, without a handler, away. |
| GroupEffects.DiscardWithdraws | pool/gp/cpool_gp_entry.c:149-161 | Marking for removal withdraws the task, waiting or to be queued again, and touches no other record. |
| GroupEffects.RemoveAnswers | pool/gp/cpool_gp_method.c:175-221 | Removing answers whether the task was known, and withdraws it if it was waiting; otherwise nothing changes. |
| GroupEffects.SetAttrStores | pool/gp/cpool_gp_entry.h:27-58 | The attributes stored are those asked for: the limit is min(maxthreads, max(0, parallel)), and benefits are received if asked for or if the limit is 0; queue and running tasks are as they were. |
| GroupEffects.AdjustStores | pool/gp/cpool_gp_entry.h:86-97 | After a change of bounds the bounds are the new ones and so is the limit of every group in use, from the attributes it had; free slots are as they were. |
| GroupEffects.SuspendPauses | pool/gp/cpool_gp_advance_method.c:356-423 | A group in use is paused by it, and keeps all that it has queued or running. |
| GroupEffects.ResumeUnpauses | pool/gp/cpool_gp_advance_method.c:499-554 | It is not paused any more, its tasks are pending in the pool again, and it is active if it has any. |
| GroupEffects.OccupyOpens | pool/gp/cpool_gp_advance_method.c:142-177 | The new group is in use, empty, paused as told, with benefits and the pool's own limit; nothing else changes. |
| GroupEffects.OccupyBands | pool/com/cpool_com_priq.h:107-127 | Its queues cover the priorities 0 to 99 if and only if their number divides 100. |
| GroupEffects.DeletedIsClosed | pool/gp/cpool_gp_advance_method.c:196-216 | Once its deletion has begun it takes no new task. |
| GroupEffects.VacateFrees | pool/gp/cpool_gp_advance_method.c:274-279 | The slot given back is free and inactive, and the rest of the pool as it was. |
| GroupEffects.GrowAdds | pool/gp/cpool_gp_advance_method.c:98-141 | The slots there were are as they were; the new ones are free and empty. |
| GroupEffects.TakeStarts | pool/gp/cpool_gp_core_method.c:224-230 | The task chosen leaves the head of its group's queue and is the one the thread runs. |
| GroupEffects.TakeBatchTakes | pool/gp/cpool_gp_core_method.c:197-205 | Removed tasks go first: the four oldest or all of them, in their order. |
| GroupShape.DeliverTidy | pool/gp/cpool_gp_internal.h:19-59 | Queueing keeps queue lengths, cached top, active flag, the prefix and gpool->npendings right. |
| GroupShape.GetTaskTidy | pool/gp/cpool_gp_internal.h:130-181 | Taking from the chosen group keeps the queue length, the next cached top, the active flag and prefix, and gpool->npendings right. |
| GroupShape.FinishTidy | pool/gp/cpool_gp_core_method.c:247-335 | Completing, rescheduling and detaching keep queue lengths, cached tops, active flags, the prefix and gpool->npendings right. |
| GroupShape.RemoveTaskTidy | pool/gp/cpool_gp_method.c:178-221 | Removing a queued task keeps queue length, cached top, active flag, prefix and sum right. |
| GroupShape.SuspendTidy | pool/gp/cpool_gp_advance_method.c:356-423 | Suspending keeps queue lengths, tops, flags and sums right, and no paused group stays in the prefix. |
| GroupShape.ResumeTidy | pool/gp/cpool_gp_advance_method.c:499-554 | Resuming keeps the shape: a resumed group with tasks is active and in the prefix. |
| GroupShape.GrowPoolTidy | pool/gp/cpool_gp_advance_method.c:98-141 | Growing the slots keeps the shape: new slots are empty and inactive. |
| GroupShape.OccupyTidy | pool/gp/cpool_gp_advance_method.c:142-177 | Creating a group keeps the shape if and only if it is not created suspended in a slot that still lies in the active prefix. |
| GroupShape.SuspendedSlotIsScanned | pool/gp/cpool_gp_advance_method.c:166-167 | In that case a task queued in the suspended group is eligible, by its benefits if the maximum is no threads at all, and the scan meets it. |
| GroupShape.ChooseFinds | pool/gp/cpool_gp_internal.h:86-128 | The scan only ever keeps active groups with pending tasks. |
| GroupPlaces.QueueTaskPlaced | pool/gp/cpool_gp_method.c:161-172 | Conservation over queueing: every live task is in exactly one of a queue, a thread, or the removed ones, as its record says; group counters are the numbers of tasks there and n_qtraces is their sum; sequence numbers stay distinct. |
| GroupPlaces.GetTaskPlaced | pool/gp/cpool_gp_core_method.c:197-230 | Conservation over taking a task or a batch. |
| GroupPlaces.FinishPlaced | pool/gp/cpool_gp_core_method.c:268-334 | Conservation over completing, rescheduling and detaching. |
| GroupPlaces.DispatchedPlaced | pool/gp/cpool_gp_internal.c:56-89 | Conservation over a remover's handler. |
| GroupPlaces.RemoveTaskPlaced | pool/gp/cpool_gp_internal.h:192-255 | Conservation over removal, with and without a handler, by the pool or by the remover. |
| GroupPlaces.Conserved | pool/gp/cpool_gp_core_method.c:293-294 | Across modules: nthreads_running == sum of nrunnings + threads holding a batch; the groups' ndispatchings add up to gpool->ndispatchings + n_qdispatchs; n_qtraces adds up. |
| Witnesses.BusyIsReached | pool/gp/cpool_gp_advance_method.c:513-550 | A run from a new pool: limit 1, two tasks queued, the first taken; every step is guarded and safe. |
| Witnesses.BusyGroupSpins | pool/gp/cpool_gp_advance_method.c:530-535 | At its end the user suspends and resumes the group, and the take of a free thread never ends. |
| Witnesses.ResumeBreaks | pool/gp/cpool_gp_advance_method.c:530-535 | Resuming that group, or every group, leaves the effective numbers inexact. |
| Witnesses.AttrBreaks | pool/gp/cpool_gp_entry.h:63-97 | So does storing the attributes, or the bounds, it already has. |
| Witnesses.GainedBenefitsHideATask | pool/gp/cpool_gp_entry.h:63-77 | A run in which a group gains benefits while one task is counted, is emptied, and loses them: the next task could start, is not counted, and no thread finds it. |
| Witnesses.VacatedIsReached | pool/gp/cpool_gp_advance_method.c:142-177 | A run that leaves a free slot in the active prefix: a second group is created, given a task, emptied and deleted. |
| Witnesses.CreateBreaks | pool/gp/cpool_gp_advance_method.c:166-167 | A group created suspended in that slot breaks the shape. |
| Witnesses.MarkStrands | pool/gp/cpool_gp_entry.c:149-161 | A run after which the only thread sleeps and the only group is suspended; handing its task to the pool's threads by marking strands it, marking over the pool does not. |
| Witnesses.FlushStrands | pool/com/cpool_com_method.c:65-77 | A run after which a flush marks the only thread, woken for the first of two tasks and free: the condition of FlushAttends fails, the thread leaves, and two tasks wait with no thread at all. |
| Witnesses.FlushStrandsLater | pool/com/cpool_com_method.c:65-77 | Had it taken the first task, the condition holds and somebody attends after the flush; but when the marked thread is done nobody does, and the second task waits. |
| Witnesses.LoweredIsReached | pool/com/cpool_com_method.c:52-63 | A run of eight steps from a new pool of two threads, with the maximum lowered to one. |
| Witnesses.LoweringStrands | pool/com/cpool_com_method.c:52-63 | At its end the free thread is gone, the other sleeps on, and a task waits; the condition of LoweringAttends failed before. |
| Witnesses.TakeBreaks | pool/core/cpool_core_thread_status.h:137-139 | Was that thread on its way to look when the flush marked it, it takes a task, is called back before its status is written, and a counter is wrong from then on. |
| Witnesses.CollectBreaks | pool/core/cpool_core.c:1149-1172 | With a maximum of 0 the collector makes a thread more than the maximum. |
| DispatchLinks.CutSplits | pool/com/cpool_com_internal.h:87-94 | Cutting a batch off the dispatch queue leaves the first n nodes linked at the thread and the rest at the queue. |
| DispatchLinks.SpliceMoves | pool/com/cpool_com_internal.h:82-85 | Moving the whole queue links all its nodes at the thread; the queue's head keeps its old links. |
| DispatchLinks.SpliceCorrupts | pool/com/cpool_com_internal.h:82-85 | As written, whatever the queue held, the next removed task is hooked onto the thread's last node, the thread's list no longer ends, and the queue's head still names the old first node. |
| DispatchLinks.SpliceInitMoves | pool/core/list.h:320-327 | With the head re-initialised both lists are right and the next removed task is alone in the queue: the form the model uses. |
| GroupPlaces.CutBatchTally | pool/com/cpool_com_internal.h:75-97 | Cutting a batch off the dispatch queue moves tasks to the thread and loses none. |
| ActivePrefix.ActivateOk | pool/gp/cpool_gp_entry.h:143-166 | Activating keeps actentry a permutation inverse to index, all active groups in the prefix, nactives_ok their number, and groups carrying a tag (paused) out of it. |
| ActivePrefix.ShrinkOk | pool/gp/cpool_gp_entry.h:168-187 | Shrinking leaves the prefix holding exactly the active groups. |
| ActivePrefix.InactivateOk | pool/gp/cpool_gp_entry.h:189-212 | Inactivating keeps all that; a paused group leaves the prefix at once. |
| ActivePrefix.GrowOk | pool/gp/cpool_gp_advance_method.c:118-141 | Growth keeps actentry a permutation and the prefix right; new slots are inactive, each at its own index. |
| ActivePrefix.NactivesCounts | pool/gp/cpool_gp_entry.h:147-195 | nactives_ok is the number of groups flagged active. |
| ActivePrefix.ActiveIsScanned | pool/gp/cpool_gp_internal.h:87-88 | Every active group is met by a scan of the prefix. |
| ActiveTable.Table.Swap | pool/gp/cpool_gp_entry.h:122-141 | The array elements and both indexes trade places; nothing else in the table changes. |
| ActiveTable.Table.Activate | pool/gp/cpool_gp_entry.h:143-166 | The table after it is `ActivePrefix.Activate` of the table before, so `ActivateOk` holds of the arrays: the group lies in the prefix, and the permutation survives. |
| ActiveTable.Table.Shrink | pool/gp/cpool_gp_entry.h:168-187 | The nested loops end in `ActivePrefix.Shrink` of the table before: by `ShrinkOk` the prefix is then exactly the active groups. |
| ActiveTable.Table.Inactivate | pool/gp/cpool_gp_entry.h:189-212 | Ends in `ActivePrefix.Inactivate` of the table before, of which `InactivateOk` speaks. |
| ActiveTable.Table.Grow | pool/gp/cpool_gp_advance_method.c:98-141 | The reallocated arrays are fresh, hold the old elements unchanged, and each new slot lies inactive at its own index. |
| PriorityOrder.PrecedesIsStrictTotal | pool/gp/cpool_gp_internal.h:116-125 | The intended order is irreflexive, transitive, and total for distinct sequence numbers. |
| PriorityOrder.StableInsertSorted | pool/com/cpool_com_priq.h:38-75 | Stable insertion of a newer task keeps a queue in that order. |
| PriorityOrder.InsertFromExact | pool/com/cpool_com_priq.h:49-75 | Insertion whose first comparison is with position s is stable insertion if and only if the task does not belong further down than the position after s. |
| PriorityOrder.InsertFromTailStable | pool/com/cpool_com_priq.h:46-49 | Compared first with the last task, as the comment says, insertion is always stable. |
| PriorityOrder.InsertWrittenPlaces | pool/com/cpool_com_priq.h:49-75 | As written (first task), a task only ever lands at the head, second, or at the tail. |
| PriorityOrder.InsertWrittenMisorders | pool/com/cpool_com_priq.h:49-54 | The witness: priorities 90, 50 plus 10 become 90, 10, 50. |
| PriorityOrder.InsertWrittenBreaksFifo | pool/com/cpool_com_priq.h:49-54 | At any one priority, three tasks queued in turn are not in order. |
| PriorityOrder.PushIsSafe | pool/com/cpool_com_priq.h:41-44 | A pushed task, which has priority 0 and policy BACK, is always inserted where it belongs. |
| PriorityOrder.InsertOne | pool/com/cpool_com_priq.h:33-76 | The early exits and the two scanning loops put the task where `InsertFrom` does, from any first comparison. |
| PriorityQueue.LocateMonotone | pool/com/cpool_com_priq.h:125-129 | The band of a priority does not decrease with it. |
| PriorityQueue.LocateInRange | pool/com/cpool_com_priq.h:116-129 | Every priority 0..99 has a queue if and only if priq_num divides 100. |
| PriorityQueue.SplitFlatten | pool/com/cpool_com_priq.h:25-31 | In the flattened container, the tasks above, in and below a band are its higher queues, that queue, and its lower queues. |
| PriorityQueue.FlatInsertExact | pool/com/cpool_com_priq.h:165-173 | Two-level insertion is stable insertion into the flat sequence if and only if the task is safe within its band. |
| PriorityQueue.FlatInsertMultiset | pool/com/cpool_com_priq.h:165-173 | Whatever the order, it adds exactly the task. |
| PriorityContainer.Container.constructor | pool/com/cpool_com_priq.h:107-123 | An empty container. |
| PriorityContainer.Container.ReadyHead | pool/com/cpool_com_priq.h:156-163 | The head of the ready list is the highest non-empty queue, and the flat view starts with it. |
| PriorityContainer.Container.Empty | pool/com/cpool_com_priq.h:132-136 | True exactly when the flat view is empty. |
| PriorityContainer.Container.PeekTop | pool/com/cpool_com_priq.h:156-163 | The first task of the flat view. |
| PriorityContainer.Container.Pop | pool/com/cpool_com_priq.h:138-154 | Takes the first task off the flat view; the ready list stays strictly descending and lists exactly the non-empty queues. |
| PriorityContainer.Container.Activate | pool/com/cpool_com_priq.h:78-105 | The ready list stays strictly descending with the queue in it. |
| PriorityContainer.Container.Insert | pool/com/cpool_com_priq.h:165-173 | Inserts into the flat view within the task's band. |
| PriorityContainer.Container.Erase | pool/com/cpool_com_priq.h:175-181 | Removes exactly the task from the flat view. |
| ThreadCounts.WakeNKeeps | pool/core/cpool_core.h:70-93 | Waking changes no counter's error, and touches only the woken flags. |
| ThreadCounts.WakeNExact | pool/core/cpool_core.h:76-90 | Waking takes exactly min(n, sleepers) threads off the head of the queue, all of them if n is not positive, and wakes exactly those. |
| ThreadCounts.ReuseOneKeeps | pool/core/cpool_core.c:907-940 | Taking a dying thread back changes no counter's error, whatever its status. |
| ThreadCounts.CreateOneKeeps | pool/core/cpool_core.c:953-1014 | Creating a thread changes no counter's error. |
| ThreadCounts.MarkOneKeeps | pool/core/cpool_core.c:1059-1101 | Marking a thread dying changes no counter's error, whatever its status. |
| ThreadSupply.AddThreadsExact | pool/core/cpool_core.c:890-1029 | add_threadsl(n) raises real_pool by exactly max(0, n): dying threads are taken back first, the rest created. |
| ThreadSupply.ReuseEffect | pool/core/cpool_core.c:900-944 | The reusing scan takes back exactly the first n dying threads of the list. |
| ThreadSupply.CountersBalance | pool/core/cpool_core.c:1189-1208 | If every counter is a cardinality, the VERIFY equations hold and no counter is negative. |
| ThreadSupply.EnsureKeeps | pool/core/cpool_core.c:834-888 | ensure_services keeps every counter's error, all settings and jobs, and never raises real_pool above maxthreads. |
| ThreadSupply.EnsureServes | pool/core/cpool_core.c:834-888 | After it, a pool within its bounds that has work has a free, woken or running thread. |
| ThreadSupply.NeedEnsureServes | pool/core/cpool_core.h:135-139 | The guarded call serves as well: it is skipped only when a thread is attending or the pool is full. |
| ThreadEffects.EnsureExact | pool/core/cpool_core.c:834-888 | The service call, exactly: nothing while somebody is free or woken or there is no work; else two sleepers at most are woken; with none asleep, as many threads are taken on as there is room, as may be made at a time, and as there is work for, whichever is least. |
| ThreadEffects.NeedEnsureExact | pool/core/cpool_core.h:135-139 | The test that saves the call never saves one that would do something. |
| ThreadEffects.TryGCServes | pool/core/cpool_core.c:1149-1172 | With the cache to be flushed the collector leaves a thread awake to do it. |
| ThreadEffects.TimedoutQuits | pool/core/cpool_core_thread_status.h:75-106 | At its time-out a thread that may quit does if and only if more than minthreads are in service and there is no work. |
| ThreadEffects.QuitQuits | pool/core/cpool_core_thread_status.h:107-118 | A thread that quits is out of service, stops and leaves the list. |
| ThreadEffects.LastAsleepFirstWoken | pool/core/cpool_core_thread_status.h:57-74 | The thread that went to sleep last is the first to be woken. |
| ThreadEffects.ResumeResumes | pool/core/cpool_core.c:1127-1147 | Resuming clears the flag and leaves startable tasks attended. |
| ThreadEffects.NewCoreSettings | pool/core/cpool_core.c:22-80 | The settings of a new pool are those asked for, clamped. |
| ThreadStatus.RunKeepsCounts | pool/core/cpool_core_thread_status.h:119-139 | Going to RUN keeps all nine counters if and only if the service check made before the status is written does not call the dying taker back. |
| ThreadStatus.FreeKeepsCounts | pool/core/cpool_core_thread_status.h:225-260 | Being woken keeps all nine counters, with the same exact exception for a sleeper marked dying. |
| ThreadStatus.TimedoutKeepsCounts | pool/core/cpool_core_thread_status.h:76-106 | Timing out keeps all nine counters, with the same exact exception. |
| ThreadStatus.WaitKeepsCounts | pool/core/cpool_core_thread_status.h:57-75 | Going to sleep keeps all nine thread counters. |
| ThreadStatus.ForceQuitKeepsCounts | pool/core/cpool_core_thread_status.h:107-118 | Quitting keeps all nine thread counters. |
| ThreadStatus.CompleteKeepsCounts | pool/core/cpool_core_thread_status.h:148-175 | Completing keeps all nine thread counters. |
| ThreadStatus.LeaveKeepsCounts | pool/core/cpool_core_thread_status.h:178-219 | Leaving keeps all nine thread counters. |
| ThreadStatus.JoinKeepsCounts | pool/core/cpool_core_thread_status.h:55-56 | Joining keeps all nine thread counters. |
| ThreadStatus.EnsureCallsBack | pool/core/cpool_core.c:911-942 | ensure_services takes a thread back exactly when the condition of the exception holds. |
| ThreadStatus.TakerCalledBack | pool/core/cpool_core_thread_status.h:137-139 | A concrete state: the last taker is called back while it starts running, and a free thread is counted that does not exist. |
| ThreadStatus.SleeperCalledBack | pool/core/cpool_core_thread_status.h:240-243 | A concrete state: a woken sleeper is called back as if asleep, and real_free becomes -1 when it runs. |
| ThreadBounds.DecThreadsExact | pool/core/cpool_core.c:1031-1109 | dec_threadsl(n) marks exactly max(0, min(n, real_pool)) threads, and a running one only if every other one in service is marked. |
| ThreadBounds.AdjustBounds | pool/core/cpool_core.c:460-472 | adjust brings any pool within the given bounds. |
| ThreadBounds.FlushBounds | pool/com/cpool_com_method.c:65-77 | flush leaves exactly minthreads in service. |
| ThreadAttendance.MarkingAttends | pool/core/cpool_core.c:1031-1109 | Taking all but m threads out of service leaves somebody to attend if and only if a thread is running or woken already, or m is less than the sleepers, or more and some thread is free, or a sleeper in service stands in the list before a free one; so nobody is left only when exactly the free threads are marked. |
| ThreadAttendance.MarksInOrder | pool/core/cpool_core.c:1059-1104 | The idle threads are marked in the order of the list. |
| ThreadAttendance.FlushAttends | pool/com/cpool_com_method.c:65-77 | A flush leaves work attended if and only if there is none or that condition holds for minthreads. |
| ThreadAttendance.AdjustAttends | pool/core/cpool_core.c:460-472 | Whom an adjustment leaves to attend, in each of its three cases: always somebody when threads are added, that condition for maxthreads when some are marked, and otherwise somebody unless nobody attended and nobody is in service. |
| ThreadAttendance.AddingAttends | pool/core/cpool_core.c:890-1029 | Adding at least one thread, new or taken back, leaves one that attends. |
| NoStranded.LoweringAttends | pool/com/cpool_com_method.c:52-63 | Over the pool, limits recomputed: a maximum below the threads in service leaves somebody to attend if and only if that condition holds for it before the call. |
| ThreadBounds.TryGCBounds | pool/core/cpool_core.c:1149-1172 | The collector keeps the nine counters, and the bounds if and only if it does not make a thread for a maximum of none: its thread fits because the counters say that none is in service. |
| ThreadBounds.NewCoreBounds | pool/core/cpool_core.c:36-41 | The constructor starts within clamped bounds. |
| PoolSound.GetTaskSteady | pool/core/cpool_core_thread_status.h:119-139 | Counters and bounds over a take, with the exact exception. |
| PoolSound.TimedoutSteady | pool/core/cpool_core_thread_status.h:89-103 | Counters and bounds over a time-out. |
| PoolSound.RunFirstSteady | pool/core/cpool_core_thread_status.h:119-147 | With its status written before the service check, a take keeps the counters and the bounds without any condition. |
| PoolSound.ExitFirstSteady | pool/core/cpool_core_thread_status.h:222-260 | So does the return of a sleeper, woken or by time-out. |
| PoolSound.ForceQuitSteady | pool/core/cpool_core.c:528-529 | Quitting keeps real_pool >= minthreads when enough others sleep. |
| PoolSound.FinishSteady | pool/gp/cpool_gp_core_method.c:247-335 | Completing, rescheduling and detaching keep all nine thread counters and the bounds. |
| PoolSound.AdjustSteady | pool/com/cpool_com_method.c:52-63 | Adjusting to any bounds the source accepts, a maximum of 0 too, keeps the counters and ends within the bounds. |
| NoStranded.DeliverManned | pool/gp/cpool_gp_internal.h:43-53 | Queueing leaves work attended. |
| NoStranded.FinishManned | pool/gp/cpool_gp_core_method.c:322-333 | Completing leaves work attended: the thread is free, or goes on with its batch. |
| NoStranded.SetAttrManned | pool/gp/cpool_gp_entry.h:63-77 | Setting attributes leaves work attended although it ensures no service: what becomes startable was held back by running tasks. |
| NoStranded.TimedoutManned | pool/core/cpool_core_thread_status.h:89-103 | A time-out leaves work attended: the thread quits only when there is none. |
| NoStranded.DiscardManned | pool/gp/cpool_gp_entry.c:207-208 | Marking one group's tasks for removal by the pool strands them exactly when nobody was attending. |
| ThreadJobs.EnsureJobs | pool/core/cpool_core.c:834-888 | ensure_services changes no task held, no pending count and no setting. |
| ThreadPool.ThreadCore.constructor | pool/core/cpool_core.c:36-41 | Clamped bounds, then exactly minthreads created threads: the state of which `NewCoreBounds` speaks. |
| ThreadPool.ThreadCore.WakeupSleeping | pool/core/cpool_core.h:70-93 | The loop wakes from the head of the queue, nwake threads or all of them; a negative count never stops it. |
| ThreadPool.ThreadCore.ReuseDying | pool/core/cpool_core.c:900-946 | The loop takes back the first dying threads of the list and returns how many are still wanted. |
| ThreadPool.ThreadCore.AddThreads | pool/core/cpool_core.c:890-1029 | Reuse first, creation for the rest: the whole new state is the function of which `AddThreadsExact` speaks. |
| ThreadPool.ThreadCore.EnsureServices | pool/core/cpool_core.c:834-888 | Every early return and both ways of serving: the whole new state is the function of which `EnsureServes` speaks. |
| ThreadPool.ThreadCore.NeedEnsureServices | pool/core/cpool_core.h:135-139 | True exactly when no thread is free or woken and the pool could grow or wake one. |
| ThreadPool.ThreadCore.DecThreads | pool/core/cpool_core.c:1031-1109 | The marking loop with its three exits ends in the state, and returns the number, of which `DecThreadsExact` speaks. |
| ThreadPool.ThreadCore.ChangeStatus | pool/core/cpool_core_thread_status.h:42-261 | For every new and previous status: the counters of the switch, the check for a thread that was waiting, and only then the status, as `StatusChanged` has it. |
| ThreadPool.StatusChangedCases | pool/core/cpool_core_thread_status.h:54-260 | For the changes threads make, that one function is the step whose counters the lemmas of ThreadStatus judge. |
| ThreadPool.ThreadCore.AdjustAbs | pool/core/cpool_core.c:460-472 | Adds, marks or wakes: the state of which `AdjustBounds` speaks. |
| ThreadPool.ThreadCore.Flush | pool/com/cpool_com_method.c:65-77 | Marks what is above minthreads and returns how many: the state of which `FlushBounds` speaks. |
| ThreadPool.ThreadCore.TryGC | pool/core/cpool_core.c:1149-1172 | Wakes one sleeper or makes one thread, only when no thread in service is awake. |
| ThreadPool.ThreadCore.Resume | pool/core/cpool_core.c:1126-1147 | A paused core with startable tasks is served at once; otherwise only the flag changes. |
| GroupPool.Groups.PriQueue | pool/gp/cpool_gp_internal.h:19-31 | The task gets the next sequence number and the record of a waiting one, goes into its band, and the cached top is the new head; nothing else in the pool changes. |
| GroupPool.Groups.ConsumerNotify | pool/gp/cpool_gp_internal.h:34-59 | The sums, the effective number, the service call and the activation together are `Notify`: the step that `DeliverExact` and `DeliverTidy` judge. |
| GroupPool.Groups.QueueTask | pool/gp/cpool_gp_method.c:96-176 | Each of the four answers in the cases of the model; a task already queued is left alone, one in a handler or running is only marked for requeueing: the state of which `QueueRecords` speaks. |
| GroupPool.Groups.ScanTops | pool/gp/cpool_gp_internal.h:87-128 | The loop over the active prefix ends with the group of which `ScanIsBest` speaks. |
| GroupPool.Groups.Select | pool/gp/cpool_gp_internal.h:86-187 | The two rounds end with the group of which `ChooseIsBest` speaks. |
| GroupPool.Groups.Pop | pool/gp/cpool_gp_internal.h:139-181 | The popped entry, both sums and the active table: the state of which `TakeFromExact` and `TakeFromTidy` speak. |
| GroupPool.Groups.GetTask | pool/gp/cpool_gp_core_method.c:186-245 | Answers nothing, a task, or for ever exactly as the model does; unchanged state in the first and last case, the state of which `GetTaskPlaced` speaks in the second. |
| GroupPool.Groups.TakeDispatched | pool/com/cpool_com_internal.h:75-97 | At most four removed tasks, in order, move from the dispatch queue to the thread, which then runs. |
| GroupPool.Groups.Finished | pool/gp/cpool_gp_core_method.c:247-335 | Slot or batch place, trace record or requeueing, thread status, in the order of the source: the state of which `FinishExact` and `FinishPlaced` speak. |
| GroupPool.Groups.HandlerDone | pool/gp/cpool_gp_internal.c:56-89 | The state of which `DispatchedPlaced` speaks: the record dropped, or the task queued again. |
| GroupPool.Groups.RemoveTask | pool/gp/cpool_gp_method.c:178-221 | Queue, sums, table and record, and service ensured for a task left to the pool; the answer tells a task that is done away with. |
| GroupPool.Groups.DiscardTask | pool/gp/cpool_gp_entry.c:149-161 | Withdraws a requeueing, or removes the task without ensuring service: the state of which `DiscardManned` speaks. |
| GroupPool.Groups.MarkTasks | pool/gp/cpool_gp_entry.c:202-220 | The loop over the tasks to be removed, then service ensured once: the state of which `MarkPoolManned` speaks. |
| GroupPool.Groups.SuspendGroup | pool/gp/cpool_gp_advance_method.c:375-407 | The state of which `SuspendExact` speaks; a group that is gone or paused is left alone. |
| GroupPool.Groups.SuspendAllGroups | pool/gp/cpool_gp_advance_method.c:439-482 | The loop ends in the state of which `SuspendAllStops` speaks. |
| GroupPool.Groups.ResumeGroup | pool/gp/cpool_gp_advance_method.c:513-550 | The state of which `ResumeExact` speaks, with service ensured. |
| GroupPool.Groups.ResumeAllGroups | pool/gp/cpool_gp_advance_method.c:569-613 | The loop resumes every paused group in use and ensures service once, at the end. |
| GroupPool.Groups.SetEntryAttr | pool/gp/cpool_gp_entry.h:22-78 | The state of which `SetAttrStores` and `SetAttrExact` speak; only entries and core->npendings are written. |
| GroupPool.Groups.UpdateAll | pool/gp/cpool_gp_entry.h:86-97 | The loop ends in the state of which `UpdateAllExactly` speaks. |
| GroupPool.Groups.AdjustBounds | pool/com/cpool_com_method.c:52-63 | Bounds stored, limits recomputed, threads adjusted, in that order: the state of which `AdjustSteady` speaks. |
| GroupPool.Groups.GrowSlots | pool/gp/cpool_gp_advance_method.c:98-141 | Three free slots are appended to the entries and to the table, whose arrays are fresh. |
| GroupPool.Groups.OccupySlot | pool/gp/cpool_gp_advance_method.c:142-177 | The slot holds an empty group that receives benefits, with the limit of the pool. |
| Destruction.DestroyedOnce | pool/core/cpool_core.c:298-388 | In every interleaving of addref, release, thread creation, exit and thread release: ref == user_ref + threads not yet released; the destructor starts at most once, with no reference and no thread left; nobody can act after it, and when nobody can act it has started. |
| Destruction.StepBalanced | pool/core/cpool_core.h:36-54 | Every step keeps the balance of the references. |
| Destruction.StepsRunOut | pool/core/cpool_core.c:600-607 | Without new references and threads every step brings the end nearer. |
| Destruction.CountsOverRuns | pool/core/cpool_core.c:310-371 | Over every run users, threads and threads on their way out are exactly those added less those gone. |
| Destruction.References.AddUser | pool/com/cpool_com_method.c:85-98 | Counts one more user only while the pool is created, and returns the count or 0; the step of which `DestroyedOnce` speaks. |
| Destruction.References.Release | pool/core/cpool_core.c:310-371 | Whoever calls, the counts and flags of the step of which `DestroyedOnce` speaks, and true exactly for the party that has to clear the resources. |
| Waiters.NoLostWakeUp | pool/gp/cpool_gp_wait.c:430-663 | At every point of every run, in which tasks are queued, finish and are detached and groups are created, deleted and given back, a sleeping waiter has nothing to wake up for, and its group is in use. |
| Waiters.FinishWakes | pool/gp/cpool_gp_wait_internal.h:111-136 | The step that makes a sleeper's wish come true wakes it; one that sleeps on keeps its flags, although one broadcast clears the flags of all groups. |
| Waiters.StepKeeps | pool/gp/cpool_gp_wait.c:199-217 | Sleepers stay armed; the references of tasks, groups and pool are the numbers of their waiters, n_qtraces the number of live tasks. |
| Waiters.VacateInv | pool/gp/cpool_gp_advance_method.c:269-282 | A slot is given back only when nobody waits on the group or on a task of it; what the group had processed stays in the sum that the pool-wide waiters compare. |
| Waiters.DeletionReturns | pool/gp/cpool_gp_advance_method.c:264-271 | The thread that deletes a group sleeps only while somebody waits on it, and once awake gives the slot back if and only if nobody does. |
| Waiters.LastWaiterCalls | pool/gp/cpool_gp_wait.c:313-338 | The return of the last waiter on the group, and only of the last, calls that thread. |
| Waiters.CreateInv | pool/gp/cpool_gp_advance_method.c:160-172 | A group created in a free slot, with its flags and counts reset, disturbs no waiter. |
| Waiters.InterruptInv | pool/gp/cpool_gp_advance_method.c:258-261 | The broadcast of a deletion wakes every waiter on groups and tasks and keeps all others armed. |
| Waiters.RecycledOnce | pool/gp/cpool_gp_core_method.c:314-320 | A cached task goes back to the cache at most once, never with a waiter referring to it, and it has gone back once it is finished and nobody refers to it. |
| Waiters.DetachReturns | pool/gp/cpool_gp_method.c:322-335 | The thread of a detach sleeps only while a waiter refers to the task, and once called leaves if and only if none does. |
| Waiters.DetachAnswers | pool/gp/cpool_gp_method.c:310-333 | A detach is answered at once if and only if no waiter refers to the task; otherwise its thread sleeps; either way the task is over. |
| Waiters.DetachedAlone | pool/gp/cpool_gp_method.c:322-333 | A task becomes detached only by its detaching thread, and only where no waiter refers to it. |
| Waiters.DetachedOverRuns | pool/gp/cpool_gp_method.c:322-333 | So over every run: whoever is told that the task is detached leaves no waiter behind. |
| Waiters.DetachMoves | pool/gp/cpool_gp_wait.c:290-311 | A detach goes on only by its own thread and by the return of the last waiter. |
| Waiters.ProcessedOverSteps | pool/gp/cpool_gp_wait.c:583-601 | The sum a pool-wide waiter compares rises by one with each task that ends, and with nothing else: groups come and go unnoticed. |
| Waiters.WishesMean | pool/gp/cpool_gp_wait.c:505-601 | What the wait loop tests is what was asked, in terms of the tasks. |
| Waiters.BroadcastsOnce | pool/gp/cpool_gp_wait_internal.h:93-136 | A broadcast is made only where a flag asks for it, and clears every flag of its class. |
| Waiters.GroupLives | pool/gp/cpool_gp_advance_method.c:142-282 | A group takes tasks once created, none once its deletion has begun, and is free at its end. |
| Waiters.GroupStartsAfresh | pool/gp/cpool_gp_advance_method.c:160-172 | A new group has no flag, waiter or processed task of the last one. |
| Waiters.DeletionGoesOn | pool/gp/cpool_gp_advance_method.c:248-282 | A deletion goes on exactly when the last task of the group is over: to its end, or to sleep while somebody waits. |
| Waiters.LookedAtOk | pool/gp/cpool_gp_wait.c:304-311 | The waiter that gives up the last reference recycles or signals as it must. |
| Waiters.NotifyFlags.WakeupEntries | pool/gp/cpool_gp_wait_internal.h:93-102 | The loop clears the flags of all groups in use. |
| Waiters.NotifyFlags.WakeupTask | pool/gp/cpool_gp_wait_internal.h:111-136 | The macro decides on the two broadcasts as the model does. |
| ObjectPool.FindSlot | pool/core/objpool.c:96-117 | The binary search of get with signed bounds finds the place of every new block. |
| ObjectPool.SearchWrittenExact | pool/core/objpool.c:97-104 | As written, with unsigned bounds, the search leaves the array exactly when the new block lies below all others and their number wraps. |
| ObjectPool.WrapsExactly | pool/core/objpool.c:97-101 | Their number wraps exactly when iblocks - 1 lies between 3*2^k - 2 and 2^(k+2) - 3 for some k. |
| ObjectPool.SearchWrittenFinds | pool/core/objpool.c:97-111 | When it stays inside, it finds the place as well. |
| ObjectPool.FindOwner | pool/core/objpool.c:157-178 | The search of put finds the owning block. |
| ObjectPool.PutKeeps | pool/core/objpool.c:151-202 | put keeps blocks apart and sorted, every object in exactly one of outstanding, cache and its block's queue, and nput and ntotal right. |
| ObjectPool.PutTakesBack | pool/core/objpool.c:151-202 | The object put back is given out no more, whatever becomes of its block; unless all of the block is back it is in the block's queue, once, and nput counts it. |
| ObjectPool.PutThenGet | pool/core/objpool.c:30-59 | Round trip: after a put that frees no block, get needs no new one, and gives out the same object if the blocks before have nothing in their queues. |
| ObjectPool.GetPutGains | pool/core/objpool.c:30-59 | Beside the object it gives out, get caches five or more, or all that had been put back; none is lost. |
| ObjectPool.FreedWhenAllBack | pool/core/objpool.c:184-201 | A block is freed exactly when all its objects are back. |
| ObjectPool.GetPutKeeps | pool/core/objpool.c:30-59 | get from the queues gives out one object that was not out, and keeps blocks apart, every object in one place and the counts right. |
| ObjectPool.NewBlockKeeps | pool/core/objpool.c:93-146 | get with a new block keeps blocks sorted and apart, every object in exactly one place, and nput and ntotal right; its first object was not out. |
| ObjectPool.OutHasOwner | pool/core/objpool.c:178-180 | Every outstanding object belongs to a block. |
| ObjectPool.ObjPool.PutBack | pool/core/objpool.c:151-202 | Finds the owning block; the object is given out no more; the state of which `PutTakesBack`, `PutKeeps` and `FreedWhenAllBack` speak. |
| ObjectPool.ObjPool.GetPut | pool/core/objpool.c:30-59 | The scan loop returns an object that was not out; the state of which `GetPutKeeps` speaks. |
| ObjectPool.ObjPool.GetNew | pool/core/objpool.c:61-148 | One block more, in its place by address; the first object is given out, the others are cached. |
| SmCache.AddedPrefixed | pool/core/sm_cache.h:162-179 | Adding keeps the destroyable objects in front and adds exactly the object. |
| SmCache.AddedAllPrefixed | pool/core/sm_cache.h:234-241 | Adding a queue keeps the destroyable objects in front and adds exactly its objects. |
| SmCache.AddedFirstPrefixed | pool/core/sm_cache.h:185-199 | Adding straight to the front does if and only if the object is destroyable or none in the cache is. |
| SmCache.FlushExact | pool/core/sm_cache.c:104-139 | Flushing to a limit takes exactly min(n - limit, prefix length) objects from the front, all destroyable, and keeps the rest in order. |
| SmCache.FlushTakesOthers | pool/core/sm_cache.c:113-118 | Without the prefix, flushing takes objects that must be kept exactly when the limit is 0 and the last one is destroyable. |
| SmCache.AddLimitLoses | pool/core/sm_cache.c:171-185 | add_limit loses the flushed list exactly when the new object is turned away and the cache is flushable at that limit. |
| SmCache.AddLimitConserves | pool/core/sm_cache.c:152-193 | Otherwise every object is cached or destroyed, and only destroyable ones are destroyed. |
| SmCache.UnkeptExact | pool/core/sm_cache.h:148-160 | remove_unflushable removes what its comment says if and only if the cache holds no objects of one of the two kinds in front of the other. |
| SmCache.Queue.Push | pool/core/sm_cache.h:50-56 | The linked queue gains the object in front; n, qfirst, qlast right. |
| SmCache.Queue.Append | pool/core/sm_cache.h:171-178 | The linked queue gains the object at its tail; n, qfirst, qlast right. |
| SmCache.Queue.Add | pool/core/sm_cache.h:162-179 | In front if it is destroyable and the cache is not empty, else at the tail, on the links. |
| SmCache.Queue.Pop | pool/core/sm_cache.h:58-68 | Takes the first object, or none. |
| SmCache.Queue.RemoveUnflushable | pool/core/sm_cache.h:148-160 | The loop drops the objects in front up to the first destroyable one, on the links; of it `UnkeptExact` speaks. |
| SmCache.Queue.GetFlush | pool/core/sm_cache.c:104-139 | The first objects, as many as `FlushExact` says, become the other queue and the rest stay, on the links; n and qlast of both are right. |
| Destruction.BornBalanced | pool/core/cpool_core.c:117 | A new pool, with one reference held by its user, is balanced. |
| PoolRuns.HeldGroupsExist | pool/gp/cpool_gp_core_method.c:271 | Every task held by a running thread or a remover belongs to a group that exists, so completing is always possible. |

## Left out

- Operating-system layer, clocks and random time-outs: `mayQuit` and the choice of a step stand for them; thread creation succeeds, so the error paths of `cpool_core.c:612-714` and of `cpool_core_add_threadsl` are absent.
- Spurious wake-ups of service threads: a thread returns from its wait woken or timed out.
- Integer widths: counters and sequence numbers are unbounded; the wrap-around of `seq` is not modelled.
- The GC thread flag, the FLUSH flag, thread-local caches, `crttime`, peak statistics and `event_free_notified`.
- `eTASK_VM_F_DISABLE_QUEUE`, throttle switching and throttle waiters, task flags passed to callbacks.
- A task policy of 0, which is neither TOP nor BACK; a task's stored queue index is always that of its priority.
- `gid > gpool->num` in `cpool_gp_method.c:114` and its like lets a gid equal to num through; the model answers that the group was not found.
- The race in `cpool_gp_task_remove` between its unlocked test of f_stat and its locked one.
- Which free slot `cpool_gp_entry_create` picks, group names and buffers; slot growth is a step of its own.
- Which tasks a marking visits, and the callback that decides on each: a step carries the tasks to be removed, in order, and whether some other task was given a flag.
- New slots in `Waiters`, and task objects that change their group between two queueings there.
- `WAIT_TYPE_TASK_ANY2`, user interrupts (`WWAKE`) and `task_wsync`: they signal outside the armed-flag protocol.
- The fixed and `rt` pools, logging, status dumps, factories and the `stpool*.c` wrappers.
- Aliasing inside GroupPool.Groups: a group's priority queue is held as its flat sequence, the trace queue as its length and the task records; the containers and links are refined in PriorityContainer and SmCache.
- PoolTheorems.RunNeverStrands: does not go on after a flush or a maximum that takes threads out of service. The exact condition for somebody to attend right after it is ThreadAttendance.FlushAttends and NoStranded.LoweringAttends; the property is false where it fails (Witnesses.FlushStrands, Witnesses.LoweringStrands), and later even where it holds (Witnesses.FlushStrandsLater). It does not cover by-pool marking of one task while nobody attends, or benefits gained with effective tasks left, because it is false there (NoStranded.DiscardManned, Witnesses.GainedBenefitsHideATask); nor a suspended creation inside the prefix, after which the books are wrong (GroupShape.OccupyTidy).
