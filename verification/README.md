# mqmx: a verified model

This project models the two cores of mqmx, a C++ library of message queues and timed works, and
proves what they promise, for every input, every run and every interleaving of their threads.

**The polling pool.** Messages are pushed into queues from any thread. One worker attaches a
listener to every registered queue, sleeps until a queue reports data, takes a snapshot of the
list of reports (sorted by queue id, control's queue 0 first), detaches, and hands the messages to
handlers. Clients register and unregister queues and ask whether the pool is idle by messages to
the control queue and semaphores.

**The work queue.** Works are records in a vector kept as a min-heap on their time point. One worker
waits for the front's time or for a change, pops it, runs it and puts it back if it is periodic. A
subclass for tests replaces the clock by a virtual time; `forward_time` posts a sentinel work that
arms itself again until nothing due remains.

## How the project is laid out

| files | what they hold |
|---|---|
| `Common`, `RecordHeap`, `HeapAlgorithms`, `BagSums` | status codes and identifiers; the heap algorithms as functions and as in-place array methods; what any conforming heap algorithms achieve; sums over multisets |
| `WorkQueueModel` | what each operation of the work queue does to the state under its mutex, and the map it implements |
| `WorkQueueRuns`, `WorkQueueTheorems`, `WorkQueueRefinement`, `ClientCancellation` | the work queue as a transition system, one step per section with the mutex held, both variants; its invariant; what holds over whole runs; when cancelling a client's works is final |
| `WorkerProgress`, `WorkQueueAnswers` | what the worker does when nobody else acts, in both variants; what the calls answer over whole runs |
| `Forwarding`, `TimeForwarding`, `EpochForwarding`, `AnswerStreams` | the drain once the sentinel is posted; the whole of a waited `forward_time`, with the worker running between its two sections; forwarding to the epoch itself; answers that come one by one |
| `OverlappingCalls` | several waited `forward_time` calls at once: callers, sentinels and tokens |
| `WorkQueue` | the work queue as a class over an array, equal to the functions above |
| `Notifications`, `MessageQueueModel`, `MessageQueueRuns`, `MessageQueueAnswers`, `MessageQueue` | the notification list, the queue and its listener, any number of queues under any operations, what each operation answers and whom it tells, and the classes |
| `PoolModel`, `PoolInvariant`, `PoolSteps`, `PoolWorkerSteps`, `PoolHandlerSteps` | the pool as a transition system with a step per mutex section and semaphore operation, its invariant, and the proof that every step keeps it |
| `PoolTheorems`, `PoolHistory`, `PoolProgress` | what holds over whole runs of the pool, what its past must have been, and that the worker and the callers of is_poll_idle, left alone, finish |
| `PoolDispatch` | what becomes of a snapshot: how the worker goes on after each answer of a handler |
| `PoolLocking` | the pool with a step between changing a queue and telling its listener, and why that is the same pool |
| `Pool` | the pool as a class, section by section equal to the transition system |

A state of the pool holds a step called `Fault`: following a pointer to a destroyed queue, notifying
a listener that is gone, reading the front of an empty list and failing an assertion of the code all
lead there, and the invariant says that no run reaches it.

## What is assumed

- Mutexes, condition variables, threads and semaphores work: a section that holds a mutex is one
  step, a semaphore is a counter, a blocked thread is one whose step is not enabled. In the pool a push
  and the notification it sends are one step; `PoolLocking` splits them, with the queue's mutex held
  in between, and proves that nothing is lost by not doing so.
- Time points are whole numbers counted from the epoch, which is 0; a duration is a whole number.
  `schedule_work` replaces an empty start by the clock, `update_work` does not.
- The heap algorithms of the library are any that conform: each result is a heap of the right records,
  and beyond that `push_heap` displaces the front only for a strictly earlier record, on which the
  end of the drain rests. How ties are laid out is otherwise open, in the transition system and in
  every theorem about it; the class uses top-down sifts, which conform.
- A work function, a handler and a listener do not call back into the object that calls them. What
  they return, or that they throw, is an arbitrary answer in every step of the transition systems. In
  a waited `forward_time` it is an arbitrary function of the work's id and time point; `AnswerStreams`
  lets the answers come step by step and proves that, while ids are distinct, any such history of
  answers is one of those functions.
- Users of the pool do not move its queues or set listeners on them, allocate one at a time and
  within the capacity, and release all queues before the pool is destroyed. A pool queue is named by
  its id, which the pool never gives to two queues.
- The work queue's subclass is modelled by a constant that selects the variant, since two of its
  methods are all it overrides.

## Where the code and its documentation differ

mqmx/work_queue.h:279-280 says that a work's next time is usually the current time plus its period.
The code adds the period to the record's own time point (mqmx/work_queue.cpp:274-277), and so does
the model.

## Model

| member | source | states |
|---|---|---|
| RecordHeap.RootIsLeast | mqmx/work_queue.h:85-91 | with the comparator reversed as in the code, the front of the heap is a minimum of the whole container |
| RecordHeap.PushHeapIsHeap | mqmx/work_queue.cpp:63-66 | pushing keeps the heap, adds exactly the record, and displaces the root only when the record is strictly earlier |
| RecordHeap.PopHeapIsHeap | mqmx/work_queue.cpp:309-312 | popping takes exactly the root and leaves a heap |
| RecordHeap.MakeHeapIsHeap | mqmx/work_queue.cpp:151-157 | rebuilding any vector gives a heap with the same records |
| RecordHeap.WithoutClientCounts | mqmx/work_queue.cpp:326-344 | remove_if drops each record of the client and keeps every other one as often as it occurs |
| RecordHeap.PushHeapInPlace | mqmx/work_queue.cpp:64-66 | the in-place sift up is the function that PushHeapIsHeap is about |
| RecordHeap.PopHeapInPlace | mqmx/work_queue.cpp:309-312 | the in-place pop leaves the root last and the rest as the function says |
| RecordHeap.MakeHeapInPlace | mqmx/work_queue.cpp:153-155 | the in-place rebuild is the function that MakeHeapIsHeap is about |
| RecordHeap.RemoveIfInPlace | mqmx/work_queue.cpp:333-336 | the in-place filter leaves the kept records in order in front and touches nothing behind the range |
| WorkQueueModel.FindWork | mqmx/work_queue.cpp:162-170 | the search finds the first record with the id, and fails only if there is none |
| WorkQueueModel.PostRefinesInsert | mqmx/work_queue.cpp:53-70 | posting is insertion into the map from ids to records; ids stay distinct if and only if the counter yields an id that is not pending |
| WorkQueueModel.UpdateRefinesReplace | mqmx/work_queue.cpp:159-195 | update_work is replacement at the id, with Success or NotFound as the id is pending or not |
| WorkQueueModel.CancelRefinesDelete | mqmx/work_queue.cpp:197-225 | the swap with the last record, the drop and the rebuild together delete exactly the id |
| WorkQueueModel.CancelClientRefinesDeleteAll | mqmx/work_queue.cpp:326-359 | cancel_client_works deletes exactly the client's records; Success if and only if there was one |
| WorkQueueModel.PopRefinesExtractMin | mqmx/work_queue.cpp:309-312 | popping extracts a minimum of the map |
| WorkQueueModel.NearestTimeIsMinimum | mqmx/work_queue.cpp:227-240 | get_nearest_time_point is the map's least time point, or the epoch for an empty map |
| WorkQueueModel.CounterCycles | mqmx/work_queue.cpp:60-61 | with the wrap-around of the word and the skipped invalid id, two posts draw the same id if and only if they are a multiple of the id space apart |
| WorkQueueRuns.NextKeepsInv | mqmx/work_queue.cpp:290-324 | every section of every thread keeps the heap, the timed-wait condition and what holds after a stop |
| WorkQueueTheorems.RunInv | mqmx/work_queue.cpp:53-359 | in every reachable state of both variants the invariant holds, and until the counter wraps ids are distinct, the record in the callback included |
| WorkQueueTheorems.TimedWaitAwaitsMinimum | mqmx/work_queue.cpp:255-266 | while the worker is blocked with no change flagged, it waits for the least pending time point; in virtual time that point is in the future unless a forward_time call has not posted its sentinel yet |
| WorkQueueTheorems.ExecutesLeastOnTime | mqmx/work_queue.cpp:290-312 | no work runs before its time point or after the stop, and what runs is least among all pending records |
| WorkerProgress.DueIsExecuted | mqmx/work_queue.cpp:290-324 | in every run of either variant, while a record is due the worker is not blocked, and if the next three steps are its own one of them executes a record that was least among all those pending |
| WorkerProgress.WakesOnTime | mqmx/work_queue.cpp:255-266 | when the clock, or a forward_time that does not wait, reaches the time point of a pending record, one of the next three steps of the worker executes a least one |
| WorkerProgress.WaitsAsSeen | mqmx/work_queue.cpp:255-266 | in every run, while the worker is blocked with no change flagged, the container is exactly as it was when the worker last looked at it: no change is missed |
| WorkerProgress.NothingDueBlocks | mqmx/work_queue.cpp:242-266 | with nothing due the worker alone executes nothing and is blocked after two steps, three if a callback was running: on an empty container, or until the least pending time point |
| WorkerProgress.WorkerCatchesUp | mqmx/work_queue.cpp:268-324 | left alone while the time stands still, the worker of either variant executes, in order, what is owed and nothing else; it stops after a bounded number of steps, and then all that was owed has been executed, each record is at its first later time point and the worker waits for the least of these |
| WorkQueueAnswers.FirstStopCounts | mqmx/work_queue.cpp:96-114 | of any number of calls of signal_worker_to_stop in a run exactly the first answers true, and the others change nothing |
| WorkQueueAnswers.AnswersAsPromised | mqmx/work_queue.cpp:79-359 | schedule_work, update_work, cancel_work and cancel_client_works answer InvalidArgument, NotAllowed, NotFound or Success as the arguments, the calls of signal_worker_to_stop before and the records in the container say; a call that does not answer Success changes nothing and gives no id |
| WorkQueueAnswers.ScheduledIsPending | mqmx/work_queue.cpp:53-94 | what schedule_work accepts is pending once, at its start or at the clock, under the id returned, which no other pending record has until ids wrap |
| WorkQueueTheorems.StopIsFinal | mqmx/work_queue.cpp:96-114 | after signal_worker_to_stop returned true no work runs, the worker is never blocked, and at most two of its steps lie before its exit with an empty container, also when a record is put back after its callback |
| WorkQueueTheorems.Provenance | mqmx/work_queue.cpp:53-195 | a kind of record that was absent once and is pending later was installed in between by schedule_work or update_work |
| WorkQueueTheorems.CancelIsFinal | mqmx/work_queue.cpp:212-225 | until ids wrap, an id cancelled with Success is never executed again |
| WorkQueueTheorems.UpdateIsFinal | mqmx/work_queue.cpp:173-195 | until ids wrap, after update_work returned Success another function runs under the id only if a later update_work put it there |
| WorkQueueTheorems.CancelClientLeaves | mqmx/work_queue.cpp:346-359 | what cancel_client_works leaves pending of the client is nothing or, exactly, the record whose callback is running |
| WorkQueueTheorems.CancelClientIsFinal | mqmx/work_queue.cpp:346-359 | if no record of the client is in the callback, which in the base class is always so, a work of the client runs afterwards only if it was installed afterwards |
| WorkQueueTheorems.CancelClientMissesCallback | mqmx/testing/work_queue_for_tests.cpp:119-131 | a run of the virtual-time queue in which cancel_client_works answers NotFound while the callback of the client's periodic work runs, and the work runs again though nothing was installed in between |
| ClientCancellation.SuspendedRunsAgain | mqmx/testing/work_queue_for_tests.cpp:119-131 | from every state before a stop in which a record waits in the callback to be put back, some steps of clients and worker that install nothing lead to its execution |
| ClientCancellation.CancelClientIsFinalIff | mqmx/work_queue.cpp:346-359 | for every run that ends in a cancel_client_works: some continuation runs an earlier work of the client again if and only if a record of the client was in the callback, which in the base class is never so |
| WorkQueueTheorems.ClientIdsDiffer | mqmx/work_queue.cpp:361-369 | in every run the n-th client id drawn is the n-th id and never the invalid one, and two are the same if and only if they were drawn a multiple of the id space apart |
| WorkQueueRefinement.ExecutesIffReady | mqmx/work_queue.cpp:290-307 | the worker, looking at the front of the heap, executes if and only if some least record of the map has a work and is due |
| WorkQueueRefinement.StepRefinesMap | mqmx/work_queue.cpp:53-359 | each step from a reachable state is the matching step on the map, guards included: insert, replace, delete, delete by client, extract a minimum that is due and put it back at its next time point |
| Forwarding.ReleasedIffNothingDue | mqmx/testing/work_queue_for_tests.cpp:113-117 | after the epoch, the sentinel's test for completion holds if and only if nothing left in the container is due |
| Forwarding.RearmedBelowRoot | mqmx/testing/work_queue_for_tests.cpp:110-118 | a sentinel armed again at the current time does not displace the due root, whichever of several due records pop_heap put there |
| Forwarding.DrainProgress | mqmx/testing/work_queue_for_tests.cpp:106-132 | each step of the worker pays one owed execution, or takes the sentinel from the root, or ends a wait, or releases the caller, after the epoch with nothing due: the measure for which the drain ends |
| Forwarding.DrainAccounts | mqmx/testing/work_queue_for_tests.cpp:106-132 | at any time, what the drain executed and what is then still owed are together what was owed |
| Forwarding.DrainIsExact | mqmx/testing/work_queue_for_tests.cpp:106-132 | after the epoch, for any conforming heap algorithms, the works executed are exactly those owed, each record left is at its first later time point, and none is due |
| Forwarding.DrainReleases | mqmx/testing/work_queue_for_tests.cpp:110-118 | the caller's semaphore is posted exactly once, and besides the container, the change flag and the worker's position nothing else has changed |
| Forwarding.DrainIsSorted | mqmx/testing/work_queue_for_tests.cpp:24-59 | works are executed in nondecreasing order of their time points |
| TimeForwarding.AheadAccounts | mqmx/testing/work_queue_for_tests.cpp:48-54 | in the window between the two sections of forward_time the worker may take any number of steps: what they execute and what is then owed are together what was owed |
| TimeForwarding.ForwardAccounts | mqmx/testing/work_queue_for_tests.cpp:24-59 | for every time, the epoch included, and however many steps the worker takes in the window: executed and still owed are together what was owed, and the caller is released once |
| TimeForwarding.ForwardIsSorted | mqmx/testing/work_queue_for_tests.cpp:24-59 | executions come in the order of their time points, across the window and the drain |
| TimeForwarding.ForwardIsExact | mqmx/testing/work_queue_for_tests.cpp:24-59 | the whole contract of a waited forward_time, from every state in which no other is under way, for every number of worker steps in the window, every layout of ties, every answers of the works and every time after the epoch |
| TimeForwarding.ExecutedAtMostOnce | mqmx/work_queue.cpp:268-283 | while ids are distinct, no pair of work id and time point is executed twice in one forward_time |
| TimeForwarding.RunsAsOwed | mqmx/work_queue.cpp:268-283 | the executions of one pending record in the log are exactly those it is owed |
| TimeForwarding.RunsPeriodically | mqmx/work_queue.cpp:274-277 | a pending work that always repeats is executed by forward_time floor((time - start) / period) + 1 times, once at each start + n * period up to the time and at no other time |
| TimeForwarding.RunsOnce | mqmx/work_queue.cpp:274-277 | a pending work that does not repeat is executed once if its time has come and is then gone, and otherwise is not executed and stays |
| TimeForwarding.ForwardComposes | mqmx/testing/work_queue_for_tests.cpp:24-59 | forwarding to t1 and then to t2 executes the same works and leaves the same records as forwarding straight to t2, however the worker's steps fall in the three calls |
| AnswerStreams.StreamProgress | mqmx/testing/work_queue_for_tests.cpp:106-132 | whatever is answered, each step of the drain comes nearer to its end, so it ends for every stream of answers |
| AnswerStreams.StreamIsOracle | mqmx/work_queue.cpp:268-283 | with an arbitrary answer for each step of the worker, no pair of work id and time point is called twice while ids are distinct, and the call is, execution by execution and in its final state, the one of the oracle that these answers make up |
| AnswerStreams.StreamIsExact | mqmx/testing/work_queue_for_tests.cpp:24-59 | so the contract of a waited forward_time holds for every stream of answers |
| OverlappingCalls.CallersAreBalanced | mqmx/testing/work_queue_for_tests.cpp:37-57 | in every run with any number of waited forward_time calls, a token and a pending sentinel each stand for a caller that waits, and until a client takes a sentinel away every caller that waits has one of the two |
| OverlappingCalls.LoneCallIsNotEarly | mqmx/testing/work_queue_for_tests.cpp:37-57 | a caller that waits alone finds no token while its sentinel is pending |
| OverlappingCalls.OverlappingCallsSpin | mqmx/testing/work_queue_for_tests.cpp:110-118 | once the sentinels of two calls are due together, the worker alone arms them again for ever, releases nobody and is never blocked |
| OverlappingCalls.LaterCallSpins | mqmx/testing/work_queue_for_tests.cpp:24-59 | for every two times, a run from the start in which a later call leads there |
| OverlappingCalls.EarlierCallReleases | mqmx/testing/work_queue_for_tests.cpp:24-59 | for every two times, a run from the start in which a call that sets the time back frees a token while the other call's sentinel is pending and not due, so that the other caller may be released early |
| EpochForwarding.EpochForwardIsExact | mqmx/testing/work_queue_for_tests.cpp:113-115 | forwarding to the epoch itself is exact when at most one record is pending at the epoch |
| EpochForwarding.EpochForwardIsExactIff | mqmx/testing/work_queue_for_tests.cpp:113-115 | for any works pending, it can be relied on, for every state, every steps of the worker and every layout of ties, if and only if at most one of them is at the epoch |
| EpochForwarding.EpochRunFallsShort | mqmx/testing/work_queue_for_tests.cpp:113-115 | a run with two works at the epoch in which the caller is released with the second one due and not executed |
| HeapAlgorithms.TopDownConforms | mqmx/work_queue.cpp:309-321 | the sifts that the class runs conform to what the theorems ask of the heap algorithms |
| WorkQueueClass.WorkQueue.PostWork | mqmx/work_queue.cpp:53-70 | the vector, flag and counter become what the model says; NotAllowed after the stop |
| WorkQueueClass.WorkQueue.ScheduleWork | mqmx/work_queue.cpp:79-94 | the argument check, the clock for an empty start, and the post |
| WorkQueueClass.WorkQueue.SignalWorkerToStop | mqmx/work_queue.cpp:96-114 | the container holds the termination record alone, and a second call answers false |
| WorkQueueClass.WorkQueue.UpdateWork | mqmx/work_queue.cpp:173-195 | search loop, replacement in place and rebuild leave the model's state and status |
| WorkQueueClass.WorkQueue.CancelWork | mqmx/work_queue.cpp:197-225 | search loop, swap, pop_back and rebuild leave the model's state and status |
| WorkQueueClass.WorkQueue.CancelClientWorks | mqmx/work_queue.cpp:326-359 | remove_if, erase and rebuild leave the model's state and status |
| WorkQueueClass.WorkQueue.GetClientId | mqmx/work_queue.cpp:361-369 | the n-th call gets the n-th id, which is never the invalid one; ClientIdsDiffer says when two calls get the same |
| WorkQueueClass.WorkQueue.WorkerSection | mqmx/work_queue.cpp:290-324 | one section of the worker over the array is the transition system's step |
| WorkQueueClass.WorkQueue.SettleRecord | mqmx/testing/work_queue_for_tests.cpp:106-132 | execute_work of both variants: release, arm again, callback or reschedule |
| WorkQueueClass.WorkQueue.ForwardTime | mqmx/testing/work_queue_for_tests.cpp:24-59 | both sections with the worker in between; the loop of the worker ends, and state and executed works are those of ForwardIsExact; false after the stop |
| WorkQueueClass.WorkQueue.RunWorkerUntilReleased | mqmx/testing/work_queue_for_tests.cpp:37-41 | while a caller waits, the worker's loop terminates in the drained state |
| Notifications.UpperBoundSplits | mqmx/message_queue_poll.cpp:24-25 | upper_bound splits an ascending list into ids not above and ids above |
| Notifications.NotifyCases | mqmx/message_queue_poll.cpp:16-41 | a queue in the list has its flags extended in place, a new one is inserted where the order wants it |
| Notifications.NotifyAllRepresents | mqmx/message_queue_poll.cpp:16-41 | after any calls the list is strictly ascending and is the map from ids to the first pointer and all flags reported |
| Notifications.ReorderingIsInvisible | mqmx/message_queue_poll.cpp:16-41 | reordering calls for different queues does not change the list |
| MessageQueueModel.InitialCallsReport | mqmx/message_queue_poll.h:187-198 | setting a fresh listener on each queue reports exactly the queues that had messages and no listener |
| MessageQueueRuns.RunInv | mqmx/message_queue.cpp:14-129 | over any operations on any number of queues, moves included: each message carries its queue's id, no id means empty, a queue with messages has told its listener exactly once since the later of attachment and last being empty, and contents are what was accepted less what was taken, in order |
| MessageQueueAnswers.ListenerIsSet | mqmx/message_queue.cpp:109-129 | in every run a queue's listener is the one that was set with Success and not taken off since by clear_listener, a move or the end of the queue |
| MessageQueueAnswers.AttachAnswers | mqmx/message_queue.cpp:109-123 | set_listener answers Success, attaches and tells of waiting messages if and only if no listener set before is still there; otherwise it answers AlreadyExist and nothing happens |
| MessageQueueAnswers.PushAnswers | mqmx/message_queue.cpp:74-95 | InvalidArgument for no message, NotSupported for a message of another queue or without an id of one's own, and nothing happens; otherwise Success, the message goes last, and the listener is told of the first one only |
| MessageQueueAnswers.PopAnswers | mqmx/message_queue.cpp:97-107 | in every run pop gives the oldest message, and none exactly when the queue is empty |
| MessageQueueAnswers.DetachAnswers | mqmx/message_queue.cpp:125-129 | clear_listener takes the listener off and tells nobody |
| MessageQueueAnswers.ConstructTransfers | mqmx/message_queue.cpp:14-31 | move construction hands over id and messages, leaves both objects without a listener and the source refusing every message, and tells the listener that was attached once, with the queue's id and the source's address |
| MessageQueueAnswers.AssignTransfers | mqmx/message_queue.cpp:33-59 | the same for move assignment, with the listener of the overwritten queue told first; self-assignment changes nothing |
| MessageQueueAnswers.DeleteTells | mqmx/message_queue.cpp:61-67 | the destructor tells the listener that the queue is closed, without an address |
| MessageQueueClass.PollListener.Notify | mqmx/message_queue_poll.cpp:16-41 | binary search and update of the vector in place leave the list that NotifyAllRepresents is about |
| MessageQueueClass.MessageQueue.Push | mqmx/message_queue.cpp:74-95 | the error cases, the append, and a notification for the first message only |
| MessageQueueClass.MessageQueue.Pop | mqmx/message_queue.cpp:97-107 | the oldest message, or none when empty or moved out |
| MessageQueueClass.MessageQueue.SetListener | mqmx/message_queue.cpp:109-123 | AlreadyExist, or attached and told at once if there are messages |
| MessageQueueClass.MessageQueue.MoveFrom | mqmx/message_queue.cpp:14-31 | move construction of the objects, listener notified with the source's address |
| MessageQueueClass.MessageQueue.MoveAssign | mqmx/message_queue.cpp:33-59 | move assignment of the objects, aliasing of the two listeners and self-assignment included |
| MessageQueueClass.MessageQueue.Destroy | mqmx/message_queue.cpp:61-67 | the listener is told that the queue is closed, without an address |
| MessageQueueClass.Poll | mqmx/message_queue_poll.h:227-235 | with nobody else at the queues, poll returns exactly the queues that have messages, in order of id, and leaves no listener behind |
| PoolInvariant.PushKeepsPollInv | mqmx/message_queue.cpp:74-95 | a push at any instant finds every listener alive and keeps every list exact |
| PoolWorkerSteps.PollStepKeepsPoll | mqmx/message_queue_poll.h:187-212 | one attach, wait or detach of a poll keeps its list equal to the attached queues that have messages |
| PoolHandlerSteps.InsertKeepsOrder | mqmx/message_queue_pool.cpp:54-57 | the loop of the add request keeps the list ascending behind control, and the assertion after it holds |
| PoolHandlerSteps.EraseKeepsOrder | mqmx/message_queue_pool.cpp:65-69 | the remove request takes out exactly its queue |
| PoolHandlerSteps.NextKeepsInv | mqmx/message_queue_pool.cpp:39-226 | every step of any number of clients and of the worker, in any interleaving, keeps the invariant |
| PoolTheorems.RunInv | mqmx/message_queue_pool.cpp:39-226 | the invariant holds in every reachable state |
| PoolTheorems.NeverFaults | mqmx/message_queue_pool.cpp:56-111 | no assertion fails, no front of an empty list is read, no dead listener is notified and no destroyed queue is followed, in any run |
| PoolTheorems.InUseIsAlive | mqmx/message_queue_pool.cpp:104-146 | every queue in the list of queues or in the part of the snapshot not yet handled exists, and its removal, if asked for, is not answered yet |
| PoolTheorems.RemovedIsNeverUsed | mqmx/message_queue_pool.cpp:209-226 | once remove_queue has returned, no pointer to the queue is followed again and its id is not reused |
| PoolTheorems.TailIsForUsers | mqmx/message_queue_pool.cpp:110-135 | control's record is handled first and only by control's handler; the rest of a snapshot names queues whose handlers are set |
| PoolTheorems.NoLostWakeup | mqmx/message_queue_poll.h:136-158 | while the worker waits it listens to every registered queue, and its list is empty if and only if all of them are |
| PoolTheorems.PushWakes | mqmx/message_queue.cpp:88-93 | a push to a registered queue wakes the sleeping worker with that queue's record |
| PoolTheorems.FrontIsDefined | mqmx/message_queue_pool.cpp:108-111 | when the worker's poll returns, the list has a front |
| PoolTheorems.NoDeadlock | mqmx/message_queue_pool.cpp:104-226 | the worker stands still only when it has ended, when a client in is_poll_idle can step, or when all queues are empty and no caller waits for an answer |
| PoolTheorems.PauseProtocol | mqmx/message_queue_pool.cpp:124-157 | for any number of callers: tokens and callers inside add up to one while the worker is paused and to none otherwise, and two polls never overlap |
| PoolTheorems.AttachSucceeds | mqmx/message_queue_poll.h:193-197 | the result of set_listener that the poll ignores is always Success |
| PoolTheorems.PollIsUndisturbed | mqmx/message_queue_pool.cpp:148-157 | while a client polls, the list of queues stands still and the worker stays paused, whatever any thread does |
| PoolHistory.AllocateReturnsListed | mqmx/message_queue_pool.cpp:184-207 | allocate_queue returns only after the worker put the queue into its list, where it has been since; its semaphore is posted once and never again |
| PoolHistory.RemoveReturnsUnlisted | mqmx/message_queue_pool.cpp:209-226 | remove_queue returns only after the worker took the queue out and dropped its snapshot; its semaphore is posted once and never again |
| PoolHistory.IdleAnswerIsExact | mqmx/message_queue_pool.cpp:148-157 | is_poll_idle answers true if and only if, at the instant the poll of that very call took its snapshot, all registered queues were empty, control among them, with the worker paused |
| PoolHistory.ExactlyOnceInOrder | mqmx/message_queue_pool.cpp:77-144 | in every run, what users pushed to a queue is what its handler was given, in order, followed by what is still queued |
| PoolDispatch.SuccessGoesOn | mqmx/message_queue_pool.cpp:90-102 | after a handler answered Success, whatever clients do meanwhile, the worker's next step hands over the oldest message of the same queue, if there is one, and nothing else |
| PoolDispatch.SuccessHandsNext | mqmx/message_queue_pool.cpp:90-102 | so if the queue has messages left, the next message that any step of the run hands over is its oldest |
| PoolDispatch.RefusalLeaves | mqmx/message_queue_pool.cpp:93-98 | after a handler refused or threw, nothing of its queue is handed over before the worker has taken another snapshot |
| PoolDispatch.EveryRecordIsServed | mqmx/message_queue_pool.cpp:104-146 | between two snapshots of the worker each user queue of the first has had a message handed over, whatever handlers answered, unless a message of control made the worker drop the snapshot |
| PoolDispatch.ControlGoesOn | mqmx/message_queue_pool.cpp:90-102 | control's messages are taken one after another until one drops the snapshot or none is left |
| PoolDispatch.StaleIsNotFollowed | mqmx/message_queue_pool.cpp:80-84 | a record that says closed or detached is passed over without following its address |
| PoolProgress.WorkNearer | mqmx/message_queue_pool.cpp:104-146 | each step of the worker takes a message or comes nearer to taking one |
| PoolProgress.RunAlone | mqmx/message_queue_pool.cpp:104-146 | left alone the worker comes to rest after finitely many steps, having only answered requests |
| PoolProgress.LeftAloneDelivers | mqmx/message_queue_pool.cpp:104-226 | from every reachable state, whatever handlers do, the worker alone comes to rest with every message of a registered queue handed over, every waiting caller answered and a pool being destroyed ended, or to a pause in which a caller of is_poll_idle can step |
| PoolProgress.EverythingComesToRest | mqmx/message_queue_pool.cpp:104-226 | from every reachable state, every schedule of the worker and of the calls of is_poll_idle ends, with each such call returned and everything delivered and answered |
| PoolProgress.RequestsAreAnswered | mqmx/message_queue_pool.cpp:198-226 | from every reachable state and by every such schedule, each waiting allocate_queue and remove_queue comes to where it can return |
| PoolProgress.FirstQueueIsUsable | mqmx/message_queue_pool.cpp:159-207 | an instance from the start of a new pool, for every capacity: the first queue is listed and its caller returns |
| PoolLocking.WholeUnseen | mqmx/message_queue.cpp:97-129 | a step that notifies nobody does the same whatever the queues contain that others hold locked |
| PoolLocking.MachineRefinesPool | mqmx/message_queue.cpp:74-123 | every run in which any number of threads stand between changing a queue and telling its listener, the poll's snapshot taken meanwhile included, is a run of the pool, whose steps come in the order of the notifications; it never faults, and when nobody stands in between memory is the pool's state |
| PoolClass.MessageQueuePool.Enqueue | mqmx/message_queue.cpp:88-93 | the push and its notification over the pool's state |
| PoolClass.MessageQueuePool.FreeSlot | mqmx/message_queue_pool.cpp:192-195 | the loop over the handlers finds the first one not set |
| PoolClass.MessageQueuePool.BeginAllocate | mqmx/message_queue_pool.cpp:184-203 | allocate_queue up to its wait; a null pointer and no change without a handler |
| PoolClass.MessageQueuePool.BeginRemove | mqmx/message_queue_pool.cpp:209-223 | remove_queue up to its wait, with InvalidArgument and NotFound |
| PoolClass.MessageQueuePool.BeginIdle | mqmx/message_queue_pool.cpp:150-151 | is_poll_idle up to its first wait |
| PoolClass.MessageQueuePool.FinishIdle | mqmx/message_queue_pool.cpp:153-156 | the poll of a paused pool and the resume: true if and only if all registered queues were empty, with no message touched and one resume token left |
| PoolClass.MessageQueuePool.ControlQueueHandler | mqmx/message_queue_pool.cpp:39-75 | status, list and semaphore for each control message, with the two loops |
| PoolClass.MessageQueuePool.Work | mqmx/message_queue_pool.cpp:77-146 | one step of the worker's loop is the transition system's step |
| PoolClass.MessageQueuePool.RunUntilBlocked | mqmx/message_queue_pool.cpp:104-146 | the worker's loop without interference terminates in the state that LeftAloneDelivers describes |

## Left out

- WorkQueueTheorems.CancelIsFinal: stated for runs in which fewer ids have been drawn than there are; after the counter has wrapped, an id may name another work (CounterCycles says when).
- WorkQueueTheorems.UpdateIsFinal: as for CancelIsFinal.
- TimeForwarding.ForwardIsExact: no other client acts during the call; what other clients' steps do in the meantime is covered by the run theorems, not by an account of executions.
- PoolHandlerSteps.NextKeepsInv: there is no step that reuses a handler's slot, because the code never frees one; exhaustion of the capacity is excluded.
- PoolClass.MessageQueuePool.RunUntilBlocked: the endless loop of the worker appears as the loop that runs while it can step; a run with clients stepping in between is covered by the transition system, not by the class.
- Progress under interference: one handler loop can run for ever while a producer keeps pushing, so that the pool comes to rest is shown for schedules in which nobody pushes; is_poll_idle calls may be under way.
- start_worker, kill_worker and the joining of threads: the model starts with a running worker and ends with its exit.
- Spurious wakeups, and waits with a timeout in poll: they change no state that other threads see.
- Conversions between clocks, the overflow of durations, and wait_time_provider: whole numbers and an arbitrary clock stand for them.
- is_idle of the work queue, and forward_time by a duration or to the nearest time point: each computes its argument and calls what is modelled.
- The contents of messages and the types behind new_message and enqueue.
- C++ object lifetime beyond the pool's queues and listeners.
