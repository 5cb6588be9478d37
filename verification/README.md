# Scheduling simulator, text console and parallel sums, verified

A Dafny model of three parts of the repository, and proofs of what they do on every input.

**The process-scheduling simulator and its five schedulers.** `Schedulers.dfy` has the five
policies as transitions on values, in one state record; `Simulation.dfy` composes them with the
simulator's tick. The theorems about whole runs are in `WholeRuns.dfy` (any policy),
`OrderIndependence.dfy` (two runs on permuted input), `FcfsRuns.dfy`, `RoundRobinRuns.dfy`,
`FeedbackRuns.dfy`, `QueueOrder.dfy`, `ResponseTime.dfy`, `CustomRuns.dfy`, `SmartQueue.dfy` and
`SmartOrder.dfy`. Together the last three determine custom's choice on every tick from the input and
the output so far.
The pointer code itself - sentinels, links, a current process outside the queues, histories that
alias process counters - is in `LinkedQueue.dfy`, `QueueBank.dfy`, `HistoryList.dfy` and
`PointerScheduler.dfy`, each method proved equal to its transition, and `Driver.dfy` is
`run_simulation` over the array of records, driving that pointer code.

**The scrolling console of tutorial 8's kernel.** `Paper.dfy` is a terminal on an endless roll of
paper; `Console.dfy` is the code in the video memory, proved to show a 25-row window of it. What a
single newline, tab or other byte does to the cells is proved as literal values, and any message is
those one after the other.

**The three programs of assignment 2.** `Sums.dfy` has the loop and the forked version,
`Threads.dfy` the threaded one as interleaved steps. What a parent sees of an exit value is its
low 8 bits, as the `exit()` page of the System Interfaces volume of POSIX.1-2017, section 3, says.

## How the model reads the code

- The five scheduler files declare the same kinds of globals, and `simulator.c` includes one of them
  as `scheduler.c`. The model has one class with the union of those globals and a policy that says which file was included. The copy of
  `fcfs.c` among the submissions is identical to the one modelled.
- What `main` checks of its input is the predicate `ValidInput`: PIDs unique and not 0, processing
  times positive. The upper bounds it also checks are not needed by any proof. Every counter is
  bounded by the tick or by a processing time (`Simulation.TickOf`, `CustomRuns.HistoriesKeepStep`),
  and both stay at or below 1,000,000, so naturals stand for unsigned ints without wrap-around.
- Allocation succeeds. `free` is removal from the live set; no history may point outside it.
- `printf` becomes the sequence of PIDs that `Driver.RunSimulation` returns; debug output is left out.
- Scores are exact reals. `-DBL_MAX`, the score no process can lose against, is "no candidate yet".
- The test `index < 0` in `simulator.c` is on an unsigned value and never fires. That the array
  access is in bounds rests on the scheduler returning only PIDs it was given, which is proved.
- The header of `rr.c` and its comments describe round robin, but a requeued process keeps its
  quantum counter and is never requeued again; the model follows the code
  (`RoundRobinRuns.BurstLaw`).
- The simulator's documentation asks for positive arrival times and PIDs below 1,000,000; the code
  accepts arrival time 0 and rejects PID 999,999. The model accepts every arrival time.
- In `Requeue` the quantum is reset before the node is linked, in `custom.c` afterwards; nothing
  reads it in between.

## Model

| member | source | states |
|---|---|---|
| ReadyQueue.InsertAmongNewcomers | assignments/assignment4/simulator/submissions/submission/rr.c:81-96 | on a list of older arrivals in any order followed by this tick's arrivals by PID, the two skip loops put a newcomer behind every older process and in PID order among the newcomers |
| SchedulerContract.AddContract | assignments/assignment4/simulator/submissions/submission/constant.c:86-126 | under every policy, handing over an unknown process adds exactly that job, unserved, and loses nothing; custom gains exactly one history |
| SchedulerContract.NextContract | assignments/assignment4/simulator/submissions/submission/constant.c:140-196 | under every policy, a call serves exactly one held job by one unit, drops it only when it is complete, returns its PID, and returns 0 exactly when nothing is held; the state stays well formed |
| SchedulerContract.ServesFcfs | assignments/assignment4/simulator/algorithms/fcfs.c:107-136 | the contract for fcfs: the scan for an unfinished process stops at the head |
| SchedulerContract.ServesRoundRobin | assignments/assignment4/simulator/submissions/submission/rr.c:118-157 | the contract for rr: finishing, rotating and staying put all conserve the jobs |
| SchedulerContract.ServesFeedback | assignments/assignment4/simulator/submissions/submission/exponential.c:137-194 | the contract for both feedback queues, whatever the quantum function |
| SchedulerContract.ServesCustom | assignments/assignment4/simulator/submissions/submission/custom.c:336-387 | the contract for custom: with a history for every process the selection never comes back empty-handed from a non-empty smart queue |
| SchedulerContract.CustomHistoriesKept | assignments/assignment4/simulator/submissions/submission/custom.c:102-118 | after every call there is a history for a PID exactly when a live process has it |
| Simulation.ArriveContract | assignments/assignment4/simulator/simulator.c:182-187 | part-way through the hand-over loop the scheduler holds exactly the processes handed over so far and the ones it had |
| Simulation.TickAgrees | assignments/assignment4/simulator/simulator.c:180-219 | one tick keeps the scheduler's and the simulator's bookkeeping equal; the PID is 0 exactly when nothing is pending and otherwise names a pending record, which is the one charged |
| Simulation.AlwaysAgree | assignments/assignment4/simulator/simulator.c:177-221 | in every reachable state, for every policy and workload, the scheduler holds exactly the arrived unfinished processes, once each, with the service the simulator has recorded |
| Simulation.TickOf | assignments/assignment4/simulator/simulator.c:193-211 | a process is charged on a tick exactly when its PID is printed, and then it has arrived and is unfinished, so it is never scheduled for too long; the end time changes only with the last unit |
| Simulation.SomeoneRuns | assignments/assignment4/simulator/simulator.c:159-166 | the PID search finds the process for every non-zero PID a scheduler returns, so the array access is safe |
| Simulation.ChosenRuns | assignments/assignment4/simulator/simulator.c:190-202 | the process a scheduler charges and the record the simulator charges are the same process with the same progress |
| OrderIndependence.NewcomersSorted | assignments/assignment4/simulator/simulator.c:182-187 | the arrivals of one tick end up as one block in PID order, whatever their order in the array |
| OrderIndependence.ArriveAppends | assignments/assignment4/simulator/submissions/submission/custom.c:216-228 | that block goes behind everything already queued, under every policy |
| OrderIndependence.ArriveHistories | assignments/assignment4/simulator/submissions/submission/custom.c:51-84 | every arrival starts a blank history and no other history changes, whatever the order of insertion |
| OrderIndependence.NewcomersGoLast | assignments/assignment4/simulator/submissions/submission/rr.c:82-96 | in every run the ready queue on a tick is the older arrivals as they were, then the newcomers by PID; nothing that has started is overtaken |
| OrderIndependence.OrderOfInputIsIrrelevant | assignments/assignment4/simulator/simulator.c:180-219 | permuting the process array changes neither the PID of any tick nor the record of any process, for each of the five policies |
| WholeRuns.LatestEndIsMax | assignments/assignment4/simulator/simulator.c:180-180 | the finish tick is the maximum over all processes of arrival time plus all processing time arriving from then on |
| WholeRuns.WorkConserving | assignments/assignment4/simulator/simulator.c:180-219 | before every tick the work left is a function of the input alone, and a tick idles exactly when none of it has arrived |
| WholeRuns.SameIdleTicks | assignments/assignment4/simulator/simulator.c:213-218 | any two of the five policies idle on exactly the same ticks |
| WholeRuns.FinishesAt | assignments/assignment4/simulator/simulator.c:141-148 | under every policy something is still running before tick t exactly when t is below the finish tick |
| WholeRuns.TicksAreProgress | assignments/assignment4/simulator/simulator.c:202-218 | a PID is printed exactly as often as its process has been charged |
| WholeRuns.UnitTick | assignments/assignment4/simulator/simulator.c:202-202 | each unit of a process's progress was run on a tick of its own |
| WholeRuns.EndTimeIsLastTick | assignments/assignment4/simulator/simulator.c:203-205 | the recorded end time is the tick of the last unit; the PID is never printed again |
| WholeRuns.TicksSinceArrival | assignments/assignment4/simulator/simulator.c:182-202 | counted from its arrival on, a PID is also printed exactly as often as its process has been charged |
| WholeRuns.RunsOrWaits | assignments/assignment4/simulator/simulator.c:180-219 | from arrival to completion every tick goes to the process or to another one; none idles |
| WholeRuns.CompletedProcess | assignments/assignment4/simulator/simulator.c:230-243 | after a completed run each PID occurs exactly processing-time times, never before arrival, last at the end time; the reported turnaround is the number of ticks from arrival through the end time on which this or another PID ran, the reported wait the number on which another one did, so the unsigned subtractions never wrap |
| FcfsRuns.AlwaysOnSchedule | assignments/assignment4/simulator/algorithms/fcfs.c:69-136 | on every tick the fcfs list is the arrived part of the sorted input from the first incomplete process on, and its head is exactly on schedule |
| FcfsRuns.OccupiesItsBlock | assignments/assignment4/simulator/algorithms/fcfs.c:107-136 | the k-th process by arrival and PID runs on exactly the ticks from max(completion of the one before, arrival) for its processing time |
| FcfsRuns.ClosedForm | assignments/assignment4/simulator/algorithms/fcfs.c:69-136 | the same for input in any order, and its end time is the last tick of its block |
| RoundRobinRuns.QuantumAlwaysProgress | assignments/assignment4/simulator/submissions/submission/rr.c:125-156 | in rr the quantum counter always equals the progress, because requeueing does not reset it |
| RoundRobinRuns.KeepsRunning | assignments/assignment4/simulator/submissions/submission/rr.c:133-154 | a process that has neither finished nor just had its third unit runs again on the next tick |
| RoundRobinRuns.BurstLaw | assignments/assignment4/simulator/submissions/submission/rr.c:125-156 | the ticks of a process are one contiguous burst when it needs at most 3 units, otherwise a burst of exactly 3 and later one uninterrupted burst of all the rest |
| QueueOrder.AheadRunsFirst | assignments/assignment4/simulator/submissions/submission/constant.c:142-193 | in rr and both feedback schedulers, of two processes in one queue the one ahead runs before the other runs |
| QueueOrder.RoundRobinTurn | assignments/assignment4/simulator/submissions/submission/rr.c:146-154 | after its third unit a process that needs more runs again only after every process pending at that time has run |
| QueueOrder.LeastServedFirst | assignments/assignment4/simulator/submissions/submission/constant.c:142-150 | when a feedback scheduler dispatches a process, no pending process belongs to a higher level by the service it has had |
| QueueOrder.NotPreempted | assignments/assignment4/simulator/submissions/submission/constant.c:142-142 | a process in the middle of its quantum runs again on the next tick, whatever arrives |
| QueueOrder.FeedbackTurn | assignments/assignment4/simulator/submissions/submission/exponential.c:176-191 | a process that has used up its quantum runs again only after every process waiting at the level it moves to has run |
| FeedbackRuns.BaseClosedForm | assignments/assignment4/simulator/submissions/submission/exponential.c:177-178 | the service received on the way to level k is 3k(k+1)/2 (constant) and k(k+1)(2k+1)/3 (exponential) |
| FeedbackRuns.BurstLaw | assignments/assignment4/simulator/submissions/submission/constant.c:157-193 | in every reachable state a process queued at level k has an unused quantum and has received exactly that much, plus whole last quanta at level 3 |
| FeedbackRuns.DispatchedAtPoint | assignments/assignment4/simulator/submissions/submission/constant.c:142-150 | a process is taken out of a queue exactly on the ticks on which its service is one of those amounts |
| FeedbackRuns.DispatchLaw | assignments/assignment4/simulator/submissions/submission/exponential.c:139-191 | how often a process has been dispatched is a function of the service it has had, whatever the workload |
| FeedbackRuns.DispatchesOverRun | assignments/assignment4/simulator/submissions/submission/exponential.c:139-191 | over a whole run it is dispatched as often as its processing time alone says, in closed form |
| ResponseTime.FirstRun | assignments/assignment4/simulator/submissions/submission/constant.c:142-193 | behind k others in the top queue a process runs within what is left of the current quantum and k top quanta, whatever arrives meanwhile |
| ResponseTime.ResponseBound | assignments/assignment4/simulator/submissions/submission/exponential.c:139-191 | a process with k ahead of it on arrival first runs within 11+3k (constant), 31+2k (exponential), 3+2k (custom) ticks |
| CustomRuns.WaitAllEffect | assignments/assignment4/simulator/submissions/submission/custom.c:266-279 | a history's wait time grows by the number of queue entries with its PID |
| CustomRuns.ScoringKeepsCounts | assignments/assignment4/simulator/submissions/submission/custom.c:286-308 | the scan of the smart queue writes nothing but scores |
| CustomRuns.HistoriesKeepStep | assignments/assignment4/simulator/submissions/submission/custom.c:355-384 | on every tick, after the arrivals, wait time plus service plus arrival time is the tick for each live process; fast-queue members are unserved, smart-queue members have 4 times their reschedules less 2 units and a full quantum |
| CustomRuns.WaitTimeAtCompletion | assignments/assignment4/simulator/submissions/submission/custom.c:369-375 | the wait time a history holds when it is freed is the wait time the simulator reports for that process |
| SmartQueue.SelectsFirstBest | assignments/assignment4/simulator/submissions/submission/custom.c:286-326 | on a non-empty smart queue the selection takes the earliest process of maximal score and leaves the others in order |
| SmartQueue.DominatorScoresHigher | assignments/assignment4/simulator/submissions/submission/custom.c:132-143 | at equal service and reschedules a shorter or longer-waiting process scores strictly higher |
| SmartQueue.ReschedulesForWaiting | assignments/assignment4/simulator/submissions/submission/custom.c:132-143 | one more reschedule strictly lowers the score; two more are paid for exactly by as many further ticks of waiting as the process has had units, plus one |
| SmartQueue.ReschedulesForShare | assignments/assignment4/simulator/submissions/submission/custom.c:120-142 | five times the whole time per unit left is worth exactly twelve reschedules |
| SmartQueue.DominatedNeverChosen | assignments/assignment4/simulator/submissions/submission/custom.c:286-318 | in no run is a process chosen while one of equal service that is no longer and has waited no less, and differs, is in the smart queue |
| SmartQueue.FreshFirst | assignments/assignment4/simulator/submissions/submission/custom.c:337-348 | a process that has run is taken only when every pending process has run |
| SmartQueue.NotPreemptedByCustom | assignments/assignment4/simulator/submissions/submission/custom.c:377-384 | away from 2, 6, 10, ... units a process keeps the processor |
| SmartOrder.OrderKept | assignments/assignment4/simulator/submissions/submission/custom.c:312-318 | of two processes in one queue of custom, neither of which runs on a tick, the one ahead stays ahead in that queue, whichever is taken out and whoever joins |
| SmartOrder.RequeuedLast | assignments/assignment4/simulator/submissions/submission/custom.c:247-256 | a process whose new progress is 2, 6, 10, ... and not all it needs is the last of the smart queue on the next tick |
| SmartOrder.SmartQueueByLastRun | assignments/assignment4/simulator/submissions/submission/custom.c:377-384 | in every run the smart queue is in the order in which its members last ran |
| SmartOrder.ChoiceInWholeNumbers | assignments/assignment4/simulator/submissions/submission/custom.c:286-326 | which process custom takes from the smart queue follows from the input and the output so far: the highest ratio of two whole numbers in its service, its wait since arrival and its time left, with no history involved, and of equal ratios the one that ran longest ago; everything waiting has run 2, 6, 10, ... units |
| SmartOrder.FreshInArrivalOrder | assignments/assignment4/simulator/submissions/submission/custom.c:337-341 | of the processes that have not run custom takes the earliest arrival, and of one tick the lowest PID |
| SmartOrder.PidOrderOfEquals | assignments/assignment4/simulator/submissions/submission/custom.c:286-384 | of two processes with equal arrival and processing times the lower PID has never had less service on any tick, and ends first |
| LinkedQueue.ProcessQueue.AddNext | assignments/assignment4/simulator/submissions/submission/constant.c:60-63 | two link assignments insert the node in the chain and in what it holds; the chain stays acyclic |
| LinkedQueue.ProcessQueue.RemoveNext | assignments/assignment4/simulator/submissions/submission/constant.c:72-78 | one link assignment takes the node out; nothing is said of its own stale link |
| LinkedQueue.ProcessQueue.InsertSorted | assignments/assignment4/simulator/submissions/submission/constant.c:98-112 | the loops over links insert at the position the skip functions give |
| LinkedQueue.ProcessQueue.Append | assignments/assignment4/simulator/submissions/submission/constant.c:186-191 | the loop to the end of the list appends |
| LinkedQueue.ProcessQueue.FindUnfinished | assignments/assignment4/simulator/algorithms/fcfs.c:108-134 | the scan returns the cell in front of the first unfinished process |
| LinkedQueue.ProcessQueue.FindBefore | assignments/assignment4/simulator/submissions/submission/custom.c:312-315 | the walk from the sentinel reaches the cell in front of the chosen node |
| LinkedQueue.ProcessQueue.ChargeAt | assignments/assignment4/simulator/submissions/submission/rr.c:125-129 | counting a unit on a node changes that process in what the list holds and no other |
| QueueBank.PriorityQueues.RemoveNext | assignments/assignment4/simulator/submissions/submission/constant.c:143-149 | taking a node out of one queue leaves the others and makes it a member of none |
| QueueBank.PriorityQueues.Append | assignments/assignment4/simulator/submissions/submission/constant.c:185-191 | appending a node that is in no queue keeps the queues disjoint |
| QueueBank.PriorityQueues.InsertSorted | assignments/assignment4/simulator/submissions/submission/constant.c:96-112 | the same for a new process in the first queue |
| HistoryList.HistoryNode.CalculateNewScore | assignments/assignment4/simulator/submissions/submission/custom.c:124-144 | for the process the history points at, the score whose exchange rates and choices SmartQueue and SmartOrder fix |
| HistoryList.ProcessHistories.Init | assignments/assignment4/simulator/submissions/submission/custom.c:51-84 | links a blank history that points at the process behind the sentinel, allocating that first if need be |
| HistoryList.ProcessHistories.Get | assignments/assignment4/simulator/submissions/submission/custom.c:87-100 | returns the history with the PID, or null exactly when there is none |
| HistoryList.ProcessHistories.Free | assignments/assignment4/simulator/submissions/submission/custom.c:103-118 | removes exactly the history with the PID |
| HistoryList.ProcessHistories.AddWait | assignments/assignment4/simulator/submissions/submission/custom.c:270-275 | counts one tick on the history with the PID, if there is one |
| HistoryList.ProcessHistories.AddReschedule | assignments/assignment4/simulator/submissions/submission/custom.c:381-381 | counts one reschedule |
| HistoryList.ProcessHistories.Rescore | assignments/assignment4/simulator/submissions/submission/custom.c:293-300 | stores the new score and nothing else |
| PointerScheduler.Scheduler.AddToReadyQueue | assignments/assignment4/simulator/submissions/submission/custom.c:195-242 | on the heap, the hand-over is Add of the value model; queues disjoint, every live process aliased by its one history |
| PointerScheduler.Scheduler.Take | assignments/assignment4/simulator/submissions/submission/constant.c:145-146 | the current process is in none of the queues although its link is not cleared |
| PointerScheduler.Scheduler.Finish | assignments/assignment4/simulator/submissions/submission/custom.c:370-375 | freeing a process takes its history with it, so no history points at a freed process |
| PointerScheduler.Scheduler.Requeue | assignments/assignment4/simulator/submissions/submission/constant.c:185-192 | the current process goes to the end of a queue with a new quantum |
| PointerScheduler.Scheduler.NextFcfs | assignments/assignment4/simulator/algorithms/fcfs.c:107-136 | the pointer code returns the PID and reaches the state of the value model |
| PointerScheduler.Scheduler.NextRoundRobin | assignments/assignment4/simulator/submissions/submission/rr.c:118-157 | the same for rr |
| PointerScheduler.Scheduler.SelectFeedback | assignments/assignment4/simulator/submissions/submission/constant.c:142-150 | the loop over the sentinels takes the head of the first non-empty queue |
| PointerScheduler.Scheduler.NextFeedback | assignments/assignment4/simulator/submissions/submission/exponential.c:137-194 | the same as NextFcfs for constant and exponential |
| PointerScheduler.Scheduler.UpdateWaitTimes | assignments/assignment4/simulator/submissions/submission/custom.c:266-279 | the nested loops over links and histories are the wait-time update of the value model |
| PointerScheduler.Scheduler.ScanSmartQueue | assignments/assignment4/simulator/submissions/submission/custom.c:287-308 | the scan through links and aliased counters finds what the scan of the value model finds |
| PointerScheduler.Scheduler.SelectBest | assignments/assignment4/simulator/submissions/submission/custom.c:286-326 | and unlinks it |
| PointerScheduler.Scheduler.SelectCustom | assignments/assignment4/simulator/submissions/submission/custom.c:337-348 | fast queue first, then the best of the smart queue |
| PointerScheduler.Scheduler.NextCustom | assignments/assignment4/simulator/submissions/submission/custom.c:336-387 | the same as NextFcfs for custom, whose requeueing at the tail SmartOrder fixes |
| PointerScheduler.Scheduler.GetNextScheduledProcess | assignments/assignment4/simulator/simulator.c:39-42 | whichever file is included, the call is Next of the value model |
| Driver.IsStillRunning | assignments/assignment4/simulator/simulator.c:141-148 | true exactly when some record is unfinished |
| Driver.GetPidIndex | assignments/assignment4/simulator/simulator.c:159-166 | the first index with the PID, or -1 as an unsigned int |
| Driver.HandOver | assignments/assignment4/simulator/simulator.c:182-187 | the loop over the array hands the tick's arrivals to the scheduler |
| Driver.GiveUnit | assignments/assignment4/simulator/simulator.c:202-210 | one unit to the record, its end time with the last one; the too-long branch is dead |
| Driver.RunSimulation | assignments/assignment4/simulator/simulator.c:177-221 | TRUE exactly when the finish tick is within the bound; one PID per tick until then, those of the run above; the final records are those of that run |
| Driver.CompletedReport | assignments/assignment4/simulator/simulator.c:202-243 | a record after a completed run against the output alone: its PID occurs processing-time times, never before arrival and last at the end time; no entry from arrival through the end time is 0, the reported turnaround is the number of those entries and the reported wait the number of them that name another process |
| Driver.Simulate | assignments/assignment4/simulator/simulator.c:316-394 | from checked input to output, under every policy: success exactly when the finish tick is within the bound, and then every record is reported so |
| Paper.WriteAppend | tutorials/tutorial8/kernel.c:190-227 | writing two messages is writing their concatenation |
| Paper.PlainText | tutorials/tutorial8/kernel.c:206-210 | a message without bytes 9 and 10 that ends above cell 2000 puts each byte in its own cell in colour 7, changes no other cell and moves the cursor by its length |
| Paper.NewlineWritten | tutorials/tutorial8/kernel.c:193-198 | byte 10 in any column of a row writes spaces exactly up to the end of the row and leaves the cursor at the start of the next; in the last row the screen then scrolls by one row |
| Paper.TabWritten | tutorials/tutorial8/kernel.c:199-223 | byte 9 writes exactly 8 spaces; past the last cell the screen then scrolls by one row |
| Paper.ByteWritten | tutorials/tutorial8/kernel.c:206-223 | any other byte changes its cell only; in the last cell the screen then scrolls by one row |
| Paper.ScreenCleared | tutorials/tutorial8/kernel.c:239-245 | 25 newlines from the top left blank every cell although the last one scrolls |
| Console.VideoConsole.WriteChar | tutorials/tutorial8/kernel.c:180-187 | writes the character byte and the colour byte, foreground in the low and background in the high nibble, of the addressed cell up to and including cell 2000, and no other byte |
| Console.VideoConsole.ScrollUp | tutorials/tutorial8/kernel.c:214-221 | the overlapping forward copy moves the window one row down the paper |
| Console.VideoConsole.PutNewline | tutorials/tutorial8/kernel.c:193-198 | the do-while loop does what a newline does on the paper, which is to blank to the end of the row |
| Console.VideoConsole.PutTab | tutorials/tutorial8/kernel.c:199-204 | 8 blanks, past the end of the screen if need be |
| Console.VideoConsole.Write | tutorials/tutorial8/kernel.c:190-227 | from a cursor on the screen, the visible cells and the cursor are the 25-row window of a terminal that never scrolls, so what the Paper rows say of a message holds in the video memory; cell 2000 never flows back; nothing beyond it changes |
| Console.VideoConsole.WriteString | tutorials/tutorial8/kernel.c:230-236 | writes the characters before the first 0 |
| Console.VideoConsole.ClearScreen | tutorials/tutorial8/kernel.c:239-245 | from any contents and cursor, every cell has bytes 32 and 7 and the cursor is 0 |
| Sums.Loop | assignments/assignment2/loop.c:13-24 | the loop computes 8 times the plain sum of the values plus 6 for each |
| Sums.Fork | assignments/assignment2/fork.c:23-52 | the wait loop computes the same less 256 for each unit of 256 the exit statuses drop, from 0 to 255 for each child, and exactly the same when every result lies in 0..255 |
| Sums.ForkedTotal | assignments/assignment2/fork.c:39-49 | it agrees with 8 times the plain sum plus 6 for each value mod 256 for any values, and equals it exactly when nothing is dropped on balance: for results that are not negative, exactly when each is at most 255 |
| Sums.ForkCanLose | assignments/assignment2/fork.c:34-35 | for the value 32 the forked program prints 6 where the loop prints 262 |
| Threads.StepKeeps | assignments/assignment2/thread.c:22-40 | every step of every thread keeps the invariant and uses up one of the steps left |
| Threads.MutualExclusion | assignments/assignment2/thread.c:27-34 | in no interleaving are two threads between lock and unlock |
| Threads.Progress | assignments/assignment2/thread.c:57-74 | until all threads are joined some thread can step |
| Threads.EveryRunSums | assignments/assignment2/thread.c:22-74 | for every interleaving of any number of threads over any values a run has at most 7 steps a value, and after the joins the total is 8 times the plain sum plus 6 for each |

## Left out

- Reading and parsing the schedule file, the arguments and the usage text: I/O over libc.
- The average turnaround and wait times: sums and one division over what `WholeRuns.CompletedProcess` gives for each process.
- Floating-point rounding in the scores of custom: two scores that differ by less than a rounding error may compare equal in C.
- Failure of malloc, fork, waitpid and the pthread calls.
- Signed overflow of the totals in assignment 2.
- Console.VideoConsole.Write: is stated for a cursor on the screen, which every caller in the kernel establishes; from a cursor at or past cell 2000 a character would go off-screen before the first scroll.
- Console.VideoConsole.SetCursor: does not model the two cursor ports it writes, only the variable.
- The keyboard interrupt, descriptor tables, multiboot and all assembly: foreign hardware.
- `score_competition.py`, the shell script, the tutorials before the eighth and the other exercises: no behaviour of comparable depth.
