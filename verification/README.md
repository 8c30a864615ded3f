# A verified model of the scheduling simulator

The program reads a burst file, admits every process in an arrival phase, and then runs two threads
side by side. The scheduler takes a process from the ready queue, charges it a CPU burst and passes it
to the wait queue; the wakeup thread charges an I/O burst and passes it back. Two counting semaphores,
mutex-guarded linked lists and two atomic counters are all they share. Four policies use this
skeleton: first come first served, shortest job first, shortest remaining time first and round robin.

## How the model is built

* `Workload.dfy`, `BurstParser.dfy`, `Arrival.dfy`: what a burst line means, the parser as a loop over
  tokens that fills scratch arrays, and the times at which the arrival phase admits processes.
* `LinkedQueue.dfy`, `QueueSpec.dfy`: the singly linked queue on the heap with its in-place
  operations, and what they mean on sequences.
* `Protocol.dfy`: the two threads as a state machine with one program counter each. A step is one
  operation on shared state (an atomic counter access, a semaphore operation, a mutex section, a log
  line) together with the local code up to the next one. A run is any sequence of thread choices, so
  every theorem about `Run` is about every interleaving. `SRTF` comes twice: `Srtf(false)` is the code
  as written, `Srtf(true)` a corrected variant that resumes a preempted burst for its remaining time.
  The functions `ShouldTerminate`, `Dispatch`, `Start`, `Add`, `End`, `TickLoop`, `SwapEnd`, `SwapPut`,
  `SwapDequeue`, `LogLine` and `WakeupDequeue`, `WakeupAdd` follow `_should_terminate`, `_process_cpu`
  and `_process_io` of the four `*_sched.c` files branch by branch; the failed assertion of a debug
  build, an index out of bounds and a null dereference lead to the states `SFault` and `WFault`, which
  `Safety.NoFault` shows to be unreachable.
* `Steps.dfy`, `Machine.dfy`: what a step does at each program point, and the program in its own form, a
  class with the globals as fields, the handlers as methods with their loops and SRTF's recursion, and
  at every shared operation any number of steps of the other thread in between. Every method is proved
  to follow the state machine (`Follows`), so all results about runs are results about this code.
* `Safety.dfy`, `Ledger.dfy`, `Times.dfy`, `Timeline.dfy`, `LogTimes.dfy`, `OneShot.dfy`,
  `FcfsOrder.dfy`, `SjfKeys.dfy`, `Srtf.dfy`, `SrtfResults.dfy`, `SrtfLog.dfy`, `NoPreemption.dfy`,
  `LogContent.dfy`, `RoundRobin.dfy`, `RoundRobinResults.dfy`, `Floor.dfy`, `Billing.dfy`, `Depth.dfy`,
  `Progress.dfy`, `Liveness.dfy`, `Report.dfy`, `EndToEnd.dfy`: what every run keeps and what complete
  runs produce.
* `QueueKeys.dfy`, `Pairwise.dfy`, `PairwiseSafety.dfy`, `PairwiseRuns.dfy`: which of two processes can
  get ahead of the other under sorted queues. `Pairwise.Meets` is a recursive test on two lists of
  keys; `PairwiseSafety` shows that no run leaves what it allows, `PairwiseRuns` builds a schedule for
  everything it allows.
* `KeyAgreement.dfy`, `SjfExact.dfy`, `SrtfExact.dfy`: for three promises that the code breaks on some
  workloads, the exact condition on the workload under which no run breaks them.
* `Drive.dfy`, `Overcharge.dfy`, `DepthRuns.dfy`: schedules built step by step that attain the bounds on
  preemptions, on what they cost and on suspended calls.
* `Examples.dfy`: small workloads on which SJF and the SRTF keys break their promises.

Processes carry a history (`h`) that records how often they were handled and what each burst was
charged. Like `entry` in the state it is only written, never read by a step.

## Where the code and its documentation differ

* SRTF resumes a preempted burst at its full length (`schedule_algorithms/srtf/srtf_sched.c:133`):
  `SrtfResults.BurstCharges` gives the exact charge, `Overcharge.SrtfOvercharges` the dearest case, and
  `SrtfExact.TurnaroundRightIffUnthreatened` the workloads on which every turnaround is right all the same.
* SRTF keys go stale after the last burst of a line that ends in I/O
  (`schedule_algorithms/srtf/srtf_sched.c:150-154`): `KeyAgreement.KeysAgreeIffCpuEnded`. A stale node at
  the head of the queue can make a process preempt itself again and again: `DepthRuns.DeeperIfStale`,
  against `Depth.AtMostTwoSuspended` for lines that end in a CPU burst.
* SRTF logs the last runner once more for every suspended call
  (`schedule_algorithms/srtf/srtf_sched.c:171-180`): `Machine.Simulator.ProcessCpuSrtf`, `SrtfLog.LogLength`.
  `SrtfExact.LogExactIffUnthreatened` says on which workloads every complete log has one line per burst all
  the same, and `LogContent.LogsEveryBurstAndCut` what a log says apart from the repeated lines.
* Round robin never preempts (`schedule_algorithms/rr/rr_sched.c:116-126`, against `manual.txt:37-43`):
  `RoundRobinResults.PreemptionBranchIsDead`; a long burst is cut and its rest dropped.
* SJF orders by the first burst for ever (`schedule_algorithms/sjf/sjf_sched.c:42`, against
  `manual.txt:16`): `SjfKeys.DispatchesByFirstBurst`; `SjfExact.SjfKeepsItsRuleIff` says on which
  workloads the rule of the manual holds in every run.
* `remove_node_by_pid` answers a match at the rear with the front (`src/queue.c:111-114`):
  `LinkedQueue.RemovalIsRightUnlessAtRear`, and `RemoveByPidCorrected` for the repaired walk.

## Model

| member | source | states |
|---|---|---|
| `BurstParser.NextToken` | src/file.c:83-94 | strtok with a space: after the leading spaces the longest run without a space, and the rest behind the one space that ends it; nothing exactly when there are only spaces |
| `BurstParser.AtoiIsDecimal` | src/file.c:90-96 | numbers are decimal: after white space and at most one sign, each digit counts as ten to the power of its place, whatever follows that is no digit, and a minus sign negates the sum |
| `BurstParser.ReadBursts` | src/file.c:90-109 | the token loop leaves in the two 1024-entry scratch arrays exactly the numbers before the end mark, those at even places as CPU and those at odd places as I/O bursts, and no line of at most 1023 characters overruns them |
| `BurstParser.ProcessBurstLine` | src/file.c:65-129 | the record becomes the parsed line in arrays of the right size; a missing line or record, or a line without a word, changes nothing |
| `BurstParser.BurstLine.Store` | src/file.c:111-125 | the copy loops fill two fresh arrays with the filled parts of the scratch arrays |
| `BurstParser.ParsedAlternates` | src/file.c:92-114 | every parse result has as many CPU as I/O bursts or one more, and none is -1 |
| `BurstParser.RoundTrip` | src/file.c:63-129 | rendering an alternating line with any arrival time, any runs of spaces and anything non-numeric after the -1, then parsing, gives the line back if and only if no burst is -1 |
| `BurstParser.DataLineParsed` | test_cases/process2.dat:12 | the line of the test data, given character by character, has arrival 28, CPU bursts 25 and 10 and an I/O burst of 2 |
| `EndToEnd.ParsedWorkloadRunsSafely` | src/file.c:92-114 | over parsed lines with non-negative bursts no run of any policy reads a burst out of bounds or fails an assertion |
| `LinkedQueue.Queue.CheckLinks` | src/queue.c:149-175 | over a chain of cells with any len and rear: a queue that claims two or more cells, or none, passes exactly when it is valid; one that claims a single cell passes exactly when front and rear are the same |
| `LinkedQueue.Queue.CheckSorted` | src/priority_queue.c:23-29 | the check of p_isValidQueue holds exactly when the keys are in order |
| `LinkedQueue.Queue.Enqueue` | src/queue.c:18-42 | the walk to the end appends one fresh cell and keeps all others |
| `LinkedQueue.Queue.Dequeue` | src/queue.c:44-82 | the front is returned and removed in all three length cases, nothing from an empty queue |
| `LinkedQueue.Queue.PEnqueue` | src/priority_queue.c:31-75 | relinking in place is stable sorted insertion: behind all keys not larger, links, rear and length kept |
| `LinkedQueue.Queue.RemoveByPid` | src/queue.c:84-129 | as written: a match at the rear of two or more cells, the front being another, dequeues and answers the front, and the cell asked for stays at the rear; any other search unlinks the first match or finds none |
| `LinkedQueue.Queue.RemoveByPidCorrected` | src/queue.c:84-129 | the repaired walk unlinks the first match wherever it is and keeps rear and length |
| `LinkedQueue.RemovesExactly` | src/queue.c:84-129 | over distinct pids the intended removal takes out exactly that node, keeps the order of the others, and finds nothing exactly when the pid is absent |
| `LinkedQueue.RemovalIsRightUnlessAtRear` | src/queue.c:111-114 | over distinct pids the code does what is intended if and only if the match is not at the rear of two or more nodes |
| `QueueSpec.InsertKeepsSorted` | src/priority_queue.c:31-75 | insertion keeps a sorted queue sorted |
| `QueueSpec.InsertMembers` | src/priority_queue.c:31-75 | insertion keeps the multiset of nodes and adds the new one |
| `QueueSpec.ServesEarliestMin` | src/priority_queue.c:31-75 | over any mix of insertions and dequeues the sorted queue serves what a search for the earliest node of minimal key would |
| `Arrival.AdmittedBounds` | schedule_algorithms/fifo/fifo_sched.c:31-51 | process j is admitted at the maximum of j and, over all k up to j, the arrival of k plus j - k |
| `Arrival.OnScheduleIffSpaced` | schedule_algorithms/fifo/fifo_sched.c:38 | every process is admitted at its own arrival time if and only if arrivals start at zero or later and strictly increase |
| `Machine.Simulator.AddArrivals` | schedule_algorithms/fifo/fifo_sched.c:26-55 | the arrival loop ends, admits process j at time `Admitted(w, j)`, leaves the clock at the last admission and both lists in queue order with one token per process |
| `Safety.NoFault` | schedule_algorithms/fifo/fifo_sched.c:232-250 | in no run is an array read out of bounds, a debug assertion violated, or a dequeue after a successful wait or inside a swap answered with nothing |
| `Safety.ExactlyOnePlace` | schedule_algorithms/fifo/fifo_sched.c:85-186 | in every run a live process is in exactly one queue or hand and a terminated one in none; the termination counter equals the terminated processes up to the writes in flight and never passes the total |
| `Safety.SemaphoresAgree` | schedule_algorithms/fifo/fifo_sched.c:232-307 | each semaphore is its queue's length less the entries not yet posted for and the tokens already taken, at every program point and across SRTF's swap without a token |
| `Safety.CleanFinish` | schedule_algorithms/fifo/fifo_sched.c:219-260 | when both loops have ended, every process is terminated with all its bursts done and turnaround equal to process time, both queues are empty and both semaphores zero |
| `Safety.SchedulerKeeps` | schedule_algorithms/srtf/srtf_sched.c:104-283 | every scheduler step of every policy keeps the joint invariant |
| `Safety.WakeupKeeps` | schedule_algorithms/fifo/fifo_sched.c:154-307 | every wakeup step keeps the joint invariant |
| `Safety.RunInv` | main.c:78-112 | the joint invariant holds in every state of every interleaving from the end of the arrival phase |
| `Safety.TerminateOnCpu` | schedule_algorithms/fifo/fifo_sched.c:63-83 | in the scheduler's hand the three-way test means that all CPU bursts, and then all I/O bursts, are done |
| `Safety.TerminateOnIo` | schedule_algorithms/fifo/fifo_sched.c:63-83 | in the wakeup thread's hand the same test means that all I/O bursts, and then all CPU bursts, are done |
| `Safety.RunLines` | schedule_algorithms/fifo/fifo_sched.c:85-186 | no run changes a burst list or an arrival time |
| `FcfsOrder.RunOrdered` | schedule_algorithms/fifo/fifo_sched.c:107-142 | in every FCFS run the processes in the queues and hands form a ring of ascending pids cut at one place, and the log is complete up to that place |
| `FcfsOrder.LogIsScheduleIndependent` | schedule_algorithms/fifo/fifo_sched.c:107-142 | every complete FCFS run logs exactly all pairs of pid and CPU index, ordered by index and then pid, whatever the interleaving |
| `Timeline.LogIsATimeline` | schedule_algorithms/fifo/fifo_sched.c:107-142 | at every step of an FCFS or SJF run the logged intervals are in order without overlap, lie before the clock and are at least as long as their bursts |
| `Ledger.RunBalanced` | schedule_algorithms/thread_op.c:32-38 | at every step each process's books balance: its times, indices, handlings and charges, with the half-done update of each thread |
| `Ledger.ClockConservation` | schedule_algorithms/thread_op.c:32-38 | at every step of every policy the clock is its value after the arrival phase plus all process times, up to the update the scheduler is in the middle of |
| `Ledger.HandledExactly` | schedule_algorithms/fifo/fifo_sched.c:188-315 | a complete run handles a process once per CPU burst, once per I/O burst and once more, and under SRTF once more per preemption |
| `Times.RunTimed` | schedule_algorithms/fifo/fifo_sched.c:107-176 | at every step of every policy a process's I/O time is the sum of the I/O bursts done and the one under way, and its CPU time all ticks charged for its CPU bursts, preempted ones included |
| `Times.TimesAtEnd` | schedule_algorithms/fifo/fifo_sched.c:91-176 | a complete run leaves I/O time equal to the sum of the I/O bursts, and turnaround equal to CPU time plus I/O time |
| `LogTimes.LogTimesAreReadings` | schedule_algorithms/fifo/fifo_sched.c:107-142 | in every run of every policy the two times of a log line are the readings of the clock when its process was dispatched and when that same slice ended, with no other slice in between |
| `OneShot.TurnaroundIsTotalBurst` | schedule_algorithms/sjf/sjf_sched.c:108-137 | every complete FCFS or SJF run gives each process the sum of its CPU and I/O bursts as turnaround |
| `SjfKeys.RunKeys` | schedule_algorithms/sjf/sjf_sched.c:42 | in every SJF run every key still is the process's first burst and the ready queue is sorted by it |
| `SjfKeys.DispatchesByFirstBurst` | schedule_algorithms/sjf/sjf_sched.c:235-246 | the process dispatched has the smallest first burst among the ready processes |
| `SjfExact.MeetsAtDispatch` | schedule_algorithms/sjf/sjf_sched.c:235-246 | whenever a process is dispatched before its burst i while another is ready before its burst j, the two can meet there: the first burst dispatched first is smaller and j is at most i, or they are equal and the two take turns |
| `SjfExact.BringTogether` | schedule_algorithms/sjf/sjf_sched.c:108-137 | every such meeting is brought about by some schedule, whatever the other processes are |
| `SjfExact.SjfKeepsItsRuleIff` | manual.txt:16 | every dispatch of every SJF run picks a smallest current burst among the ready processes if and only if no two processes can meet the wrong way round, a condition on the lines |
| `SjfExact.KeptByOrderedLines` | manual.txt:16 | so it does if no burst of a process exceeds a burst of one with no smaller first burst |
| `SjfExact.BrokenByLongerBurst` | schedule_algorithms/sjf/sjf_sched.c:42 | and some run breaks the rule if a later burst is longer than another's larger first burst |
| `Examples.SjfRunsTheLongerBurst` | schedule_algorithms/sjf/sjf_sched.c:42 | on one such workload a process whose current burst is nine is dispatched before a ready one whose burst is two |
| `Pairwise.MeetsConstant` | schedule_algorithms/sjf/sjf_sched.c:42 | with constant keys the smaller is never overtaken and may be any number of bursts ahead, and equal keys alternate |
| `PairwiseSafety.RunPairs` | src/priority_queue.c:31-75 | in every run of SJF and SRTF, for every two processes of which the first was never preempted: they stand where the pairwise order lets them, and the one that finished a burst last is ahead in the ring only with a strictly smaller key |
| `PairwiseRuns.Arrange` | schedule_algorithms/srtf/srtf_sched.c:228-352 | for every meeting the pairwise order allows there is a schedule that leads to it, without a preemption, whatever the other processes are |
| `Srtf.RunSrtf` | schedule_algorithms/srtf/srtf_sched.c:104-192 | over CPU-ended workloads the SRTF invariant on keys, remaining times, charges and nesting holds in every state of every run |
| `SrtfResults.KeyAgreement` | schedule_algorithms/srtf/srtf_sched.c:59-169 | every ready node's stored key, its process's priority and its remaining time are one number of at least 1, and the queue is sorted by it |
| `SrtfResults.PreemptsExactlyWhenShorter` | schedule_algorithms/srtf/srtf_sched.c:26-41 | the test against the head succeeds if and only if some ready process has less left to run than the running one |
| `SrtfResults.SwapGoesToShorter` | schedule_algorithms/srtf/srtf_sched.c:162-171 | the dequeue in a swap takes no token, always finds a process, and it is another one with strictly less left, whatever the wakeup thread inserted since the test |
| `SrtfResults.NestingIsBounded` | schedule_algorithms/srtf/srtf_sched.c:131-172 | twice the number of suspended calls plus one never exceeds the remaining time of the process first dispatched |
| `Depth.AtMostTwoSuspended` | schedule_algorithms/srtf/srtf_sched.c:162-172 | over lines that end in a CPU burst never more than two handler calls are suspended, however many processes there are and however long their bursts |
| `DepthRuns.TwoSuspended` | schedule_algorithms/srtf/srtf_sched.c:162-172 | a run with two suspended calls below a process that had five ticks to run: both bounds are attained at once |
| `DepthRuns.DeeperIfStale` | schedule_algorithms/srtf/srtf_sched.c:150-172 | beside a line that ends in I/O two processes with bursts of b ticks suspend b - 1 calls, for every b |
| `Billing.RunBills` | schedule_algorithms/srtf/srtf_sched.c:131-161 | at every step of every SRTF run, on every workload, the ticks charged for the current burst are what its process has less left than the burst, and each preemption took at least one |
| `SrtfResults.BurstCharges` | schedule_algorithms/srtf/srtf_sched.c:131-154 | on every workload a burst of length b is charged b ticks if never preempted and otherwise 2b - r, with r left at the last preemption and at most b less one tick per preemption; r is at least 2 if lines end in a CPU burst; the corrected variant always charges b |
| `SrtfResults.ChargeIsExactIffNotPreempted` | schedule_algorithms/srtf/srtf_sched.c:131-154 | in every run as written, on every workload, a finished burst was charged its length if and only if it was never preempted, and otherwise at least one tick more per preemption, of which there are at most b - 2 if lines end in a CPU burst |
| `SrtfResults.TurnaroundUnderSrtf` | schedule_algorithms/srtf/srtf_sched.c:131-154 | on every workload a complete run's turnaround is the sum of the bursts in the corrected variant; as written it is that sum plus at least one tick per preemption, and exact only without any |
| `KeyAgreement.KeysAgreeIffCpuEnded` | schedule_algorithms/srtf/srtf_sched.c:150-215 | over positive bursts, stored key, priority and remaining time of every ready process agree in every run, as written and corrected, if and only if every line ends in a CPU burst |
| `KeyAgreement.StaleBeforeEnding` | schedule_algorithms/srtf/srtf_sched.c:210-218 | a process whose line ends in I/O stands at the head of the ready queue with no burst left before it terminates |
| `Floor.RunFloor` | schedule_algorithms/srtf/srtf_sched.c:131-169 | on every workload, lines ending in I/O included, no remaining time falls below minus the CPU bursts finished so far, and a ready key is off only after the last burst |
| `SrtfExact.ThreatAtTest` | schedule_algorithms/srtf/srtf_sched.c:134-145 | a process about to be preempted for the first time is threatened by the one at the head of the queue, whose whole burst, untouched and at least two ticks shorter, is still its key, at a place where the pairwise order lets the two meet |
| `SrtfExact.ThreatComesTrue` | schedule_algorithms/srtf/srtf_sched.c:134-169 | whenever the lines of two processes allow that, some schedule brings the preemption about |
| `SrtfExact.PreemptedIffThreatened` | schedule_algorithms/srtf/srtf_sched.c:134-169 | a process is preempted in some run, as written or corrected, if and only if another line threatens it, which is a recursive test on the two burst lists |
| `SrtfExact.TurnaroundRightIffUnthreatened` | schedule_algorithms/srtf/srtf_sched.c:131-154 | as written, every complete run gives a process the sum of its bursts as turnaround if and only if no line threatens it |
| `SrtfExact.LogExactIffUnthreatened` | schedule_algorithms/srtf/srtf_sched.c:138-180 | every complete run, as written or corrected, logs exactly one line per CPU burst if and only if no line of the workload threatens another |
| `SrtfExact.SimpleThreats` | schedule_algorithms/srtf/srtf_sched.c:134-145 | a line with first burst below another's and second burst two ticks below it threatens it; every threat comes from a later burst at least two ticks shorter |
| `SrtfLog.LogLength` | schedule_algorithms/srtf/srtf_sched.c:138-180 | a complete SRTF run writes as many lines as there are CPU bursts and two more per preemption |
| `LogContent.LogsEveryBurstAndCut` | schedule_algorithms/srtf/srtf_sched.c:138-180 | on every workload, apart from lines that repeat the line before them, a complete SRTF log has one line for each burst under its index and one under k for each slice cut off from the burst after index k, and nothing else |
| `LogContent.SqueezedKeepsLines` | schedule_algorithms/srtf/srtf_sched.c:171-180 | leaving out the repeated lines loses no line and leaves no two equal lines in a row |
| `LogContent.SrtfLogIsATimeline` | schedule_algorithms/srtf/srtf_sched.c:130-180 | at every step of an SRTF run, on every workload, the logged slices, repeats left out, are in order without overlap and lie before the clock |
| `LogContent.LogsEveryBurstOnce` | schedule_algorithms/sjf/sjf_sched.c:141-143 | a complete FCFS, SJF or round-robin run logs every pair of a process and a CPU index from one to its number of bursts exactly once, and nothing else |
| `Overcharge.SrtfOvercharges` | schedule_algorithms/srtf/srtf_sched.c:131-180 | for every b from three on, a workload of two lines and a complete run in which a burst of b ticks is preempted b - 2 times and charged 2b - 2, with 2(b - 2) lines more in the log than there are bursts: the bounds on charges and preemptions are attained |
| `Examples.StaleKeyAfterLastIo` | schedule_algorithms/srtf/srtf_sched.c:150-215 | a workload of one line ending in I/O on which key and remaining time disagree in some run |
| `RoundRobin.RunSimulates` | schedule_algorithms/rr/rr_sched.c:113-149 | every round-robin run is, state by state, an FCFS run of the workload with each CPU burst cut at the quantum |
| `RoundRobinResults.RrLogIsFcfsLog` | schedule_algorithms/rr/rr_sched.c:113-157 | a complete round-robin run logs the bursts in the FCFS order, once each |
| `RoundRobinResults.RrLogIsATimeline` | schedule_algorithms/rr/rr_sched.c:113-157 | the logged intervals are in order without overlap and at least as long as the cut bursts |
| `RoundRobinResults.TurnaroundUnderRr` | schedule_algorithms/rr/rr_sched.c:113-149 | a complete run's turnaround is the sum of the cut CPU bursts and the I/O bursts, and the full sum if and only if no CPU burst exceeds the quantum |
| `RoundRobinResults.PreemptionBranchIsDead` | schedule_algorithms/rr/rr_sched.c:116-135 | some run enters the preemption branch if and only if the quantum is negative |
| `Progress.LowersScheduler` | schedule_algorithms/fifo/fifo_sched.c:188-256 | every scheduler step of every policy lowers an explicit measure or only polls in vain; the measure counts remaining time from minus all CPU bursts of the workload |
| `Progress.LowersWakeup` | schedule_algorithms/fifo/fifo_sched.c:258-314 | every wakeup step lowers the same measure or only polls in vain |
| `Liveness.SomeoneEnabled` | schedule_algorithms/fifo/fifo_sched.c:188-314 | until both loops have ended one thread can do something other than poll in vain |
| `Liveness.FairBlockLowers` | schedule_algorithms/fifo/fifo_sched.c:188-314 | three steps of the scheduler and two of the wakeup thread, in any order, always get some work done |
| `Liveness.WorkIsBounded` | schedule_algorithms/fifo/fifo_sched.c:188-314 | no run of any length, under any policy and on any admissible workload, does more than the initial measure's number of productive steps |
| `Liveness.FairRunsFinish` | main.c:104-112 | from any point of any run, under any policy and on any admissible workload, a schedule that is fair often enough ends both threads with everything terminated |
| `Machine.Simulator.Terminate` | schedule_algorithms/fifo/fifo_sched.c:91-105 | the terminating branch counts, marks and times the process, following the state machine under any interference |
| `Machine.Simulator.ChargeWhole` | schedule_algorithms/fifo/fifo_sched.c:107-137 | the process gets exactly its current burst on both its clocks, one index further and asleep, in an interval at least as long |
| `Machine.Simulator.SendToWaitQueue` | schedule_algorithms/fifo/fifo_sched.c:134-135 | the enqueue and the post follow the state machine and change no burst bookkeeping |
| `Machine.Simulator.ProcessCpuOneShot` | schedule_algorithms/fifo/fifo_sched.c:85-152 | the FCFS and SJF handler terminates the process or charges its burst and appends exactly one log line with the advanced index |
| `Machine.Simulator.RunSlice` | schedule_algorithms/rr/rr_sched.c:113-149 | the quantum loop runs the smaller of remaining time and quantum, then loads the next burst; the branch behind it is dead |
| `Machine.Simulator.ProcessCpuRr` | schedule_algorithms/rr/rr_sched.c:86-169 | the round-robin handler terminates the process or runs one slice and appends exactly one log line |
| `Machine.Simulator.SimulateSrtf` | schedule_algorithms/srtf/srtf_sched.c:26-41 | the locked test is true exactly when the head has less remaining time than the runner, decides the next program point and changes nothing else |
| `Machine.Simulator.Swap` | schedule_algorithms/srtf/srtf_sched.c:137-171 | a swap logs the cut slice and dispatches the head, which is another process with strictly less left if all lines end in a CPU burst |
| `Machine.Simulator.ProcessCpuSrtf` | schedule_algorithms/srtf/srtf_sched.c:104-192 | the recursive handler ends on every workload, because each call has less work left than its caller; with n nested calls it appends 2n + 1 lines, the last n + 1 of them equal, or n if the last runner terminates; over lines ending in a CPU burst 2n + 1 is at most the remaining time at entry, and n at most two less the calls already suspended |
| `Machine.Simulator.AllProcessesDone` | schedule_algorithms/thread_op.c:94-97 | the three separate reads, with the other thread running in between, are all true exactly when at the last of them all processes are counted and both queues are empty |
| `Machine.Simulator.TakeReady` | schedule_algorithms/fifo/fifo_sched.c:237-250 | after a successful try-wait the dequeue finds a process, ready for dispatch or termination |
| `Machine.Simulator.SchedulerPass` | schedule_algorithms/srtf/srtf_sched.c:232-283 | one pass of the scheduler loop under any policy follows the state machine by at least one step: with a token at its start it dequeues a process, terminates it or logs a slice of it, and leaves less work; it is the last pass whenever all processes were terminated at its start, and only when they are at its end with both queues empty |
| `Machine.Simulator.DoIo` | schedule_algorithms/fifo/fifo_sched.c:170-176 | the I/O burst goes once to the clock and once to the process, which becomes ready |
| `Machine.Simulator.ProcessIo` | schedule_algorithms/fifo/fifo_sched.c:154-186 | the I/O handler terminates the sleeper exactly when all is done and otherwise finds an I/O burst, adds it to the clock and to the I/O time, and posts; the invalid-state branch is dead |
| `Machine.Simulator.WakeupPass` | schedule_algorithms/fifo/fifo_sched.c:260-307 | one pass of the wakeup loop follows the state machine by at least one step: with a token at its start it handles a process and leaves less work; it is the last pass whenever all processes were terminated at its start, and only when they are at its end |
| `Report.WriteResult` | src/result.c:6-20 | the walk that adds the last node separately computes over the whole task list the sum divided by the total without the fraction, and a number no turnaround time exceeds that is one of them or zero |
| `Report.SummaryPermutes` | src/result.c:11-20 | the printed figures do not depend on the order of the task list |
| `Report.AverageAtMostMaximum` | src/result.c:11-20 | the printed average never exceeds the printed maximum |
| `Report.OneShotPrintsTheBursts` | src/result.c:11-20 | every complete FCFS or SJF run prints the average and maximum of the processes' total bursts |
| `Report.FcfsAndSjfPrintTheSame` | src/result.c:11-20 | complete FCFS and SJF runs of one workload print the same two numbers, whatever the two interleavings |
| `Report.SrtfPrintsAtLeastTheBursts` | src/result.c:11-20 | on every workload the corrected SRTF prints those figures too, and SRTF as written never prints less |
| `Report.RrPrintsTheCutBursts` | src/result.c:11-20 | round robin prints the figures of the workload cut at the quantum |

## Left out

- The inside of semaphores, mutexes and atomics, and memory ordering: they are single steps in one order.
- Allocation failure, machine-integer overflow and memory leaks: allocation succeeds, integers are unbounded.
- Wall-clock time (`src/time_t.c`, `wall_time`, the part of `src/result.c:11-18` that skips the last
  task's wall time): it depends on the environment.
- File reading, printing and the format of log lines; the log is a sequence of pid, CPU index, start and end.
- The `init_*` function-pointer tables and the choice by name: the policy is a parameter. The wrappers
  in `*_th.c` only say which queue operation stands inside which mutex.
- `src/linkedList.c`, `find_process`, `thread_ex.c`, `proc_ex.c`: not used by the program.
- Aliasing of process records: queue nodes and the two running pointers name a process by its pid, and
  its record is a value in one sequence. That no two threads hold one process is a result, not an
  assumption.
- In the two-thread model the queues are sequences; `LinkedQueue` shows that the heap operations have
  exactly those effects, but one heap is not shared by both models.
- `task_list_mutex` sections inside the handlers belong to the local code around them: after the
  arrival phase no other thread takes that mutex.
- A write to a process's own fields is merged with the shared operation before it, and in the tick
  loops with the one after it; no other thread reads these fields while the process is in hand, except
  the head test, which reads only queued processes.
- The endless thread loops: `Machine` has one pass of each, `Liveness` says that they end under fair
  scheduling; without fairness a thread may poll for ever.
- Round robin with a negative quantum, apart from `PreemptionBranchIsDead`: the quantum is the constant
  50 of `main.c:27`.
- `SrtfResults.KeyAgreement`: like the results on swaps, nesting, threats and the length of the log, it
  assumes lines that end in a CPU burst and CPU bursts of at least one tick, as in all data files of the
  repository; `KeyAgreement.KeysAgreeIffCpuEnded` shows that it needs the former. Safety, conservation,
  charges, turnaround, the content of the log, progress and termination are proved without it.
- `SrtfExact.PreemptedIffThreatened`: on such workloads too; with lines that end in I/O a stale key can
  also hand the processor to a process that is only terminated.
- The assertions on queues in `src/queue.c` and `src/priority_queue.c` are the two check methods; the
  queue operations do not call them again.
