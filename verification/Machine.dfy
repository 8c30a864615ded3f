// The program in its own form: shared globals updated step by step by the handlers, with the other
// thread running in between. Every handler is proved to follow the state machine of Protocol.
module Machine {
  import opened Workload
  import opened QueueSpec
  import opened Protocol
  import opened Safety
  import opened Arrival
  import opened Steps
  import opened Timeline
  import opened Srtf
  import opened SrtfResults
  import opened Progress
  import opened Liveness
  import Depth
  import opened Times

  class Simulator {
    const pol: Policy
    var procs: seq<Proc>
    var ready: seq<Node>
    var wait: seq<Node>
    var taskList: seq<Node>
    var readyCount: int
    var waitCount: int
    var clock: int
    var terminated: int
    var start: int
    var end: int
    var log: seq<Entry>
    var running: nat
    var sleeping: nat

    // The two threads' program points.
    var spc: SPc
    var wpc: WPc
    var depth: nat
    var entry: int

    // The run so far: the workload, the clock at the end of the arrival phase and the thread that
    // took each step since.
    ghost var w: seq<Line>
    ghost var origin: int
    ghost var trace: seq<Thread>

    /** The state-machine view of the globals and the two threads' program points. */
    function Abs(): State
      reads this
    {
      State(procs, ready, wait, readyCount, waitCount, clock, terminated, start, end, log, spc, wpc, depth, entry)
    }

    /** The globals hold what the state machine holds after the steps recorded in trace. */
    ghost predicate Follows()
      reads this
    {
      && Admissible(pol, w) && (pol.Rr? ==> pol.quantum >= 0)
      && Abs() == Run(pol, w, origin, trace)
    }

    /** Still the same run, some steps later. */
    twostate predicate Continues()
      reads this
    {
      w == old(w) && origin == old(origin) && taskList == old(taskList) && |procs| == |old(procs)|
      && old(trace) <= trace
    }

    /** Nobody has taken a token of the ready queue, and no termination is undone. */
    twostate predicate KeepsReady()
      reads this
    {
      readyCount >= old(readyCount) && terminated >= old(terminated)
    }

    /** The same for the wait queue. */
    twostate predicate KeepsWaiting()
      reads this
    {
      waitCount >= old(waitCount) && terminated >= old(terminated)
    }

    constructor (pol: Policy)
      ensures this.pol == pol && Abs() == State([], [], [], 0, 0, 0, 0, 0, 0, [], SCheck, WCheck, 0, 0)
      ensures taskList == []
    {
      this.pol := pol;
      running, sleeping, w, origin, trace := 0, 0, [], 0, [];
      procs, ready, wait, taskList, log := [], [], [], [], [];
      readyCount, waitCount, clock, terminated, start, end := 0, 0, 0, 0, 0, 0;
      spc, wpc, depth, entry := SCheck, WCheck, 0, 0;
    }

    /** Process j is created and joins the ready queue and the task list, and its token is posted. */
    method Admit(w: seq<Line>, j: nat)
      requires Admissible(pol, w) && j < |w| && Abs() == Arriving(pol, w, j, clock) && taskList == ready
      modifies this
      ensures Abs() == Arriving(pol, w, j + 1, clock) && taskList == ready && clock == old(clock)
    {
      ArrivedNext(pol, w, j);
      hide Enqueue, NewProc, NewProcs, Arrived, Admissible;
      var p := NewProc(pol, w[j]);
      procs := procs + [p];
      ready := Enqueue(pol, ready, j, p.priority);
      taskList := Enqueue(pol, taskList, j, p.priority);
      readyCount := readyCount + 1;
    }

    method WaitATick(ghost w: seq<Line>, ghost j: nat)
      requires Admissible(pol, w) && j <= |w| && Abs() == Arriving(pol, w, j, clock) && taskList == ready
      modifies this
      ensures Abs() == Arriving(pol, w, j, clock) && taskList == ready && clock == old(clock) + 1
    {
      clock := clock + 1;
    }

    /** The arrival phase: one process is admitted per tick at most, each not before its time. */
    method AddArrivals(w: seq<Line>) returns (times: seq<int>)
      requires Admissible(pol, w) && (pol.Rr? ==> pol.quantum >= 0)
      requires Abs() == BLANK && taskList == []
      modifies this
      ensures Abs() == Init(pol, w, Admitted(w, |w| - 1))
      ensures Follows() && this.w == w && taskList == ready
      ensures |times| == |w| && Timed(w, times)
    {
      StartsEmpty(pol, w);
      assert Abs() == Arriving(pol, w, 0, clock) && taskList == ready;
      hide Admissible, Admitted, Max, Init, Abs, Arriving, Follows, Timed;
      var j := 0;
      times := [];
      assert Timed(w, times) by { NothingTimed(w); }
      AdmittedNext(w, 0);
      while j != |w|
        invariant 0 <= j <= |w| && |times| == j
        invariant Timed(w, times)
        invariant Abs() == Arriving(pol, w, j, clock) && taskList == ready
        invariant j < |w| ==> Earliest(w, j) <= clock <= Admitted(w, j)
        invariant j == |w| ==> clock == Admitted(w, |w| - 1)
        decreases |w| - j, if j < |w| then Admitted(w, j) - clock else 0
      {
        AdmittedNext(w, j);
        if w[j].arrival <= clock {
          Admit(w, j);
          TimedNext(w, times, clock);
          times := times + [clock];
          j := j + 1;
        }
        if j == |w| {
          break;
        }
        AdmittedNext(w, j);
        WaitATick(w, j);
      }
      AllArrived(pol, w, clock);
      Begin(w);
    }

    /** The run of the two threads starts here. */
    ghost method Begin(w: seq<Line>)
      requires Admissible(pol, w) && (pol.Rr? ==> pol.quantum >= 0) && Abs() == Init(pol, w, clock)
      modifies this`w, this`origin, this`trace
      ensures Follows() && this.w == w
    {
      this.w, origin, trace := w, clock, [];
    }

    // ----- Interleaving -----

    /** Books one step that has just been taken. */
    ghost method Ran(t: Thread, before: State)
      requires Admissible(pol, w) && (pol.Rr? ==> pol.quantum >= 0)
      requires before == Run(pol, w, origin, trace) && Abs() == Step(pol, t, before)
      modifies this`trace
      ensures Follows() && trace == old(trace) + [t]
    {
      hide Step;
      ExecSnoc(pol, Init(pol, w, origin), trace, t);
      trace := trace + [t];
    }

    method Become(s: State)
      modifies this`procs, this`ready, this`wait, this`readyCount, this`waitCount, this`clock, this`terminated
      modifies this`start, this`end, this`log, this`spc, this`wpc, this`depth, this`entry
      ensures Abs() == s
    {
      SetQueues(s);
      SetCounters(s);
      spc, wpc, depth, entry := s.spc, s.wpc, s.depth, s.entry;
    }

    method SetQueues(s: State)
      modifies this`procs, this`ready, this`wait, this`readyCount, this`waitCount
      ensures procs == s.procs && ready == s.ready && wait == s.wait
      ensures readyCount == s.readyCount && waitCount == s.waitCount
    {
      procs, ready, wait := s.procs, s.ready, s.wait;
      readyCount, waitCount := s.readyCount, s.waitCount;
    }

    method SetCounters(s: State)
      modifies this`clock, this`terminated, this`start, this`end, this`log
      ensures clock == s.clock && terminated == s.terminated && start == s.start && end == s.end && log == s.log
    {
      clock, terminated, start, end, log := s.clock, s.terminated, s.start, s.end, s.log;
    }

    /** The wakeup thread takes any number of steps; what the scheduler holds stays as it is. */
    method WakeupRuns()
      requires Follows()
      modifies this
      ensures Follows() && Continues() && running == old(running)
      ensures spc == old(spc) && depth == old(depth) && entry == old(entry)
      ensures start == old(start) && end == old(end) && log == old(log)
      ensures SameBursts(old(procs), procs) && clock >= old(clock) && KeepsReady()
      ensures InSchedulersHand(spc, running) ==> running < |procs| && At(Abs(), running) == At(old(Abs()), running)
    {
      hide Step, Run, WakeupStep, SameBursts, Admissible, Inv, InSchedulersHand, NonNegativeLines;
      SameBurstsReflexive(procs);
      var n: nat := *;
      if InSchedulersHand(spc, running) {
        RunInv(pol, w, origin, trace);
        InHand(pol, Abs(), running);
      }
      while n > 0
        invariant Follows() && Continues() && running == old(running)
        invariant spc == old(spc) && depth == old(depth) && entry == old(entry)
        invariant start == old(start) && end == old(end) && log == old(log)
        invariant SameBursts(old(procs), procs) && clock >= old(clock) && KeepsReady()
        invariant InSchedulersHand(spc, running) ==> running < |procs| && At(Abs(), running) == At(old(Abs()), running)
      {
        var s := Abs();
        RunInv(pol, w, origin, trace);
        LinesOfRun(pol, w, origin, trace);
        WakeupClock(pol, s);
        WakeupKeepsHand(pol, s, running);
        WakeupPosts(pol, s);
        SameBurstsTransitive(old(procs), s.procs, WakeupStep(pol, s).procs);
        StepIsWakeup(pol, s);
        Become(WakeupStep(pol, s));
        Ran(WakeupThread, s);
        n := n - 1;
      }
    }

    /** A process has just been dequeued and its handler is about to start. */
    ghost predicate Dispatched()
      reads this
      requires running < |procs|
    {
      spc == if ShouldTerminate(procs[running]) then STermAdd(running) else SStart(running)
    }

    /** The work left, by the measure that every productive step lowers. */
    ghost function Left(): int
      reads this
      requires Follows()
    {
      Measure(Debt(w), Abs())
    }

    // ----- Pieces of the CPU handler -----

    method UpdateTermCounter()
      requires Follows() && spc == STermAdd(running)
      modifies this
      ensures Follows() && Continues() && running == old(running) && spc == STermWrite(running) && log == old(log)
    {
      hide Run, Admissible, Inv, Step, SameBursts, ShouldTerminate, Enqueue;
      WakeupRuns();
      var s := Abs();
      AtTermAdd(pol, s, running);
      terminated, spc := terminated + 1, STermWrite(running);
      Ran(SchedulerThread, s);
    }

    /** The terminating branch of the CPU handler. */
    method Terminate()
      requires Follows() && spc == STermAdd(running)
      modifies this
      ensures Follows() && Continues() && running == old(running)
      ensures spc == SCheck && depth == 0 && log == old(log)
      ensures running < |procs| && procs[running].status == Terminated
      ensures procs[running].turnaround == procs[running].processTime
    {
      hide Run, Admissible, Inv, Step, SameBursts, ShouldTerminate, Enqueue;
      UpdateTermCounter();
      WakeupRuns();
      var s := Abs();
      RunInv(pol, w, origin, trace);
      InHand(pol, s, running);
      AtTermWrite(pol, s, running);
      procs := procs[running := Finish(procs[running])];
      spc, depth := SCheck, 0;
      Ran(SchedulerThread, s);
    }

    method AddToWaitQueue()
      requires Follows() && spc == SPut(running)
      modifies this
      ensures Follows() && Continues() && running == old(running)
      ensures spc == SPost(running) && depth == old(depth) && entry == old(entry) && log == old(log)
      ensures start == old(start) && end == old(end) && SameBursts(old(procs), procs)
    {
      hide Run, Admissible, Inv, Step, SameBursts, ShouldTerminate, Enqueue;
      WakeupRuns();
      var s := Abs();
      RunInv(pol, w, origin, trace);
      InHand(pol, s, running);
      AtPut(pol, s, running);
      wait := Enqueue(pol, wait, running, procs[running].priority);
      spc := SPost(running);
      Ran(SchedulerThread, s);
    }

    method PostWaitCount()
      requires Follows() && spc == SPost(running)
      modifies this
      ensures Follows() && Continues() && running == old(running)
      ensures spc == SLog(running) && depth == old(depth) && entry == old(entry) && log == old(log)
      ensures start == old(start) && end == old(end) && SameBursts(old(procs), procs)
    {
      hide Run, Admissible, Inv, Step, SameBursts, ShouldTerminate, Enqueue;
      WakeupRuns();
      var s := Abs();
      AtPost(pol, s, running);
      waitCount := waitCount + 1;
      spc := SLog(running);
      Ran(SchedulerThread, s);
    }

    /** Hands the process to the wakeup thread and posts its token. */
    method SendToWaitQueue()
      requires Follows() && spc == SPut(running)
      modifies this
      ensures Follows() && Continues() && running == old(running)
      ensures spc == SLog(running) && depth == old(depth) && entry == old(entry) && log == old(log)
      ensures start == old(start) && end == old(end) && SameBursts(old(procs), procs)
    {
      hide Run, Admissible, Inv, Step, SameBursts, ShouldTerminate, Enqueue, Abs, Follows;
      ghost var ps := procs;
      AddToWaitQueue();
      ghost var qs := procs;
      PostWaitCount();
      SameBurstsTransitive(ps, qs, procs);
    }

    /** The log line at the end of a CPU handler. */
    method WriteCpuProcessData()
      requires Follows() && spc == SLog(running) && running < |procs|
      modifies this
      ensures Follows() && Continues() && running == old(running)
      ensures spc == if old(depth) > 0 then SLog(running) else SCheck
      ensures depth == if old(depth) > 0 then old(depth) - 1 else 0
      ensures start == old(start) && end == old(end) && SameBursts(old(procs), procs)
      ensures log == old(log) + [Entry(running, old(procs[running].cpuIndex), old(start), old(end))]
    {
      hide Run, Admissible, Inv, Step, ShouldTerminate, Enqueue;
      WakeupRuns();
      var s := Abs();
      AtLog(pol, s, running);
      log := log + [Entry(running, procs[running].cpuIndex, start, end)];
      spc, depth := if depth > 0 then SLog(running) else SCheck, if depth > 0 then depth - 1 else 0;
      Ran(SchedulerThread, s);
    }

    // ----- First come first served and shortest job first -----

    /** A new process is charged its first burst, one back from I/O the burst its CPU index names. */
    method BeginCharge() returns (b: int)
      requires Follows() && !pol.Ticking() && running < |procs| && spc == SStart(running)
      modifies this
      ensures Follows() && Continues() && running == old(running)
      ensures spc == SAdd(running) && depth == old(depth) && log == old(log) && start <= clock
      ensures var p := old(procs[running]);
              && OnCpu(p) && p.cpuIndex < |p.line.cpu| && b == p.line.cpu[p.cpuIndex]
              && procs[running] == if p.status == New then p.(cpuTime := b)
                                   else p.(cpuTime := p.cpuTime + b, processTime := p.processTime + b)
    {
      hide Run, Admissible, Inv, Step, SameBursts, ShouldTerminate, Enqueue, ProcOk, Charging;
      WakeupRuns();
      var s := Abs();
      RunInv(pol, w, origin, trace);
      HoldsBurst(pol, s, running);
      AtStart(pol, s, running);
      start, spc := clock, SAdd(running);
      var p := procs[running];
      if p.status == New {
        b := p.line.cpu[0];
        procs := procs[running := p.(cpuTime := b)];
      } else {
        b := p.line.cpu[p.cpuIndex];
        procs := procs[running := p.(cpuTime := p.cpuTime + b, processTime := p.processTime + b)];
      }
      Ran(SchedulerThread, s);
    }

    /** The whole burst goes to the shared clock in one atomic addition. */
    method AdvanceClock(b: int)
      requires Follows() && running < |procs| && spc == SAdd(running)
      requires var p := procs[running]; p.cpuIndex < |p.line.cpu| && b == p.line.cpu[p.cpuIndex]
      modifies this
      ensures Follows() && Continues() && running == old(running)
      ensures spc == SEnd(running) && depth == old(depth) && log == old(log) && start == old(start)
      ensures clock >= old(clock) + b && procs[running] == Book(old(procs[running]), b)
    {
      hide Run, Admissible, Inv, Step, SameBursts, ShouldTerminate, Enqueue, ProcOk, OnCpu;
      WakeupRuns();
      var s := Abs();
      RunInv(pol, w, origin, trace);
      HoldsBurst(pol, s, running);
      AtAdd(pol, s, running);
      clock, spc := clock + b, SEnd(running);
      procs := procs[running := Book(procs[running], b)];
      Ran(SchedulerThread, s);
    }

    /** The end of the burst; a new process's own clock is only advanced here. */
    method EndCharge()
      requires Follows() && !pol.Ticking() && running < |procs| && spc == SEnd(running)
      modifies this
      ensures Follows() && Continues() && running == old(running)
      ensures spc == SPut(running) && depth == old(depth) && log == old(log)
      ensures start == old(start) && end >= old(clock)
      ensures var p := old(procs[running]);
              && p.cpuIndex < |p.line.cpu|
              && var q := if p.status == New then p.(processTime := p.processTime + p.line.cpu[p.cpuIndex]) else p;
                 procs[running] == CloseBurst(q).(status := Sleep)
    {
      hide Run, Admissible, Inv, Step, SameBursts, ShouldTerminate, Enqueue, CloseBurst;
      WakeupRuns();
      var s := Abs();
      RunInv(pol, w, origin, trace);
      HoldsBurst(pol, s, running);
      AtEnd(pol, s, running);
      end, spc := clock, SPut(running);
      var p := procs[running];
      if p.status == New {
        p := p.(processTime := p.processTime + p.line.cpu[0]);
      }
      procs := procs[running := CloseBurst(p).(status := Sleep)];
      Ran(SchedulerThread, s);
    }

    /** The one-shot charge, the same for both kinds of process but for the order of the local writes. */
    method ChargeWhole()
      requires Follows() && !pol.Ticking() && running < |procs| && spc == SStart(running)
      modifies this
      ensures Follows() && Continues() && running == old(running)
      ensures spc == SPut(running) && depth == old(depth) && log == old(log)
      ensures Charged(old(procs[running]), procs[running], start, end)
    {
      hide Run, Admissible, Inv, Step, SameBursts, ShouldTerminate, Enqueue, Abs, Follows;
      var b := BeginCharge();
      AdvanceClock(b);
      EndCharge();
    }

    /** The CPU handler of FCFS and SJF: it terminates the process or charges one burst, passes it
        to the wakeup thread and logs the slice. */
    method ProcessCpuOneShot() returns (st: Status)
      requires Follows() && !pol.Ticking() && running < |procs| && depth == 0
      requires Dispatched()
      modifies this
      ensures Follows() && Continues() && running == old(running)
      ensures spc == SCheck && depth == 0
      ensures st == if ShouldTerminate(old(procs[running])) then Terminated else Sleep
      ensures st == Terminated ==> (&& log == old(log) && procs[running].status == Terminated
                                    && procs[running].turnaround == procs[running].processTime)
      ensures var p := old(procs[running]);
              st == Sleep ==> (&& p.cpuIndex < |p.line.cpu| && end - start >= p.line.cpu[p.cpuIndex]
                               && log == old(log) + [Entry(running, p.cpuIndex + 1, start, end)])
    {
      hide Run, Admissible, Inv, Step, SameBursts, ShouldTerminate, Enqueue, ProcOk;
      if ShouldTerminate(procs[running]) {
        Terminate();
        return Terminated;
      }
      RunInv(pol, w, origin, trace);
      HoldsBurst(pol, Abs(), running);
      if procs[running].status == New || procs[running].status == Ready {
        ChargeWhole();
      } else {
        assert false;
      }
      ghost var ps := procs;
      SendToWaitQueue();
      SameIndex(ps, procs, running);
      WriteCpuProcessData();
      return Sleep;
    }

    // ----- Round robin -----

    /** The body of both tick loops: one tick for the process and for the clock. */
    method RunTick(time: int, procTime: int)
      requires Follows() && pol.Ticking() && running < |procs| && spc == STick(running, time, procTime)
      requires time < procTime && (pol.Rr? ==> time < pol.quantum)
      modifies this
      ensures Follows() && Continues() && running == old(running) && depth == old(depth) && entry == old(entry)
      ensures spc == if pol.Rr? then STick(running, time + 1, procTime) else STest(running, time + 1, procTime)
      ensures start == old(start) && log == old(log) && clock > old(clock)
      ensures procs[running] == Tick(old(procs[running]))
    {
      hide Run, Admissible, Inv, Step, SameBursts, ShouldTerminate, Enqueue;
      WakeupRuns();
      var s := Abs();
      AtTick(pol, s, running, time, procTime);
      procs := procs[running := Tick(procs[running])];
      clock := clock + 1;
      spc := if pol.Rr? then STick(running, time + 1, procTime) else STest(running, time + 1, procTime);
      Ran(SchedulerThread, s);
    }

    /** The end of both tick loops: the next burst's length is loaded and the process goes to sleep. */
    method CloseSlice(time: int, procTime: int)
      requires Follows() && pol.Ticking() && running < |procs| && spc == STick(running, time, procTime)
      requires pol.Rr? ==> time <= pol.quantum
      requires time >= procTime || (pol.Rr? && time >= pol.quantum)
      modifies this
      ensures Follows() && Continues() && running == old(running) && depth == old(depth) && entry == old(entry)
      ensures spc == SPut(running) && start == old(start) && log == old(log) && end >= old(clock)
      ensures procs[running] == Refill(pol, old(procs[running]))
    {
      hide Run, Admissible, Inv, Step, SameBursts, ShouldTerminate, Enqueue, Refill;
      WakeupRuns();
      var s := Abs();
      AtTick(pol, s, running, time, procTime);
      end, spc := clock, SPut(running);
      procs := procs[running := Refill(pol, procs[running])];
      Ran(SchedulerThread, s);
    }

    /** The length the tick loop will run: as written the whole burst, even for a resumed one. */
    method OpenSlice() returns (procTime: int)
      requires Follows() && pol.Ticking() && running < |procs| && spc == SStart(running)
      modifies this
      ensures Follows() && Continues() && running == old(running) && depth == old(depth) && entry == old(entry)
      ensures spc == STick(running, 0, procTime) && log == old(log) && procs[running] == old(procs[running])
      ensures pol.Srtf? && CpuEndedWorkload(w) ==> procs[running].remaining >= 1
      ensures Left() < old(Left())
      ensures pol.Rr? ==> procTime == procs[running].remaining && start <= clock
    {
      hide Run, Admissible, Inv, Step, SameBursts, ShouldTerminate, Enqueue, Debt, Measure, CpuEndedWorkload;
      ghost var first := trace;
      WakeupRuns();
      var s := Abs();
      ghost var before := trace;
      StartOf(pol, w, origin, trace, running);
      AtSliceStart(pol, s, running);
      var p := procs[running];
      procTime := if pol.Rr? || pol.resume then p.remaining else p.line.cpu[p.cpuIndex];
      start, spc := clock, STick(running, 0, procTime);
      Ran(SchedulerThread, s);
      WorkLowers(pol, w, origin, first, before);
    }

    /** The quantum loop and what follows it: the burst is cut at the quantum, never requeued. */
    method RunSlice()
      requires Follows() && pol.Rr? && running < |procs|
      requires spc == SStart(running)
      modifies this
      ensures Follows() && Continues() && running == old(running)
      ensures spc == SPut(running) && depth == old(depth) && log == old(log)
      ensures var p := old(procs[running]);
              procs[running] == Refill(pol, Ticked(p, Slice(pol.quantum, p.remaining)))
      ensures end - start >= Slice(pol.quantum, old(procs[running]).remaining)
    {
      hide Run, Admissible, Inv, Step, SameBursts, ShouldTerminate, Enqueue, Refill, Abs;
      var procTime := OpenSlice();
      var time := 0;
      while time < procTime && time < pol.quantum
        invariant Follows() && Continues() && running == old(running)
        invariant spc == STick(running, time, procTime) && depth == old(depth) && log == old(log)
        invariant 0 <= time <= Slice(pol.quantum, procTime) && clock - start >= time
        invariant procs[running] == Ticked(old(procs[running]), time)
      {
        RunTick(time, procTime);
        time := time + 1;
      }
      if time > pol.quantum {
        assert false;
      }
      CloseSlice(time, procTime);
    }

    /** The CPU handler of round robin. */
    method ProcessCpuRr() returns (st: Status)
      requires Follows() && pol.Rr? && running < |procs| && depth == 0
      requires Dispatched()
      modifies this
      ensures Follows() && Continues() && running == old(running)
      ensures spc == SCheck && depth == 0
      ensures st == if ShouldTerminate(old(procs[running])) then Terminated else Sleep
      ensures st == Terminated ==> (&& log == old(log) && procs[running].status == Terminated
                                    && procs[running].turnaround == procs[running].processTime)
      ensures var p := old(procs[running]);
              st == Sleep ==> (&& end - start >= Slice(pol.quantum, p.remaining)
                               && log == old(log) + [Entry(running, p.cpuIndex + 1, start, end)])
    {
      hide Run, Admissible, Inv, Step, SameBursts, ShouldTerminate, Enqueue, Abs, Follows;
      if ShouldTerminate(procs[running]) {
        Terminate();
        return Terminated;
      }
      RunSlice();
      ghost var ps := procs;
      SendToWaitQueue();
      SameIndex(ps, procs, running);
      WriteCpuProcessData();
      return Sleep;
    }

    // ----- Shortest remaining time first -----

    /** The preemption test, under the ready-queue mutex. */
    method SimulateSrtf(time: int, procTime: int) returns (shorter: bool)
      requires Follows() && pol.Srtf? && running < |procs| && spc == STest(running, time, procTime)
      modifies this
      ensures Follows() && Continues() && running == old(running) && depth == old(depth) && entry == old(entry)
      ensures spc == if shorter then SSwapEnd(running) else STick(running, time, procTime)
      ensures start == old(start) && log == old(log) && procs[running] == old(procs[running])
      ensures shorter <==> HeadIsShorter(Abs(), running)
    {
      hide Run, Admissible, Inv, Step, SameBursts, ShouldTerminate, Enqueue;
      WakeupRuns();
      var s := Abs();
      AtTest(pol, s, running, time, procTime);
      shorter := ready != [] && At(s, ready[0].pid).remaining < procs[running].remaining;
      spc := if shorter then SSwapEnd(running) else STick(running, time, procTime);
      Ran(SchedulerThread, s);
    }

    /** The process gives up the CPU; its slice so far is logged. */
    method StopRunning()
      requires Follows() && pol.Srtf? && running < |procs| && spc == SSwapEnd(running)
      modifies this
      ensures Follows() && Continues() && running == old(running) && depth == old(depth) && entry == old(entry)
      ensures spc == SSwapPut(running) && start == old(start) && end >= old(clock)
      ensures log == old(log) + [Entry(running, old(procs[running].cpuIndex), start, end)]
      ensures procs[running] == Preempt(old(procs[running]))
    {
      hide Run, Admissible, Inv, Step, SameBursts, ShouldTerminate, Enqueue, Preempt;
      WakeupRuns();
      var s := Abs();
      AtSwapEnd(pol, s, running);
      end, spc := clock, SSwapPut(running);
      log := log + [Entry(running, procs[running].cpuIndex, start, end)];
      procs := procs[running := Preempt(procs[running])];
      Ran(SchedulerThread, s);
    }

    /** Puts the running process back into the ready queue, without a token. */
    method PutBack()
      requires Follows() && pol.Srtf? && running < |procs| && spc == SSwapPut(running)
      modifies this
      ensures Follows() && Continues() && running == old(running) && depth == old(depth) && entry == old(entry)
      ensures spc == SSwapDeq(running) && start == old(start) && end == old(end) && log == old(log)
      ensures procs[running] == old(procs[running])
    {
      hide Run, Admissible, Inv, Step, SameBursts, ShouldTerminate, Enqueue;
      WakeupRuns();
      var s := Abs();
      AtSwapPut(pol, s, running);
      ready := Enqueue(pol, ready, running, procs[running].priority);
      spc := SSwapDeq(running);
      Ran(SchedulerThread, s);
    }

    /** Takes the head of the ready queue in its place. If all lines end in a CPU burst it is another
        process, with strictly less left to run. */
    method TakeHead()
      requires Follows() && pol.Srtf? && running < |procs| && spc == SSwapDeq(running)
      modifies this
      ensures Follows() && Continues() && depth == old(depth) + 1 && entry == old(entry)
      ensures running < |procs| && Dispatched()
      ensures CpuEndedWorkload(w) ==> running != old(running) && spc == SStart(running)
      ensures CpuEndedWorkload(w) ==> procs[running].remaining < old(procs[running].remaining)
      ensures start == old(start) && end == old(end) && log == old(log)
    {
      hide Run, Admissible, Inv, Step, SameBursts, ShouldTerminate, Enqueue, Abs, Follows, CpuEndedWorkload, Dispatched;
      ghost var ps := procs;
      WakeupRuns();
      SameIndex(ps, procs, running);
      DequeueHead();
    }

    method DequeueHead()
      requires Follows() && pol.Srtf? && running < |procs| && spc == SSwapDeq(running)
      modifies this
      ensures Follows() && Continues() && depth == old(depth) + 1 && entry == old(entry)
      ensures running < |procs| && Dispatched()
      ensures CpuEndedWorkload(w) ==> running != old(running) && spc == SStart(running)
      ensures CpuEndedWorkload(w) ==> procs[running].remaining < old(procs[running].remaining)
      ensures start == old(start) && end == old(end) && log == old(log)
    {
      hide Run, Admissible, Inv, Step, SameBursts, ShouldTerminate, Enqueue, Handled, CpuEndedWorkload;
      var s := Abs();
      SwapOf(pol, w, origin, trace, running);
      var next := ready[0].pid;
      procs := procs[next := Handled(procs[next])];
      spc := if ShouldTerminate(procs[next]) then STermAdd(next) else SStart(next);
      ready, depth, running := ready[1..], depth + 1, next;
      Ran(SchedulerThread, s);
    }

    /** The whole swap, between two calls of the handler. */
    method Swap()
      requires Follows() && pol.Srtf? && running < |procs| && spc == SSwapEnd(running)
      modifies this
      ensures Follows() && Continues() && depth == old(depth) + 1
      ensures running < |procs| && Dispatched()
      ensures CpuEndedWorkload(w) ==> running != old(running) && spc == SStart(running)
      ensures CpuEndedWorkload(w) ==> procs[running].remaining < old(procs[running].remaining)
      ensures log == old(log) + [Entry(old(running), old(procs[running].cpuIndex), start, end)]
    {
      hide Run, Admissible, Inv, Step, SameBursts, ShouldTerminate, Enqueue, Abs, Follows, CpuEndedWorkload, Dispatched;
      StopRunning();
      PutBack();
      TakeHead();
    }

    /** The end of a burst that was not preempted in this call: on to the wait queue and the log. */
    method FinishSlice(time: int, procTime: int)
      requires Follows() && pol.Srtf? && running < |procs|
      requires spc == STick(running, time, procTime) && time >= procTime
      modifies this
      ensures Follows() && Continues() && running == old(running) && AfterLog(old(depth))
      ensures log == old(log) + [LastLine()]
    {
      hide Run, Admissible, Inv, Step, SameBursts, ShouldTerminate, Enqueue, Abs, Follows;
      CloseSlice(time, procTime);
      ghost var ps := procs;
      SendToWaitQueue();
      SameIndex(ps, procs, running);
      LogRunner();
    }

    /** The line a handler writes about the process that runs now. */
    function LastLine(): Entry
      requires running < |procs|
      reads this
    {
      Entry(running, procs[running].cpuIndex, start, end)
    }

    /** Where a handler leaves the scheduler that was called below d suspended calls. */
    ghost predicate AfterLog(d: nat)
      reads this
    {
      if d > 0 then spc == SLog(running) && depth == d - 1 else spc == SCheck && depth == 0
    }

    method LogRunner()
      requires Follows() && spc == SLog(running) && running < |procs|
      modifies this
      ensures Follows() && Continues() && running == old(running) && AfterLog(old(depth))
      ensures LastLine() == old(LastLine()) && log == old(log) + [LastLine()]
    {
      hide Run, Admissible, Inv, Step, SameBursts, ShouldTerminate, Enqueue, Abs, Follows;
      ghost var ps := procs;
      WriteCpuProcessData();
      SameIndex(ps, procs, running);
    }

    /** The body of the SRTF loop up to the branch. */
    method RunTickAndTest(time: int, procTime: int) returns (shorter: bool)
      requires Follows() && pol.Srtf? && running < |procs| && spc == STick(running, time, procTime)
      requires time < procTime
      modifies this
      ensures Follows() && Continues() && running == old(running) && depth == old(depth)
      ensures spc == if shorter then SSwapEnd(running) else STick(running, time + 1, procTime)
      ensures log == old(log) && procs[running].remaining == old(procs[running].remaining) - 1
    {
      hide Run, Admissible, Inv, Step, SameBursts, ShouldTerminate, Enqueue, Abs, Follows;
      RunTick(time, procTime);
      shorter := SimulateSrtf(time + 1, procTime);
    }

    lemma LeftIsMeasure()
      requires Follows()
      ensures Left() == Measure(Debt(w), Run(pol, w, origin, trace))
    {
    }

    /** What was left at an earlier point bounds what is left now. */
    lemma Since(mark: seq<Thread>, left: int)
      requires Follows() && mark <= trace && left == Measure(Debt(w), Run(pol, w, origin, mark))
      ensures 0 <= Left() <= left
    {
      hide Run, Measure, Debt, Steady;
      assert trace == mark + trace[|mark|..];
      NeverRaises(pol, w, origin, mark, trace[|mark|..]);
      RunSteady(pol, w, origin, trace);
      MeasureBound(pol, Debt(w), Run(pol, w, origin, trace));
    }

    /** The tick loop with its two exits: the whole swap, or the end of the burst. */
    method RunUntilSwap() returns (swapped: bool)
      requires Follows() && pol.Srtf? && running < |procs| && spc == SStart(running)
      modifies this
      ensures Follows() && Continues() && running < |procs| && 0 <= Left() < old(Left())
      ensures swapped ==> Dispatched() && depth == old(depth) + 1 && |log| == |old(log)| + 1 && old(log) <= log
      ensures swapped && CpuEndedWorkload(w) ==>
                spc == SStart(running) && procs[running].remaining <= old(procs[running].remaining) - 2
      ensures !swapped ==> AfterLog(old(depth)) && log == old(log) + [LastLine()]
      ensures !swapped && CpuEndedWorkload(w) ==> old(procs[running].remaining) >= 1
    {
      hide Run, Admissible, Inv, Step, ShouldTerminate, Enqueue, Abs, Follows, Left, CpuEndedWorkload, SameBursts,
           Dispatched;
      var procTime := OpenSlice();
      LeftIsMeasure();
      ghost var mark, left := trace, Left();
      var time := 0;
      while time < procTime
        invariant Follows() && Continues() && running == old(running) && running < |procs| && mark <= trace
        invariant spc == STick(running, time, procTime) && depth == old(depth) && log == old(log)
        invariant 0 <= time && procs[running].remaining + time == old(procs[running].remaining)
        decreases procTime - time
      {
        var shorter := RunTickAndTest(time, procTime);
        time := time + 1;
        if shorter {
          Swap();
          Since(mark, left);
          return true;
        }
      }
      FinishSlice(time, procTime);
      Since(mark, left);
      return false;
    }

    /** The CPU handler of SRTF. It calls itself after a swap, each time with less work left. If all
        lines end in a CPU burst, each call starts at least two ticks below the one that made it, and
        no more than two are suspended.
        Unwinding logs the last runner once more per call, unless that one was terminated. */
    method ProcessCpuSrtf() returns (st: Status, ghost nested: nat)
      requires Follows() && pol.Srtf? && running < |procs| && Dispatched()
      modifies this
      ensures Follows() && Continues() && running < |procs| && old(log) <= log
      ensures st == Sleep || (st == Terminated && spc == SCheck && depth == 0)
      ensures st == Sleep ==> AfterLog(old(depth))
      ensures st == Sleep ==> (&& |log| == |old(log)| + 2 * nested + 1
                               && forall i | |log| - nested - 1 <= i < |log| :: log[i] == LastLine())
      ensures st == Terminated ==> |log| == |old(log)| + nested && procs[running].status == Terminated
      ensures st == Sleep && CpuEndedWorkload(w) ==>
                2 * nested + 1 <= old(procs[running].remaining) && nested + old(depth) <= 2
      decreases Left()
    {
      hide Run, Admissible, Inv, Step, ShouldTerminate, Enqueue, Abs, Follows, Left, CpuEndedWorkload, SameBursts;
      if CpuEndedWorkload(w) {
        NotTooDeep();
      }
      if ShouldTerminate(procs[running]) {
        Terminate();
        return Terminated, 0;
      }
      var swapped := RunUntilSwap();
      if !swapped {
        return Sleep, 0;
      }
      st, nested := ProcessCpuSrtf();
      if st == Sleep {
        LogRunner();
      }
      nested := nested + 1;
    }

    lemma NotTooDeep()
      requires Follows() && pol.Srtf? && CpuEndedWorkload(w)
      ensures depth <= 2
    {
      hide Run, Inv;
      Depth.AtMostTwoSuspended(pol.resume, w, origin, trace);
    }

    // ----- One pass of the scheduler loop -----

    /** The try-wait on the ready queue's semaphore. */
    method TryWaitReady()
      requires Follows() && spc == STry
      modifies this
      ensures Follows() && Continues() && depth == old(depth) && log == old(log)
      ensures spc == SCheck || spc == SDeq
      ensures old(readyCount) > 0 ==> spc == SDeq
    {
      hide Run, Admissible, Inv, Step, SameBursts, ShouldTerminate, Enqueue;
      WakeupRuns();
      var s := Abs();
      if readyCount > 0 {
        readyCount, spc := readyCount - 1, SDeq;
      } else {
        spc := SCheck;
      }
      AtPolling(pol, s);
      Ran(SchedulerThread, s);
    }

    /** The first exit test, on the counter of terminated processes alone. */
    method CheckCounter() returns (done: bool)
      requires Follows() && spc == SCheck
      modifies this
      ensures Follows() && Continues() && KeepsReady() && depth == old(depth) && log == old(log)
      ensures spc == (if done then SExit else SDone1) && (done <==> terminated >= |procs|)
      ensures SchedulerThread in trace[|old(trace)|..]
    {
      hide Run, Admissible, Inv, Step, SameBursts, ShouldTerminate, Enqueue;
      WakeupRuns();
      var s := Abs();
      done := terminated >= |procs|;
      spc := if done then SExit else SDone1;
      AtPolling(pol, s);
      ghost var before := trace;
      Ran(SchedulerThread, s);
      assert trace[|before|] == SchedulerThread;
    }

    /** The two exit tests and the try-wait: with a token there the pass goes on to the dequeue, with
        all processes terminated it leaves the loop. */
    method PollQueues()
      requires Follows() && spc == SCheck
      modifies this
      ensures Follows() && Continues() && depth == old(depth) && log == old(log)
      ensures spc == SExit || spc == SCheck || spc == SDeq
      ensures old(terminated) >= |old(procs)| ==> spc == SExit
      ensures old(readyCount) > 0 ==> spc == SDeq
      ensures SchedulerThread in trace[|old(trace)|..]
    {
      hide Run, Admissible, Inv, Step, SameBursts, ShouldTerminate, Enqueue, Abs, Follows;
      var done := CheckCounter();
      ghost var first := trace;
      if done {
        TokensAndLife();
        return;
      }
      done := AllProcessesDone();
      TokensAndLife();
      if !done {
        TryWaitReady();
      }
      StillIn(SchedulerThread, old(trace), first);
    }

    lemma TokensAndLife()
      requires Follows()
      ensures readyCount > 0 ==> ready != [] && terminated < |procs|
      ensures waitCount > 0 ==> wait != [] && terminated < |procs|
    {
      hide Run, Inv, Admissible;
      RunInv(pol, w, origin, trace);
      TokenMeansLife(pol, Abs());
    }

    lemma StillIn(t: Thread, start: seq<Thread>, first: seq<Thread>)
      requires start <= first <= trace && t in first[|start|..]
      ensures t in trace[|start|..]
    {
      var i :| |start| <= i < |first| && first[i] == t;
      assert trace[i] == t;
    }

    /** The three reads of all_processes_done, each with the other thread running before it. */
    method ReadTermCounter() returns (b: bool)
      requires Follows() && spc == SDone1
      modifies this
      ensures Follows() && Continues() && KeepsReady() && depth == old(depth) && log == old(log)
      ensures spc == (if b then SDone2 else STry) && (b <==> terminated >= |procs|)
    {
      hide Run, Admissible, Inv, Step, SameBursts, ShouldTerminate, Enqueue;
      WakeupRuns();
      var s := Abs();
      b := terminated >= |procs|;
      spc := if b then SDone2 else STry;
      AtPolling(pol, s);
      Ran(SchedulerThread, s);
    }

    method IsEmptyReadyQueue() returns (b: bool)
      requires Follows() && spc == SDone2
      modifies this
      ensures Follows() && Continues() && KeepsReady() && depth == old(depth) && log == old(log)
      ensures spc == (if b then SDone3 else STry) && (b <==> ready == [])
    {
      hide Run, Admissible, Inv, Step, SameBursts, ShouldTerminate, Enqueue;
      WakeupRuns();
      var s := Abs();
      b := ready == [];
      spc := if b then SDone3 else STry;
      AtPolling(pol, s);
      Ran(SchedulerThread, s);
    }

    method IsEmptyWaitQueue() returns (b: bool)
      requires Follows() && spc == SDone3
      modifies this
      ensures Follows() && Continues() && KeepsReady() && depth == old(depth) && log == old(log)
      ensures spc == (if b then SExit else STry) && (b <==> wait == [])
    {
      hide Run, Admissible, Inv, Step, SameBursts, ShouldTerminate, Enqueue;
      WakeupRuns();
      var s := Abs();
      b := wait == [];
      spc := if b then SExit else STry;
      AtPolling(pol, s);
      Ran(SchedulerThread, s);
    }

    method AllProcessesDone() returns (done: bool)
      requires Follows() && spc == SDone1
      modifies this
      ensures Follows() && Continues() && KeepsReady() && depth == old(depth) && log == old(log)
      ensures spc == if done then SExit else STry
      ensures done <==> terminated >= |procs| && ready == [] && wait == []
    {
      hide Run, Admissible, Inv, Step, SameBursts, ShouldTerminate, Enqueue, Abs, Follows;
      done := ReadTermCounter();
      if done {
        done := IsEmptyReadyQueue();
      }
      if done {
        done := IsEmptyWaitQueue();
      }
      if done {
        Exited();
      }
    }

    /** What the three reads say together holds at the last of them. */
    lemma Exited()
      requires Follows() && spc == SExit
      ensures terminated >= |procs| && ready == [] && wait == []
    {
      hide Run, Inv, Admissible;
      RunInv(pol, w, origin, trace);
      AllDone(pol, Abs());
    }

    /** The dequeue after a successful try-wait; it always finds a process. */
    method TakeReady()
      requires Follows() && spc == SDeq && depth == 0
      modifies this
      ensures Follows() && Continues() && running < |procs| && depth == 0 && log == old(log)
      ensures Dispatched() && 0 <= Left() < old(Left())
    {
      hide Run, Admissible, Inv, Step, SameBursts, ShouldTerminate, Enqueue, Abs, Follows, Dispatched, Left;
      ghost var first := trace;
      LeftIsMeasure();
      WakeupRuns();
      ghost var before := trace;
      AtProgramPoint();
      DequeueReady();
      WorkLowers(pol, w, origin, first, before);
      LeftIsMeasure();
      Since(trace, Left());
    }

    method DequeueReady()
      requires Follows() && spc == SDeq && depth == 0
      modifies this
      ensures Follows() && Continues() && running < |procs| && depth == 0 && log == old(log)
      ensures Dispatched() && trace == old(trace) + [SchedulerThread]
    {
      hide Run, Admissible, Inv, Step, SameBursts, ShouldTerminate, Enqueue, Handled;
      var s := Abs();
      DequeueOf(pol, w, origin, trace);
      if ready == [] {
        assert false;
      }
      running := ready[0].pid;
      ready := ready[1..];
      procs := procs[running := Handled(procs[running])];
      spc := if ShouldTerminate(procs[running]) then STermAdd(running) else SStart(running);
      entry := procs[running].remaining;
      Ran(SchedulerThread, s);
    }

    lemma AtProgramPoint()
      requires Follows()
      ensures Supported(pol, w) && Run(pol, w, origin, trace).spc == spc && Run(pol, w, origin, trace).wpc == wpc
    {
    }

    /** The handler of the policy in use. */
    method ProcessCpu() returns (st: Status)
      requires Follows() && running < |procs| && depth == 0 && Dispatched()
      modifies this
      ensures Follows() && Continues() && spc == SCheck && depth == 0 && running < |procs| && old(log) <= log
      ensures st == Sleep ==> |log| > |old(log)|
      ensures st == Terminated ==> procs[running].status == Terminated
      ensures st == Sleep || st == Terminated
    {
      hide Run, Admissible, Inv, Step, SameBursts, ShouldTerminate, Enqueue, Abs, Follows, Dispatched;
      match pol {
        case Rr(_) => st := ProcessCpuRr();
        case Srtf(_) => ghost var nested: nat; st, nested := ProcessCpuSrtf();
        case _ => st := ProcessCpuOneShot();
      }
    }

    /** One pass of the scheduler loop under any policy. With all processes terminated it is the last;
        with a token there it dequeues a process and terminates it or logs a slice of it. */
    method SchedulerPass() returns (again: bool)
      requires Follows() && spc == SCheck && depth == 0
      modifies this
      ensures Follows() && Continues() && depth == 0 && old(log) <= log
      ensures spc == if again then SCheck else SExit
      ensures SchedulerThread in trace[|old(trace)|..]
      ensures old(terminated) >= |old(procs)| ==> !again
      ensures !again ==> terminated >= |procs| && ready == [] && wait == []
      ensures old(readyCount) > 0 ==> again && 0 <= Left() < old(Left())
      ensures old(readyCount) > 0 ==>
                |log| > |old(log)| || (running < |procs| && procs[running].status == Terminated)
    {
      hide Run, Admissible, Inv, Step, SameBursts, ShouldTerminate, Enqueue, Abs, Follows, Left;
      ghost var mark, left := trace, Left();
      LeftIsMeasure();
      PollQueues();
      ghost var first := trace;
      Since(mark, left);
      if spc == SDeq {
        TakeReady();
        LeftIsMeasure();
        ghost var next, less := trace, Left();
        var st := ProcessCpu();
        Since(next, less);
        StillIn(SchedulerThread, mark, first);
      }
      again := spc == SCheck;
      if !again {
        Exited();
      }
    }

    // ----- The wakeup thread -----

    /** The scheduler thread takes any number of steps; what the wakeup thread holds stays as it is. */
    method SchedulerRuns()
      requires Follows()
      modifies this
      ensures Follows() && Continues() && sleeping == old(sleeping) && wpc == old(wpc)
      ensures clock >= old(clock) && KeepsWaiting() && SameIo(old(procs), procs)
      ensures WPid(wpc) == [sleeping] ==> sleeping < |procs| && At(Abs(), sleeping) == At(old(Abs()), sleeping)
    {
      hide Step, Run, SchedulerStep, Admissible, Inv, WPid, NonNegativeLines, SameIo;
      SameIoReflexive(procs);
      var n: nat := *;
      if WPid(wpc) == [sleeping] {
        RunInv(pol, w, origin, trace);
        InWakeupHand(pol, Abs(), sleeping);
      }
      while n > 0
        invariant Follows() && Continues() && sleeping == old(sleeping) && wpc == old(wpc)
        invariant clock >= old(clock) && KeepsWaiting() && SameIo(old(procs), procs)
        invariant WPid(wpc) == [sleeping] ==> sleeping < |procs| && At(Abs(), sleeping) == At(old(Abs()), sleeping)
      {
        var s := Abs();
        RunInv(pol, w, origin, trace);
        LinesOfRun(pol, w, origin, trace);
        SchedulerKeepsHand(pol, s, sleeping);
        SchedulerPosts(pol, s);
        IoBySchedulerStep(pol, s);
        StepIsScheduler(pol, s);
        SameIoTransitive(old(procs), s.procs, SchedulerStep(pol, s).procs);
        Become(SchedulerStep(pol, s));
        Ran(SchedulerThread, s);
        n := n - 1;
      }
    }

    /** The terminating branch of the I/O handler. */
    method TerminateSleeper()
      requires Follows() && wpc == WTermAdd(sleeping)
      modifies this
      ensures Follows() && Continues() && wpc == WCheck && sleeping == old(sleeping)
      ensures sleeping < |procs| && procs[sleeping].status == Terminated
      ensures procs[sleeping].turnaround == procs[sleeping].processTime
    {
      hide Run, Admissible, Inv, Step, SameBursts, ShouldTerminate, Enqueue;
      SchedulerRuns();
      var s := Abs();
      AtWakeupTerm(pol, s, sleeping);
      terminated, wpc := terminated + 1, WTermWrite(sleeping);
      Ran(WakeupThread, s);
      SchedulerRuns();
      s := Abs();
      AtWakeupTerm(pol, s, sleeping);
      procs := procs[sleeping := Finish(procs[sleeping])];
      wpc := WCheck;
      Ran(WakeupThread, s);
    }

    /** The I/O work: the burst goes to the clock and to the process. */
    method DoIo()
      requires Follows() && sleeping < |procs| && wpc == WAdd(sleeping)
      requires procs[sleeping].ioIndex < |procs[sleeping].line.io|
      modifies this
      ensures Follows() && Continues() && wpc == WPut(sleeping) && sleeping == old(sleeping)
      ensures var p := old(procs[sleeping]);
              && clock >= old(clock) + p.line.io[p.ioIndex]
              && procs[sleeping] == p.(processTime := p.processTime + p.line.io[p.ioIndex], ioIndex := p.ioIndex + 1,
                                       status := Ready)
    {
      hide Run, Admissible, Inv, Step, SameBursts, ShouldTerminate, Enqueue;
      SchedulerRuns();
      var s := Abs();
      AtWakeupAdd(pol, s, sleeping);
      var p := procs[sleeping];
      clock := clock + p.line.io[p.ioIndex];
      p := p.(processTime := p.processTime + p.line.io[p.ioIndex]);
      procs := procs[sleeping := p.(ioIndex := p.ioIndex + 1, status := Ready)];
      wpc := WPut(sleeping);
      Ran(WakeupThread, s);
    }

    method AddToReadyQueue()
      requires Follows() && sleeping < |procs| && wpc == WPut(sleeping)
      modifies this
      ensures Follows() && Continues() && wpc == WPost && sleeping == old(sleeping) && clock >= old(clock)
      ensures SameIo(old(procs), procs)
    {
      hide Run, Admissible, Inv, Step, SameBursts, ShouldTerminate, Enqueue;
      SchedulerRuns();
      var s := Abs();
      AtWakeupPut(pol, s, sleeping);
      ready := Enqueue(pol, ready, sleeping, procs[sleeping].priority);
      wpc := WPost;
      Ran(WakeupThread, s);
    }

    method PostReadyCount()
      requires Follows() && wpc == WPost
      modifies this
      ensures Follows() && Continues() && wpc == WCheck && sleeping == old(sleeping) && clock >= old(clock)
      ensures SameIo(old(procs), procs)
    {
      hide Run, Admissible, Inv, Step, SameBursts, ShouldTerminate, Enqueue;
      SchedulerRuns();
      var s := Abs();
      AtWakeupPost(pol, s);
      readyCount, wpc := readyCount + 1, WCheck;
      Ran(WakeupThread, s);
    }

    /** Between the dequeue in the wakeup loop and the first shared operation of the handler only local
        writes stand, so they belong to the dequeue's step. */
    ghost predicate Dequeued(before: State)
      reads this
    {
      && Admissible(pol, w) && (pol.Rr? ==> pol.quantum >= 0)
      && before == Run(pol, w, origin, trace) && before.wpc.WDeq? && before.wait != []
      && sleeping == before.wait[0].pid < |procs|
      && Abs() == Put(before, sleeping, Handled(At(before, sleeping))).(wait := before.wait[1..])
    }

    method FoundDone(ghost before: State)
      requires Dequeued(before) && ShouldTerminate(procs[sleeping])
      modifies this
      ensures Follows() && Continues() && wpc == WTermAdd(sleeping) && sleeping == old(sleeping)
      ensures trace == old(trace) + [WakeupThread]
    {
      hide Run, Admissible, Inv, Step, SameBursts, ShouldTerminate, Enqueue;
      RunInv(pol, w, origin, trace);
      SleeperHasIo(pol, before);
      AtWakeupDequeue(pol, before);
      wpc := WTermAdd(sleeping);
      Ran(WakeupThread, before);
    }

    method FoundIo(ghost before: State)
      requires Dequeued(before) && !ShouldTerminate(procs[sleeping])
      modifies this
      ensures Follows() && Continues() && wpc == WAdd(sleeping) && sleeping == old(sleeping) < |procs|
      ensures clock == old(clock) && trace == old(trace) + [WakeupThread]
      ensures old(procs[sleeping]).ioIndex < |old(procs[sleeping]).line.io|
      ensures var p := old(procs[sleeping]); procs[sleeping] == p.(ioTime := p.ioTime + p.line.io[p.ioIndex])
    {
      hide Run, Admissible, Inv, Step, SameBursts, ShouldTerminate, Enqueue;
      RunInv(pol, w, origin, trace);
      SleeperHasIo(pol, before);
      AtWakeupDequeue(pol, before);
      var p := procs[sleeping];
      procs := procs[sleeping := p.(ioTime := p.ioTime + p.line.io[p.ioIndex])];
      wpc := WAdd(sleeping);
      Ran(WakeupThread, before);
    }

    /** The I/O handler. */
    method ProcessIo(ghost before: State) returns (st: Status)
      requires Dequeued(before)
      modifies this
      ensures Follows() && Continues() && wpc == WCheck && old(trace) + [WakeupThread] <= trace
      ensures st == if ShouldTerminate(old(procs[sleeping])) then Terminated else Ready
      ensures sleeping == old(sleeping) && (st == Terminated ==> procs[sleeping].status == Terminated)
      ensures var p := old(procs[sleeping]);
              st == Ready ==> (&& p.ioIndex < |p.line.io| && clock >= old(clock) + p.line.io[p.ioIndex]
                               && sleeping < |procs| && procs[sleeping].ioIndex == p.ioIndex + 1
                               && procs[sleeping].ioTime == p.ioTime + p.line.io[p.ioIndex])
    {
      hide Run, Admissible, Inv, Step, SameBursts, ShouldTerminate, Enqueue, Abs, Follows;
      if ShouldTerminate(procs[sleeping]) {
        FoundDone(before);
        TerminateSleeper();
        return Terminated;
      }
      IsAsleep(before);
      if procs[sleeping].status == Sleep {
        FoundIo(before);
        DoIo();
        ghost var ps := procs;
        AddToReadyQueue();
        ghost var qs := procs;
        PostReadyCount();
        SameIoTransitive(ps, qs, procs);
        return Ready;
      }
      assert false;
    }

    lemma IsAsleep(before: State)
      requires Dequeued(before)
      ensures procs[sleeping].status == Sleep
    {
      hide Run, Admissible, Inv, ShouldTerminate;
      RunInv(pol, w, origin, trace);
      SleeperHasIo(pol, before);
    }

    /** The test at the top of the wakeup loop. */
    method CheckWakeup() returns (again: bool)
      requires Follows() && wpc == WCheck
      modifies this
      ensures Follows() && Continues() && KeepsWaiting() && wpc == if again then WTry else WExit
      ensures again <==> terminated < |procs|
      ensures WakeupThread in trace[|old(trace)|..]
    {
      hide Run, Admissible, Inv, Step, SameBursts, ShouldTerminate, Enqueue;
      SchedulerRuns();
      var s := Abs();
      AtWakeupCheck(pol, s);
      again := terminated < |procs|;
      wpc := if again then WTry else WExit;
      ghost var before := trace;
      Ran(WakeupThread, s);
      assert trace[|before|] == WakeupThread;
    }

    /** The try-wait on the wait queue's semaphore. */
    method TryWaitWaiting()
      requires Follows() && wpc == WTry
      modifies this
      ensures Follows() && Continues()
      ensures wpc == WCheck || wpc == WDeq
      ensures old(waitCount) > 0 ==> wpc == WDeq
    {
      hide Run, Admissible, Inv, Step, SameBursts, ShouldTerminate, Enqueue;
      SchedulerRuns();
      var s := Abs();
      AtWakeupCheck(pol, s);
      if waitCount > 0 {
        waitCount, wpc := waitCount - 1, WDeq;
      } else {
        wpc := WCheck;
      }
      Ran(WakeupThread, s);
    }

    /** One pass of the wakeup loop. With all processes terminated it is the last; with a token there it
        dequeues a process and terminates it or does its I/O. */
    method WakeupPass() returns (again: bool)
      requires Follows() && wpc == WCheck
      modifies this
      ensures Follows() && Continues()
      ensures wpc == if again then WCheck else WExit
      ensures WakeupThread in trace[|old(trace)|..]
      ensures old(terminated) >= |old(procs)| ==> !again
      ensures !again ==> terminated >= |procs|
      ensures old(waitCount) > 0 ==> again && 0 <= Left() < old(Left())
    {
      hide Run, Admissible, Inv, Step, SameBursts, ShouldTerminate, Enqueue, Abs, Follows, Left;
      ghost var mark, left := trace, Left();
      LeftIsMeasure();
      again := CheckWakeup();
      ghost var first := trace;
      if !again {
        TokensAndLife();
        return;
      }
      TryWaitWaiting();
      Since(mark, left);
      if wpc == WDeq {
        TakeWaiting();
      }
      StillIn(WakeupThread, mark, first);
    }

    /** The dequeue after a successful try-wait; it always finds a process to handle. */
    method TakeWaiting()
      requires Follows() && wpc == WDeq
      modifies this
      ensures Follows() && Continues() && wpc == WCheck && 0 <= Left() < old(Left())
    {
      hide Run, Admissible, Inv, Step, SameBursts, ShouldTerminate, Enqueue, Follows, Left;
      ghost var first := trace;
      LeftIsMeasure();
      SchedulerRuns();
      ghost var before := trace;
      AtProgramPoint();
      HandleWaiting();
      LoweredSince(first, before);
    }

    method HandleWaiting()
      requires Follows() && wpc == WDeq
      modifies this
      ensures Follows() && Continues() && wpc == WCheck && old(trace) + [WakeupThread] <= trace
    {
      hide Run, Admissible, Inv, Step, SameBursts, ShouldTerminate, Enqueue;
      var s := Abs();
      RunInv(pol, w, origin, trace);
      WaitHasOne(pol, s);
      if wait == [] {
        assert false;
      }
      sleeping := wait[0].pid;
      wait := wait[1..];
      procs := procs[sleeping := Handled(procs[sleeping])];
      var st := ProcessIo(s);
    }

    lemma LoweredSince(first: seq<Thread>, before: seq<Thread>)
      requires Follows() && first <= before && before + [WakeupThread] <= trace
      requires Run(pol, w, origin, before).wpc.WDeq?
      ensures 0 <= Left() < Measure(Debt(w), Run(pol, w, origin, first))
    {
      hide Run, Measure, Debt;
      WaitDequeueLowers(pol, w, origin, first, before);
      Since(before + [WakeupThread], Measure(Debt(w), Run(pol, w, origin, before + [WakeupThread])));
    }
  }

  lemma InWakeupHand(pol: Policy, s: State, pid: nat)
    requires Inv(pol, s) && WPid(s.wpc) == [pid]
    ensures pid < |s.procs|
  {
    hide OnePlace;
    OnlyInWakeupHand(s, pid);
  }

  lemma StepIsScheduler(pol: Policy, s: State)
    ensures Step(pol, SchedulerThread, s) == SchedulerStep(pol, s)
  {
  }

  /** A scheduler step leaves the wakeup thread's program point and the process in its hand alone. */
  lemma SchedulerKeepsHand(pol: Policy, s: State, pid: nat)
    requires Inv(pol, s) && NonNegativeLines(s.procs)
    ensures var t := SchedulerStep(pol, s);
            && t.wpc == s.wpc && |t.procs| == |s.procs| && t.clock >= s.clock
            && (WPid(s.wpc) == [pid] ==> At(t, pid) == At(s, pid))
  {
    hide OnePlace, Tokens, Counter, PcFits, ProcsOk, QueuesOk, SchedulerStage, WakeupStage, ChargeBurst, HandOver,
         InRange;
    if Charging(s.spc) {
      ChargeClock(pol, s);
      ChargeChanges(pol, s);
    } else if !Polling(s.spc) {
      HandOverKeeps(pol, s, pid);
    }
    if WPid(s.wpc) == [pid] {
      OnlyInWakeupHand(s, pid);
    }
  }

  lemma ChargeClock(pol: Policy, s: State)
    requires Charging(s.spc) && NonNegativeLines(s.procs)
    ensures ChargeBurst(pol, s).clock >= s.clock && ChargeBurst(pol, s).wpc == s.wpc
  {
    hide HeadIsShorter, Refill, CloseBurst, Replace;
    if s.spc.SAdd? && s.spc.pid < |s.procs| {
      assert NonNegative(s.procs[s.spc.pid].line.cpu);
    }
  }

  lemma HandOverKeeps(pol: Policy, s: State, pid: nat)
    requires OnePlace(s) && !Polling(s.spc) && !Charging(s.spc)
    ensures var t := HandOver(pol, s);
            && t.wpc == s.wpc && |t.procs| == |s.procs| && t.clock >= s.clock
            && (WPid(s.wpc) == [pid] ==> At(t, pid) == At(s, pid))
  {
    hide ShouldTerminate, Enqueue, OnePlace;
    if WPid(s.wpc) == [pid] {
      OnlyInWakeupHand(s, pid);
    }
  }

  lemma AllDone(pol: Policy, s: State)
    requires Inv(pol, s) && s.spc.SExit?
    ensures s.terminated >= |s.procs| && s.ready == [] && s.wait == []
  {
    hide OnePlace, Tokens, PcFits, ProcsOk, QueuesOk, SchedulerStage, WakeupStage;
    DeadBound(s.procs);
  }

  lemma WaitHasOne(pol: Policy, s: State)
    requires Inv(pol, s) && s.wpc.WDeq?
    ensures s.wait != [] && s.wait[0].pid < |s.procs|
  {
    hide OnePlace, Counter, PcFits;
  }

  lemma SleeperHasIo(pol: Policy, s: State)
    requires Inv(pol, s) && s.wpc.WDeq? && s.wait != []
    ensures s.wait[0].pid < |s.procs|
    ensures var p := Handled(s.procs[s.wait[0].pid]);
            p.status == Sleep && (!ShouldTerminate(p) ==> p.ioIndex < |p.line.io|)
  {
    hide OnePlace, Counter, PcFits;
    TerminateOnIo(s.procs[s.wait[0].pid]);
  }

  lemma SwapOf(pol: Policy, w: seq<Line>, clock: int, schedule: seq<Thread>, pid: nat)
    requires Admissible(pol, w) && pol.Srtf?
    requires Run(pol, w, clock, schedule).spc == SSwapDeq(pid) && pid < |Run(pol, w, clock, schedule).procs|
    ensures var s := Run(pol, w, clock, schedule);
            && s.ready != [] && s.ready[0].pid < |s.procs|
            && var next := s.ready[0].pid;
               var p := Handled(s.procs[next]);
               && (CpuEndedWorkload(w) ==> next != pid && p.remaining < s.procs[pid].remaining && !ShouldTerminate(p))
               && Step(pol, SchedulerThread, s) ==
                  s.(procs := s.procs[next := p], ready := s.ready[1..], depth := s.depth + 1,
                     spc := if ShouldTerminate(p) then STermAdd(next) else SStart(next))
  {
    hide Run, Inv, Admissible, CpuEndedWorkload, SchedulerStep, Step, ShouldTerminate;
    RunInv(pol, w, clock, schedule);
    AtSwapDequeue(pol, Run(pol, w, clock, schedule), pid);
    if CpuEndedWorkload(w) {
      SwapGoesToShorter(pol.resume, w, clock, schedule);
      StepIsScheduler(pol, Run(pol, w, clock, schedule));
    }
  }

  lemma DequeueOf(pol: Policy, w: seq<Line>, clock: int, schedule: seq<Thread>)
    requires Admissible(pol, w) && (pol.Rr? ==> pol.quantum >= 0)
    requires Run(pol, w, clock, schedule).spc.SDeq? && Run(pol, w, clock, schedule).depth == 0
    ensures var s := Run(pol, w, clock, schedule);
            && s.ready != [] && s.ready[0].pid < |s.procs|
            && var pid := s.ready[0].pid;
               var p := Handled(s.procs[pid]);
               Step(pol, SchedulerThread, s) ==
               s.(procs := s.procs[pid := p], ready := s.ready[1..], entry := p.remaining,
                  spc := if ShouldTerminate(p) then STermAdd(pid) else SStart(pid))
  {
    hide Run, Inv, Admissible, SchedulerStep, Step, ShouldTerminate;
    RunInv(pol, w, clock, schedule);
    AtDequeue(pol, Run(pol, w, clock, schedule));
  }

  lemma StartOf(pol: Policy, w: seq<Line>, clock: int, schedule: seq<Thread>, pid: nat)
    requires Supported(pol, w) && Run(pol, w, clock, schedule).spc == SStart(pid)
    ensures var s := Run(pol, w, clock, schedule);
            && pid < |s.procs| && s.procs[pid].cpuIndex < |s.procs[pid].line.cpu|
            && (pol.Srtf? && CpuEndedWorkload(w) ==> s.procs[pid].remaining >= 1)
  {
    hide Run, Inv, Admissible, CpuEndedWorkload, SrtfInv;
    var s := Run(pol, w, clock, schedule);
    RunInv(pol, w, clock, schedule);
    HoldsBurst(pol, s, pid);
    if pol.Srtf? && CpuEndedWorkload(w) {
      RunSrtf(pol.resume, w, clock, schedule);
      StartsWithBurst(pol, s, pid);
    }
  }

  /** Up to a step that does more than poll the work left does not grow, and that step lowers it. */
  lemma WorkLowers(pol: Policy, w: seq<Line>, clock: int, a: seq<Thread>, b: seq<Thread>)
    requires Supported(pol, w) && a <= b && (Run(pol, w, clock, b).spc.SStart? || Run(pol, w, clock, b).spc.SDeq?)
    ensures Measure(Debt(w), Run(pol, w, clock, b + [SchedulerThread])) < Measure(Debt(w), Run(pol, w, clock, a))
  {
    hide Run, Step, SchedulerStep, Steady, Measure, Debt;
    assert b == a + b[|a|..];
    NeverRaises(pol, w, clock, a, b[|a|..]);
    RunSteady(pol, w, clock, b);
    RunSnoc(pol, w, clock, b, SchedulerThread);
    StepIsScheduler(pol, Run(pol, w, clock, b));
    LowersScheduler(pol, Debt(w), Run(pol, w, clock, b));
  }

  lemma WaitDequeueLowers(pol: Policy, w: seq<Line>, clock: int, a: seq<Thread>, b: seq<Thread>)
    requires Supported(pol, w) && a <= b && Run(pol, w, clock, b).wpc.WDeq?
    ensures Measure(Debt(w), Run(pol, w, clock, b + [WakeupThread])) < Measure(Debt(w), Run(pol, w, clock, a))
  {
    hide Run, Step, WakeupStep, Steady, Measure, Debt, Inv;
    assert b == a + b[|a|..];
    NeverRaises(pol, w, clock, a, b[|a|..]);
    RunInv(pol, w, clock, b);
    RunSnoc(pol, w, clock, b, WakeupThread);
    StepIsWakeup(pol, Run(pol, w, clock, b));
    LowersWakeup(pol, Debt(w), Run(pol, w, clock, b));
  }

  lemma StartsWithBurst(pol: Policy, s: State, pid: nat)
    requires Inv(pol, s) && pol.Srtf? && SrtfInv(pol.resume, s) && s.spc == SStart(pid)
    ensures pid < |s.procs|
    ensures var p := s.procs[pid]; p.cpuIndex < |p.line.cpu| && p.remaining >= 1
  {
    hide OnePlace, AtRest;
    HoldsBurst(pol, s, pid);
    assert AtRest(s.procs[pid]);
    RestLeft(s.procs[pid]);
  }

  /** A process some ticks later. */
  function Ticked(p: Proc, n: nat): Proc {
    p.(cpuTime := p.cpuTime + n, processTime := p.processTime + n, remaining := p.remaining - n,
       h := p.h.(burst := p.h.burst.(ticks := p.h.burst.ticks + n)))
  }

  /** How much of a burst one dispatch runs under a quantum. */
  function Slice(quantum: int, burst: int): (r: nat)
    ensures burst >= 0 && quantum >= 0 ==> r <= burst && r <= quantum && (r == burst || r == quantum)
  {
    if burst <= 0 || quantum <= 0 then 0 else if burst < quantum then burst else quantum
  }

  lemma SameIndex(a: seq<Proc>, b: seq<Proc>, pid: nat)
    requires SameBursts(a, b) && pid < |a|
    ensures pid < |b| && b[pid].cpuIndex == a[pid].cpuIndex && b[pid].remaining == a[pid].remaining
  {
  }

  /** One burst further: its length was added to both clocks of the process, and the logged slice
      from start to end is at least as long. */
  predicate Charged(p: Proc, q: Proc, start: int, end: int) {
    p.cpuIndex < |p.line.cpu| &&
    var b := p.line.cpu[p.cpuIndex];
    && q.line == p.line && q.cpuIndex == p.cpuIndex + 1 && q.ioIndex == p.ioIndex && q.status == Sleep
    && q.cpuTime == (if p.status == New then b else p.cpuTime + b)
    && q.processTime == p.processTime + b
    && end - start >= b
  }

  /** A process dispatched for a burst has one, and it is the burst its CPU index names. */
  lemma HoldsBurst(pol: Policy, s: State, pid: nat)
    requires Inv(pol, s) && (s.spc == SStart(pid) || s.spc == SAdd(pid) || s.spc == SEnd(pid))
    ensures pid < |s.procs|
    ensures var p := s.procs[pid];
            p.cpuIndex < |p.line.cpu| && BurstIndex(p) == p.cpuIndex && OnCpu(p) && ProcOk(p)
  {
    hide OnePlace;
  }

  predicate InSchedulersHand(pc: SPc, pid: nat) {
    HandBefore(pc) == [pid] || HandAfter(pc) == [pid]
  }

  lemma InHand(pol: Policy, s: State, pid: nat)
    requires Inv(pol, s) && InSchedulersHand(s.spc, pid)
    ensures pid < |s.procs|
  {
    hide OnePlace;
    OnlyInHand(s, pid);
  }

  lemma StepIsWakeup(pol: Policy, s: State)
    ensures Step(pol, WakeupThread, s) == WakeupStep(pol, s)
  {
  }

  lemma SameBurstsTransitive(a: seq<Proc>, b: seq<Proc>, c: seq<Proc>)
    requires SameBursts(a, b) && SameBursts(b, c)
    ensures SameBursts(a, c)
  {
  }

  lemma WakeupPosts(pol: Policy, s: State)
    ensures var t := WakeupStep(pol, s); t.readyCount >= s.readyCount && t.terminated >= s.terminated
  {
    hide ShouldTerminate, Enqueue, At, Replace;
  }

  lemma SchedulerPosts(pol: Policy, s: State)
    ensures var t := SchedulerStep(pol, s); t.waitCount >= s.waitCount && t.terminated >= s.terminated
  {
    hide ShouldTerminate, Enqueue, At, Replace, HeadIsShorter, Tick, Refill, CloseBurst, BurstIndex, Preempt;
  }

  /** While there is a token somebody is not terminated. */
  lemma TokenMeansLife(pol: Policy, s: State)
    requires Inv(pol, s)
    ensures s.readyCount > 0 ==> s.ready != [] && s.terminated < |s.procs|
    ensures s.waitCount > 0 ==> s.wait != [] && s.terminated < |s.procs|
  {
    hide OnePlace, PcFits, ProcsOk, QueuesOk, SchedulerStage, WakeupStage;
  }

  /** A wakeup step leaves the scheduler's own variables and the process in its hand alone. */
  lemma WakeupKeepsHand(pol: Policy, s: State, pid: nat)
    requires Inv(pol, s)
    ensures var t := WakeupStep(pol, s);
            && t.spc == s.spc && t.depth == s.depth && t.entry == s.entry
            && t.start == s.start && t.end == s.end && t.log == s.log
            && |t.procs| == |s.procs| && SameBursts(s.procs, t.procs)
            && (InSchedulersHand(s.spc, pid) ==> At(t, pid) == At(s, pid))
  {
    hide ShouldTerminate, Enqueue, OnePlace, SameBursts, Tokens, Counter, PcFits, ProcsOk, QueuesOk, SchedulerStage,
         WakeupStage;
    BurstsWakeup(pol, s);
    if InSchedulersHand(s.spc, pid) {
      OnlyInHand(s, pid);
    }
  }

  const BLANK := State([], [], [], 0, 0, 0, 0, 0, 0, [], SCheck, WCheck, 0, 0)

  /** The globals in the middle of the arrival phase. */
  function Arriving(pol: Policy, w: seq<Line>, j: nat, clock: int): State
    requires Admissible(pol, w) && j <= |w|
  {
    var ps := NewProcs(pol, w);
    BLANK.(procs := ps[..j], ready := Arrived(pol, ps, j), readyCount := j, clock := clock)
  }

  /** These are the admission times of the first processes. */
  predicate Timed(w: seq<Line>, times: seq<int>) {
    |times| <= |w| && forall i | 0 <= i < |times| :: times[i] == Admitted(w, i)
  }

  lemma NothingTimed(w: seq<Line>)
    ensures Timed(w, [])
  {
  }

  lemma TimedNext(w: seq<Line>, times: seq<int>, t: int)
    requires Timed(w, times) && |times| < |w| && t == Admitted(w, |times|)
    ensures Timed(w, times + [t])
  {
  }

  function Earliest(w: seq<Line>, j: nat): int
    requires j < |w|
  {
    if j == 0 then 0 else Admitted(w, j - 1) + 1
  }

  lemma AdmittedNext(w: seq<Line>, j: nat)
    requires j < |w|
    ensures Earliest(w, j) <= Admitted(w, j) && w[j].arrival <= Admitted(w, j)
    ensures Admitted(w, j) == Earliest(w, j) || Admitted(w, j) == w[j].arrival
  {
  }

  lemma ArrivedNext(pol: Policy, w: seq<Line>, j: nat)
    requires Admissible(pol, w) && j < |w|
    ensures pol != Fcfs ==> |w[j].cpu| >= 1
    ensures var ps, p := NewProcs(pol, w), NewProc(pol, w[j]);
            && ps[..j + 1] == ps[..j] + [p]
            && Arrived(pol, ps, 0) == []
            && Arrived(pol, ps, j + 1) == Enqueue(pol, Arrived(pol, ps, j), j, p.priority)
  {
    hide Enqueue;
  }

  lemma AllArrived(pol: Policy, w: seq<Line>, clock: int)
    requires Admissible(pol, w)
    ensures Init(pol, w, clock) == Arriving(pol, w, |w|, clock)
  {
    hide Arrived;
    var ps := NewProcs(pol, w);
    assert ps[..|w|] == ps;
  }

  lemma StartsEmpty(pol: Policy, w: seq<Line>)
    requires Admissible(pol, w)
    ensures |w| >= 1 && Arriving(pol, w, 0, 0) == BLANK
  {
  }
}
