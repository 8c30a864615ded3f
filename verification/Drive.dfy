// Several steps of one thread in a row, as updates of a state that some run of SRTF reaches.
module Drive {
  import opened Workload
  import opened QueueSpec
  import opened Protocol
  import opened Safety
  import opened Liveness
  import opened Steps

  /** SRTF as it is written. */
  const AS_WRITTEN := Srtf(false)

  /** Some schedule leads to this state. */
  ghost predicate Reached(pol: Policy, w: seq<Line>, clock: int, s: State)
    requires Admissible(pol, w)
  {
    exists schedule :: Run(pol, w, clock, schedule) == s
  }

  lemma ReachedStart(pol: Policy, w: seq<Line>, clock: int)
    requires Admissible(pol, w)
    ensures Reached(pol, w, clock, Init(pol, w, clock))
  {
    hide Run;
    RunNothing(pol, w, clock);
  }

  lemma ReachedStep(pol: Policy, w: seq<Line>, clock: int, s: State, t: Thread)
    requires Admissible(pol, w) && Reached(pol, w, clock, s)
    ensures Reached(pol, w, clock, Step(pol, t, s))
  {
    hide Run, Step;
    var a :| Run(pol, w, clock, a) == s;
    RunSnoc(pol, w, clock, a, t);
  }

  lemma ReachedInv(pol: Policy, w: seq<Line>, clock: int, s: State)
    requires Supported(pol, w) && Reached(pol, w, clock, s)
    ensures Inv(pol, s)
  {
    hide Run, Inv;
    var a :| Run(pol, w, clock, a) == s;
    RunInv(pol, w, clock, a);
  }

  // ----- The wakeup thread -----

  function Woken(p: Proc): Proc
    requires p.ioIndex < |p.line.io|
  {
    StartIo(Handled(p))
  }

  /** Takes the first sleeper and begins its I/O. */
  lemma WakesUp(pol: Policy, w: seq<Line>, clock: int, s: State) returns (t: State)
    requires Admissible(pol, w) && Reached(pol, w, clock, s)
    requires s.wpc.WCheck? && s.terminated < |s.procs| && s.waitCount > 0
    requires s.wait != [] && s.wait[0].pid < |s.procs|
    requires var p := s.procs[s.wait[0].pid];
             p.status == Sleep && p.ioIndex < |p.line.io| && !ShouldTerminate(Handled(p))
    ensures Reached(pol, w, clock, t)
    ensures var y := s.wait[0].pid;
            t == s.(procs := s.procs[y := Woken(s.procs[y])], wait := s.wait[1..], waitCount := s.waitCount - 1,
                    wpc := WAdd(y))
  {
    hide Step, Reached, ShouldTerminate;
    AtWakeupCheck(pol, s);
    ReachedStep(pol, w, clock, s, WakeupThread);
    var s1 := Step(pol, WakeupThread, s);
    AtWakeupCheck(pol, s1);
    ReachedStep(pol, w, clock, s1, WakeupThread);
    var s2 := Step(pol, WakeupThread, s1);
    AtWakeupDequeue(pol, s2);
    ReachedStep(pol, w, clock, s2, WakeupThread);
    t := Step(pol, WakeupThread, s2);
  }

  /** And ends it, puts the process into the ready queue and posts. */
  lemma ComesIn(pol: Policy, w: seq<Line>, clock: int, s: State, y: nat) returns (t: State)
    requires Admissible(pol, w) && Reached(pol, w, clock, s)
    requires s.wpc == WAdd(y) && y < |s.procs| && s.procs[y].ioIndex < |s.procs[y].line.io|
    ensures Reached(pol, w, clock, t)
    ensures var p := s.procs[y];
            t == s.(procs := s.procs[y := FinishIo(p)], clock := s.clock + p.line.io[p.ioIndex],
                    ready := Enqueue(pol, s.ready, y, p.priority), readyCount := s.readyCount + 1, wpc := WCheck)
  {
    hide Step, Reached, Enqueue;
    AtWakeupAdd(pol, s, y);
    ReachedStep(pol, w, clock, s, WakeupThread);
    var s1 := Step(pol, WakeupThread, s);
    AtWakeupPut(pol, s1, y);
    ReachedStep(pol, w, clock, s1, WakeupThread);
    var s2 := Step(pol, WakeupThread, s1);
    AtWakeupPost(pol, s2);
    ReachedStep(pol, w, clock, s2, WakeupThread);
    t := Step(pol, WakeupThread, s2);
  }

  // ----- The scheduler -----

  /** From the top of the loop to the dispatch of the head. */
  lemma Dispatches(pol: Policy, w: seq<Line>, clock: int, s: State) returns (t: State)
    requires Supported(pol, w) && Reached(pol, w, clock, s)
    requires s.spc.SCheck? && s.terminated < |s.procs| && s.readyCount > 0 && s.depth == 0
    requires s.ready != [] && s.ready[0].pid < |s.procs| && !ShouldTerminate(Handled(s.procs[s.ready[0].pid]))
    ensures Reached(pol, w, clock, t)
    ensures var x := s.ready[0].pid;
            t == s.(procs := s.procs[x := Handled(s.procs[x])], ready := s.ready[1..], readyCount := s.readyCount - 1,
                    entry := s.procs[x].remaining, spc := SStart(x))
  {
    hide Step, Reached, ShouldTerminate, Inv;
    AtPolling(pol, s);
    ReachedStep(pol, w, clock, s, SchedulerThread);
    var s1 := Step(pol, SchedulerThread, s);
    AtPolling(pol, s1);
    ReachedStep(pol, w, clock, s1, SchedulerThread);
    var s2 := Step(pol, SchedulerThread, s1);
    AtPolling(pol, s2);
    ReachedStep(pol, w, clock, s2, SchedulerThread);
    var s3 := Step(pol, SchedulerThread, s2);
    ReachedInv(pol, w, clock, s3);
    AtDequeue(pol, s3);
    ReachedStep(pol, w, clock, s3, SchedulerThread);
    t := Step(pol, SchedulerThread, s3);
  }

  /** Into the tick loop and up to the first test. */
  lemma TicksOnce(pol: Policy, w: seq<Line>, clock: int, s: State, x: nat) returns (t: State)
    requires Admissible(pol, w) && Reached(pol, w, clock, s) && pol == Srtf(false)
    requires s.spc == SStart(x) && x < |s.procs| && s.procs[x].cpuIndex < |s.procs[x].line.cpu|
    requires s.procs[x].line.cpu[s.procs[x].cpuIndex] >= 1
    ensures Reached(pol, w, clock, t)
    ensures t == s.(procs := s.procs[x := Tick(s.procs[x])], start := s.clock, clock := s.clock + 1,
                    spc := STest(x, 1, s.procs[x].line.cpu[s.procs[x].cpuIndex]))
  {
    hide Step, Reached, Tick;
    AtSliceStart(pol, s, x);
    ReachedStep(pol, w, clock, s, SchedulerThread);
    var s1 := Step(pol, SchedulerThread, s);
    AtTick(pol, s1, x, 0, s.procs[x].line.cpu[s.procs[x].cpuIndex]);
    ReachedStep(pol, w, clock, s1, SchedulerThread);
    t := Step(pol, SchedulerThread, s1);
  }

  /** A test that fails, and one tick more. */
  lemma TicksOn(pol: Policy, w: seq<Line>, clock: int, s: State, x: nat) returns (t: State)
    requires Admissible(pol, w) && Reached(pol, w, clock, s) && pol.Srtf?
    requires s.spc.STest? && s.spc.pid == x && s.spc.time < s.spc.procTime && x < |s.procs| && !HeadIsShorter(s, x)
    ensures Reached(pol, w, clock, t)
    ensures t == s.(procs := s.procs[x := Tick(s.procs[x])], clock := s.clock + 1,
                    spc := STest(x, s.spc.time + 1, s.spc.procTime))
  {
    hide Step, Reached, HeadIsShorter, Tick;
    AtTest(pol, s, x, s.spc.time, s.spc.procTime);
    ReachedStep(pol, w, clock, s, SchedulerThread);
    var s1 := Step(pol, SchedulerThread, s);
    AtTick(pol, s1, x, s.spc.time, s.spc.procTime);
    ReachedStep(pol, w, clock, s1, SchedulerThread);
    t := Step(pol, SchedulerThread, s1);
  }

  /** A test that succeeds, and the swap with the only other ready process. */
  lemma Swaps(pol: Policy, w: seq<Line>, clock: int, s: State, x: nat, y: nat) returns (t: State)
    requires Supported(pol, w) && Reached(pol, w, clock, s) && pol.Srtf?
    requires s.spc.STest? && s.spc.pid == x && x < |s.procs| && y < |s.procs| && x != y && s.ready != []
    requires s.ready[0].pid == y && s.ready[0].key == s.procs[y].remaining < s.procs[x].remaining
    requires !ShouldTerminate(Handled(s.procs[y]))
    ensures Reached(pol, w, clock, t)
    ensures t == s.(procs := s.procs[x := Preempt(s.procs[x])][y := Handled(s.procs[y])],
                    ready := Insert(s.ready, Node(x, s.procs[x].remaining))[1..], end := s.clock,
                    log := s.log + [Entry(x, s.procs[x].cpuIndex, s.start, s.clock)],
                    depth := s.depth + 1, spc := SStart(y))
  {
    hide Step, Reached, ShouldTerminate, Inv, Preempt, Insert;
    HeadWins(s, x, y);
    AtTest(pol, s, x, s.spc.time, s.spc.procTime);
    ReachedStep(pol, w, clock, s, SchedulerThread);
    var s1 := Step(pol, SchedulerThread, s);
    AtSwapEnd(pol, s1, x);
    ReachedStep(pol, w, clock, s1, SchedulerThread);
    var s2 := Step(pol, SchedulerThread, s1);
    PreemptedKey(s.procs[x]);
    AtSwapPut(pol, s2, x);
    ReachedStep(pol, w, clock, s2, SchedulerThread);
    var s3 := Step(pol, SchedulerThread, s2);
    InsertFront(s2.ready, Node(x, s.procs[x].remaining));
    ReachedInv(pol, w, clock, s3);
    AtSwapDequeue(pol, s3, x);
    ReachedStep(pol, w, clock, s3, SchedulerThread);
    t := Step(pol, SchedulerThread, s3);
  }

  /** The same test with a stale head: the swap inserts the runner before it and takes it out again. */
  lemma SwapsWithItself(pol: Policy, w: seq<Line>, clock: int, s: State, x: nat, y: nat) returns (t: State)
    requires Supported(pol, w) && Reached(pol, w, clock, s) && pol.Srtf?
    requires s.spc.STest? && s.spc.pid == x && x < |s.procs| && y < |s.procs| && s.ready != []
    requires s.ready[0].pid == y && s.procs[y].remaining < s.procs[x].remaining < s.ready[0].key
    requires !ShouldTerminate(Handled(Preempt(s.procs[x])))
    ensures Reached(pol, w, clock, t)
    ensures t == s.(procs := s.procs[x := Handled(Preempt(s.procs[x]))], end := s.clock,
                    log := s.log + [Entry(x, s.procs[x].cpuIndex, s.start, s.clock)],
                    depth := s.depth + 1, spc := SStart(x))
  {
    hide Step, Reached, ShouldTerminate, Inv, Preempt;
    HeadWins(s, x, y);
    AtTest(pol, s, x, s.spc.time, s.spc.procTime);
    ReachedStep(pol, w, clock, s, SchedulerThread);
    var s1 := Step(pol, SchedulerThread, s);
    AtSwapEnd(pol, s1, x);
    ReachedStep(pol, w, clock, s1, SchedulerThread);
    var s2 := Step(pol, SchedulerThread, s1);
    PreemptedKey(s.procs[x]);
    AtSwapPut(pol, s2, x);
    ReachedStep(pol, w, clock, s2, SchedulerThread);
    var s3 := Step(pol, SchedulerThread, s2);
    InsertedFirst(s2.ready, Node(x, s.procs[x].remaining));
    ReachedInv(pol, w, clock, s3);
    AtSwapDequeue(pol, s3, x);
    ReachedStep(pol, w, clock, s3, SchedulerThread);
    t := Step(pol, SchedulerThread, s3);
  }

  lemma InsertedFirst(q: seq<Node>, x: Node)
    requires q != [] && x.key < q[0].key
    ensures Insert(q, x) == [x] + q
  {
  }

  lemma HeadWins(s: State, x: nat, y: nat)
    requires s.ready != [] && s.ready[0].pid == y && x < |s.procs| && y < |s.procs|
    requires s.procs[y].remaining < s.procs[x].remaining
    ensures HeadIsShorter(s, x)
  {
  }

  lemma PreemptedKey(p: Proc)
    ensures Preempt(p).priority == p.remaining
  {
  }

  /** A test that fails after the last tick, and the way to the log. */
  lemma Ends(pol: Policy, w: seq<Line>, clock: int, s: State, x: nat) returns (t: State)
    requires Admissible(pol, w) && Reached(pol, w, clock, s) && pol.Srtf?
    requires s.spc.STest? && s.spc.pid == x && s.spc.time >= s.spc.procTime && x < |s.procs| && !HeadIsShorter(s, x)
    ensures Reached(pol, w, clock, t)
    ensures var p := Refill(pol, s.procs[x]);
            t == s.(procs := s.procs[x := p], end := s.clock, wait := Enqueue(pol, s.wait, x, p.priority),
                    waitCount := s.waitCount + 1, spc := SLog(x))
  {
    hide Step, Reached, HeadIsShorter, Refill, Enqueue;
    AtTest(pol, s, x, s.spc.time, s.spc.procTime);
    ReachedStep(pol, w, clock, s, SchedulerThread);
    var s1 := Step(pol, SchedulerThread, s);
    AtTick(pol, s1, x, s.spc.time, s.spc.procTime);
    ReachedStep(pol, w, clock, s1, SchedulerThread);
    var s2 := Step(pol, SchedulerThread, s1);
    AtPut(pol, s2, x);
    ReachedStep(pol, w, clock, s2, SchedulerThread);
    var s3 := Step(pol, SchedulerThread, s2);
    AtPost(pol, s3, x);
    ReachedStep(pol, w, clock, s3, SchedulerThread);
    t := Step(pol, SchedulerThread, s3);
  }

  /** Out of all suspended calls. */
  lemma {:induction false} Unwinds(pol: Policy, w: seq<Line>, clock: int, s: State, x: nat) returns (t: State)
    requires Admissible(pol, w) && Reached(pol, w, clock, s) && s.spc == SLog(x) && x < |s.procs|
    ensures Reached(pol, w, clock, t) && t == s.(log := t.log, depth := 0, spc := SCheck)
    decreases s.depth
  {
    hide Step, Reached;
    AtLog(pol, s, x);
    ReachedStep(pol, w, clock, s, SchedulerThread);
    t := Step(pol, SchedulerThread, s);
    if s.depth > 0 {
      t := Unwinds(pol, w, clock, t, x);
    }
  }
}
