// How deep SRTF's recursion can get: two calls if all lines end in a CPU burst, else any number.
module DepthRuns {
  import opened Workload
  import opened QueueSpec
  import opened Protocol
  import opened Srtf
  import opened Drive

  // ----- Two suspended calls -----

  const TWICE_JOBS := [Line(0, [5], []), Line(1, [1, 3], [1]), Line(2, [1, 1], [1])]

  /** Its burst in turn, with what is left of it. */
  predicate AtBurst(i: nat, j: nat, remaining: int, p: Proc)
    requires i < 3
  {
    && p.line == TWICE_JOBS[i] && p.cpuIndex == j && p.ioIndex == 0 && p.remaining == remaining
    && j < |p.line.cpu|
  }

  predicate Quiet(s: State) {
    |s.procs| == 3 && s.terminated == 0 && s.readyCount == |s.ready| && s.waitCount == |s.wait|
  }

  /** Process 1 has run its first burst and is on its way back. */
  predicate OneOut(s: State) {
    && Quiet(s) && s.depth == 0 && s.spc.SCheck? && s.wpc == WAdd(1)
    && s.ready == [Node(2, 1), Node(0, 5)] && s.wait == []
    && AtBurst(0, 0, 5, s.procs[0]) && s.procs[0].status == New
    && AtBurst(1, 1, 3, s.procs[1]) && s.procs[1].priority == 3
    && AtBurst(2, 0, 1, s.procs[2]) && s.procs[2].status == New
  }

  /** Process 2 too, behind it in the wait queue with a smaller key. */
  predicate BothOut(s: State) {
    && Quiet(s) && s.depth == 0 && s.spc.SCheck? && s.wpc == WAdd(1)
    && s.ready == [Node(0, 5)] && s.wait == [Node(2, 1)]
    && AtBurst(0, 0, 5, s.procs[0]) && s.procs[0].status == New
    && AtBurst(1, 1, 3, s.procs[1]) && s.procs[1].priority == 3
    && AtBurst(2, 1, 1, s.procs[2]) && s.procs[2].priority == 1 && s.procs[2].status == Sleep
  }

  /** Process 1 is back and has interrupted process 0. */
  predicate OneBack(s: State) {
    && Quiet(s) && s.depth == 1 && s.entry == 5 && s.spc == STest(1, 1, 3) && s.wpc == WCheck
    && s.ready == [Node(0, 4)] && s.wait == [Node(2, 1)]
    && s.procs[1].remaining == 2
    && AtBurst(2, 1, 1, s.procs[2]) && s.procs[2].priority == 1 && s.procs[2].status == Sleep
  }

  lemma TwiceFits(clock: int)
    ensures Admissible(AS_WRITTEN, TWICE_JOBS) && CpuEndedWorkload(TWICE_JOBS)
    ensures Init(AS_WRITTEN, TWICE_JOBS, clock).ready == [Node(1, 1), Node(2, 1), Node(0, 5)]
  {
    var ps := NewProcs(AS_WRITTEN, TWICE_JOBS);
    assert Arrived(AS_WRITTEN, ps, 2) == [Node(1, 1), Node(0, 5)] by {
      assert Arrived(AS_WRITTEN, ps, 0) == [];
      assert Arrived(AS_WRITTEN, ps, 1) == [Node(0, 5)];
    }
  }

  lemma SendsOne(clock: int) returns (t: State)
    requires Admissible(AS_WRITTEN, TWICE_JOBS)
    ensures Reached(AS_WRITTEN, TWICE_JOBS, clock, t) && OneOut(t)
  {
    hide Reached;
    TwiceFits(clock);
    ReachedStart(AS_WRITTEN, TWICE_JOBS, clock);
    t := Init(AS_WRITTEN, TWICE_JOBS, clock);
    hide Init;
    t := Dispatches(AS_WRITTEN, TWICE_JOBS, clock, t);
    t := TicksOnce(AS_WRITTEN, TWICE_JOBS, clock, t, 1);
    t := Ends(AS_WRITTEN, TWICE_JOBS, clock, t, 1);
    t := Unwinds(AS_WRITTEN, TWICE_JOBS, clock, t, 1);
    t := WakesUp(AS_WRITTEN, TWICE_JOBS, clock, t);
  }

  lemma SendsBoth(clock: int, s: State) returns (t: State)
    requires Admissible(AS_WRITTEN, TWICE_JOBS) && Reached(AS_WRITTEN, TWICE_JOBS, clock, s) && OneOut(s)
    ensures Reached(AS_WRITTEN, TWICE_JOBS, clock, t) && BothOut(t)
  {
    hide Reached;
    t := Dispatches(AS_WRITTEN, TWICE_JOBS, clock, s);
    t := TicksOnce(AS_WRITTEN, TWICE_JOBS, clock, t, 2);
    t := Ends(AS_WRITTEN, TWICE_JOBS, clock, t, 2);
    t := Unwinds(AS_WRITTEN, TWICE_JOBS, clock, t, 2);
  }

  /** Process 0 has made its first test, with process 1 back below it. */
  predicate Challenged(s: State) {
    && Quiet(s) && s.depth == 0 && s.entry == 5 && s.spc == STest(0, 1, 5) && s.wpc == WCheck
    && s.ready == [Node(1, 3)] && s.wait == [Node(2, 1)]
    && s.procs[0].remaining == 4
    && s.procs[1].line == TWICE_JOBS[1] && s.procs[1].cpuIndex == 1 && s.procs[1].ioIndex == 1
    && s.procs[1].remaining == 3 && s.procs[1].status == Ready
    && AtBurst(2, 1, 1, s.procs[2]) && s.procs[2].priority == 1 && s.procs[2].status == Sleep
  }

  lemma ReturnsOnce(clock: int, s: State) returns (t: State)
    requires Admissible(AS_WRITTEN, TWICE_JOBS) && Reached(AS_WRITTEN, TWICE_JOBS, clock, s) && BothOut(s)
    ensures Reached(AS_WRITTEN, TWICE_JOBS, clock, t) && Challenged(t)
  {
    hide Reached;
    t := Dispatches(AS_WRITTEN, TWICE_JOBS, clock, s);
    t := TicksOnce(AS_WRITTEN, TWICE_JOBS, clock, t, 0);
    t := ComesIn(AS_WRITTEN, TWICE_JOBS, clock, t, 1);
  }

  lemma InterruptsOnce(clock: int, s: State) returns (t: State)
    requires Admissible(AS_WRITTEN, TWICE_JOBS) && Reached(AS_WRITTEN, TWICE_JOBS, clock, s) && Challenged(s)
    ensures Reached(AS_WRITTEN, TWICE_JOBS, clock, t) && OneBack(t)
  {
    hide Reached;
    t := Swaps(AS_WRITTEN, TWICE_JOBS, clock, s, 0, 1);
    t := TicksOnce(AS_WRITTEN, TWICE_JOBS, clock, t, 1);
  }

  lemma InterruptsTwice(clock: int, s: State) returns (t: State)
    requires Admissible(AS_WRITTEN, TWICE_JOBS) && Reached(AS_WRITTEN, TWICE_JOBS, clock, s) && OneBack(s)
    ensures Reached(AS_WRITTEN, TWICE_JOBS, clock, t) && t.depth == 2 && t.entry == 5
  {
    hide Reached;
    t := WakesUp(AS_WRITTEN, TWICE_JOBS, clock, s);
    t := ComesIn(AS_WRITTEN, TWICE_JOBS, clock, t, 2);
    t := Swaps(AS_WRITTEN, TWICE_JOBS, clock, t, 1, 2);
  }

  /** Two calls can be suspended at once, below a process that had no more than five ticks to run. */
  lemma TwoSuspended(clock: int)
    ensures Admissible(AS_WRITTEN, TWICE_JOBS) && CpuEndedWorkload(TWICE_JOBS)
    ensures exists schedule ::
              var s := Run(AS_WRITTEN, TWICE_JOBS, clock, schedule); s.depth == 2 && s.entry == 5
  {
    hide Run, OneOut, BothOut, Challenged, OneBack;
    TwiceFits(clock);
    var s := SendsOne(clock);
    s := SendsBoth(clock, s);
    s := ReturnsOnce(clock, s);
    s := InterruptsOnce(clock, s);
    s := InterruptsTwice(clock, s);
    var a :| Run(AS_WRITTEN, TWICE_JOBS, clock, a) == s;
  }

  // ----- Beside a line that ends in I/O -----

  function DeepJobs(b: nat): seq<Line> {
    [Line(0, [b], [1]), Line(1, [b], [])]
  }

  predicate Waiting(b: nat, p: Proc) {
    p.line == Line(1, [b], []) && p.cpuIndex == 0 && p.remaining == b && p.status == New
  }

  /** Process 0 is k ticks into its only burst. */
  predicate Working(b: nat, k: nat, s: State) {
    && |s.procs| == 2 && s.terminated == 0 && s.depth == 0 && s.spc == STest(0, k, b) && s.wpc.WCheck?
    && s.ready == [Node(1, b)] && s.readyCount == 1 && s.wait == [] && s.waitCount == 0
    && s.procs[0].line == Line(0, [b], [1]) && s.procs[0].cpuIndex == 0 && s.procs[0].ioIndex == 0
    && s.procs[0].remaining == b - k && s.procs[0].priority == b
    && Waiting(b, s.procs[1])
  }

  /** It sleeps, and its key will not change any more. */
  predicate Behind(b: nat, s: State) {
    && |s.procs| == 2 && s.terminated == 0 && s.depth == 0 && s.spc.SCheck? && s.wpc.WCheck?
    && s.ready == [Node(1, b)] && s.readyCount == 1 && s.wait == [Node(0, b)] && s.waitCount == 1
    && s.procs[0].line == Line(0, [b], [1]) && s.procs[0].cpuIndex == 1 && s.procs[0].ioIndex == 0
    && s.procs[0].status == Sleep && s.procs[0].remaining == 0 && s.procs[0].priority == b
    && Waiting(b, s.procs[1])
  }

  /** Process 1 runs with d calls suspended below it, and the stale node at the head of the queue. */
  predicate Stuck(b: nat, d: nat, s: State) {
    && |s.procs| == 2 && s.depth == d && s.spc == STest(1, 1, b)
    && s.ready == [Node(0, b)] && s.procs[0].remaining == 0
    && s.procs[1].line == Line(1, [b], []) && s.procs[1].cpuIndex == 0 && s.procs[1].remaining == b - 1 - d
  }

  lemma DeepFits(b: nat, clock: int)
    ensures Admissible(AS_WRITTEN, DeepJobs(b))
    ensures Init(AS_WRITTEN, DeepJobs(b), clock).ready == [Node(0, b), Node(1, b)]
  {
    var ps := NewProcs(AS_WRITTEN, DeepJobs(b));
    assert Arrived(AS_WRITTEN, ps, 1) == [Node(0, b)] by {
      assert Arrived(AS_WRITTEN, ps, 0) == [];
    }
  }

  lemma {:induction false} WorksOn(b: nat, k: nat, clock: int) returns (t: State)
    requires 1 <= k <= b && Admissible(AS_WRITTEN, DeepJobs(b))
    ensures Reached(AS_WRITTEN, DeepJobs(b), clock, t) && Working(b, k, t)
  {
    hide Reached;
    if k == 1 {
      DeepFits(b, clock);
      ReachedStart(AS_WRITTEN, DeepJobs(b), clock);
      t := Init(AS_WRITTEN, DeepJobs(b), clock);
      t := Dispatches(AS_WRITTEN, DeepJobs(b), clock, t);
      t := TicksOnce(AS_WRITTEN, DeepJobs(b), clock, t, 0);
    } else {
      t := WorksOn(b, k - 1, clock);
      t := TicksOn(AS_WRITTEN, DeepJobs(b), clock, t, 0);
    }
  }

  lemma FallsBehind(b: nat, clock: int, s: State) returns (t: State)
    requires Admissible(AS_WRITTEN, DeepJobs(b))
    requires Reached(AS_WRITTEN, DeepJobs(b), clock, s) && Working(b, b, s)
    ensures Reached(AS_WRITTEN, DeepJobs(b), clock, t) && Behind(b, t)
  {
    hide Reached;
    t := Ends(AS_WRITTEN, DeepJobs(b), clock, s, 0);
    t := Unwinds(AS_WRITTEN, DeepJobs(b), clock, t, 0);
  }

  lemma GetsStuck(b: nat, clock: int, s: State) returns (t: State)
    requires b >= 1 && Admissible(AS_WRITTEN, DeepJobs(b))
    requires Reached(AS_WRITTEN, DeepJobs(b), clock, s) && Behind(b, s)
    ensures Reached(AS_WRITTEN, DeepJobs(b), clock, t) && Stuck(b, 0, t)
  {
    hide Reached;
    t := Dispatches(AS_WRITTEN, DeepJobs(b), clock, s);
    t := TicksOnce(AS_WRITTEN, DeepJobs(b), clock, t, 1);
    t := WakesUp(AS_WRITTEN, DeepJobs(b), clock, t);
    t := ComesIn(AS_WRITTEN, DeepJobs(b), clock, t, 0);
  }

  lemma {:induction false} SinksDeeper(b: nat, d: nat, clock: int) returns (t: State)
    requires d < b && Admissible(AS_WRITTEN, DeepJobs(b))
    ensures Reached(AS_WRITTEN, DeepJobs(b), clock, t) && Stuck(b, d, t)
  {
    hide Reached, Working, Behind;
    if d == 0 {
      t := WorksOn(b, b, clock);
      t := FallsBehind(b, clock, t);
      t := GetsStuck(b, clock, t);
    } else {
      t := SinksDeeper(b, d - 1, clock);
      t := SwapsWithItself(AS_WRITTEN, DeepJobs(b), clock, t, 1, 0);
      t := TicksOnce(AS_WRITTEN, DeepJobs(b), clock, t, 1);
    }
  }

  /** If a line ends in I/O, its stale node can make a process interrupt itself: there is no bound on
      the calls that two processes suspend. */
  lemma DeeperIfStale(b: nat, clock: int)
    requires b >= 1
    ensures Admissible(AS_WRITTEN, DeepJobs(b))
    ensures exists schedule :: Run(AS_WRITTEN, DeepJobs(b), clock, schedule).depth == b - 1
  {
    hide Run;
    DeepFits(b, clock);
    var s := SinksDeeper(b, b - 1, clock);
    var a :| Run(AS_WRITTEN, DeepJobs(b), clock, a) == s;
  }
}
