// The dearest burst: SRTF as written can preempt a burst of b ticks b - 2 times and charge it 2 * b - 2.
module Overcharge {
  import opened Workload
  import opened QueueSpec
  import opened Protocol
  import opened Safety
  import opened Srtf
  import opened Ledger
  import opened Billing
  import opened SrtfResults
  import opened SrtfLog
  import opened Liveness
  import opened QueueKeys
  import opened PairwiseSafety
  import opened SrtfExact
  import opened Drive

  function Ones(n: nat): seq<int> {
    seq(n, i => 1)
  }

  /** One long burst, and a process that comes back again and again with bursts of one tick. */
  function OverJobs(b: nat): seq<Line>
    requires b >= 3
  {
    [Line(0, [b], []), Line(1, Ones(b - 1), Ones(b - 2))]
  }

  predicate LongOne(b: nat, i: nat, p: Proc) {
    && p.line == Line(0, [b], []) && p.cpuIndex == 0 && p.ioIndex == 0 && (p.status == New || p.status == Ready)
    && p.h.burst.preemptions == i
  }

  /** With j of its bursts done. */
  predicate ShortOne(b: nat, j: nat, p: Proc)
    requires b >= 3
  {
    && p.line == Line(1, Ones(b - 1), Ones(b - 2)) && p.cpuIndex == j && p.priority == 1
    && (j < b - 1 ==> p.remaining == 1)
  }

  /** At the top of the loop, i times preempted and alone in the ready queue. */
  predicate AtTop(b: nat, i: nat, s: State)
    requires b >= 3
  {
    && |s.procs| == 2 && s.terminated == 0 && s.depth == 0 && s.spc.SCheck? && s.wpc.WCheck?
    && s.ready == [Node(0, b - i)] && s.readyCount == 1 && s.wait == [Node(1, 1)] && s.waitCount == 1
    && LongOne(b, i, s.procs[0]) && s.procs[0].remaining == b - i
    && ShortOne(b, i + 1, s.procs[1]) && s.procs[1].ioIndex == i && s.procs[1].status == Sleep
  }

  /** After the first tick, with the other process back. */
  predicate AtTest(b: nat, i: nat, s: State)
    requires b >= 3
  {
    && |s.procs| == 2 && s.terminated == 0 && s.depth == 0 && s.spc == STest(0, 1, b) && s.wpc.WCheck?
    && s.ready == [Node(1, 1)] && s.readyCount == 1 && s.wait == [] && s.waitCount == 0
    && LongOne(b, i, s.procs[0]) && s.procs[0].remaining == b - i - 1
    && ShortOne(b, i + 1, s.procs[1]) && s.procs[1].ioIndex == i + 1 && s.procs[1].status == Ready
  }

  lemma OverJobsFit(b: nat)
    requires b >= 3
    ensures Admissible(AS_WRITTEN, OverJobs(b)) && CpuEndedWorkload(OverJobs(b))
  {
  }

  lemma ComesBack(b: nat, i: nat, clock: int, s: State) returns (t: State)
    requires 3 <= b && i + 3 <= b && Admissible(AS_WRITTEN, OverJobs(b))
    requires Reached(AS_WRITTEN, OverJobs(b), clock, s) && AtTop(b, i, s)
    ensures Reached(AS_WRITTEN, OverJobs(b), clock, t) && AtTest(b, i, t)
  {
    hide Reached;
    t := Dispatches(AS_WRITTEN, OverJobs(b), clock, s);
    t := TicksOnce(AS_WRITTEN, OverJobs(b), clock, t, 0);
    t := WakesUp(AS_WRITTEN, OverJobs(b), clock, t);
    t := ComesIn(AS_WRITTEN, OverJobs(b), clock, t, 1);
  }

  lemma CutsOff(b: nat, i: nat, clock: int, s: State) returns (t: State)
    requires 3 <= b && i + 3 <= b && Admissible(AS_WRITTEN, OverJobs(b))
    requires Reached(AS_WRITTEN, OverJobs(b), clock, s) && AtTest(b, i, s)
    ensures Reached(AS_WRITTEN, OverJobs(b), clock, t) && AtTop(b, i + 1, t)
  {
    hide Reached;
    t := Swaps(AS_WRITTEN, OverJobs(b), clock, s, 0, 1);
    t := TicksOnce(AS_WRITTEN, OverJobs(b), clock, t, 1);
    t := Ends(AS_WRITTEN, OverJobs(b), clock, t, 1);
    t := Unwinds(AS_WRITTEN, OverJobs(b), clock, t, 1);
  }

  lemma ShortOneFirst(b: nat, clock: int)
    requires 3 <= b && Admissible(AS_WRITTEN, OverJobs(b))
    ensures Init(AS_WRITTEN, OverJobs(b), clock).ready == [Node(1, 1), Node(0, b)]
  {
    var ps := NewProcs(AS_WRITTEN, OverJobs(b));
    assert ps[0].priority == b && ps[1].priority == 1;
    assert Arrived(AS_WRITTEN, ps, 1) == [Node(0, b)] by {
      assert Arrived(AS_WRITTEN, ps, 0) == [];
    }
  }

  lemma FirstOfAll(b: nat, clock: int) returns (t: State)
    requires 3 <= b && Admissible(AS_WRITTEN, OverJobs(b))
    ensures Reached(AS_WRITTEN, OverJobs(b), clock, t) && AtTop(b, 0, t)
  {
    hide Reached;
    ReachedStart(AS_WRITTEN, OverJobs(b), clock);
    ShortOneFirst(b, clock);
    t := Init(AS_WRITTEN, OverJobs(b), clock);
    t := Dispatches(AS_WRITTEN, OverJobs(b), clock, t);
    t := TicksOnce(AS_WRITTEN, OverJobs(b), clock, t, 1);
    t := Ends(AS_WRITTEN, OverJobs(b), clock, t, 1);
    t := Unwinds(AS_WRITTEN, OverJobs(b), clock, t, 1);
  }

  lemma {:induction false} CutsAgain(b: nat, i: nat, clock: int) returns (t: State)
    requires 3 <= b && i + 2 <= b && Admissible(AS_WRITTEN, OverJobs(b))
    ensures Reached(AS_WRITTEN, OverJobs(b), clock, t) && AtTop(b, i, t)
  {
    hide Reached, AtTop, AtTest;
    if i == 0 {
      t := FirstOfAll(b, clock);
    } else {
      t := CutsAgain(b, i - 1, clock);
      t := ComesBack(b, i - 1, clock, t);
      t := CutsOff(b, i - 1, clock, t);
    }
  }

  // ----- The dearest burst -----

  /** A burst of b ticks, preempted b - 2 times, the last time with two ticks left, and charged
      2 * b - 2; and two lines for each preemption in the log beside the b bursts. */
  predicate Overcharged(b: nat, s: State)
    requires b >= 3
  {
    |s.procs| == 2 && s.procs[0].h.done == [Charge(2 * b - 2, b - 2, 2)] && |s.log| == b + 2 * (b - 2)
  }

  lemma ShortOneUncut(b: nat, clock: int, schedule: seq<Thread>)
    requires b >= 3 && Ranked(AS_WRITTEN, OverJobs(b))
    ensures var s := Run(AS_WRITTEN, OverJobs(b), clock, schedule);
            |s.procs| == 2 && Preemptions(s.procs[1].h.done) == 0
  {
    hide Run, Preemptions, Threatened;
    SimpleThreats(OverJobs(b), 1);
    RunWarned(false, OverJobs(b), clock, schedule);
  }

  lemma OverBursts(b: nat)
    requires b >= 3
    ensures Bursts(OverJobs(b)) == b
  {
    var w := OverJobs(b);
    assert Bursts(w[..1]) == 1 by {
      assert w[..1][..0] == [];
    }
  }

  lemma TotalOfTwo(ps: seq<Proc>)
    requires |ps| == 2
    ensures TotalPreemptions(ps) == Preemptions(ps[0].h.done) + Preemptions(ps[1].h.done)
  {
    hide Preemptions;
    assert TotalPreemptions(ps[..1]) == Preemptions(ps[0].h.done) by {
      assert ps[..1][..0] == [];
    }
  }

  /** With b - 2 preemptions there is only one thing the burst can have cost. */
  lemma OnlyCharge(b: nat, c: Charge)
    requires b >= 3 && ChargeOk(false, b, c) && c.preemptions >= b - 2 && c.lastRemaining >= 2
    ensures c == Charge(2 * b - 2, b - 2, 2)
  {
  }

  lemma OneBurst(done: seq<Charge>)
    requires |done| == 1
    ensures Preemptions(done) == done[0].preemptions
  {
    assert done == [] + [done[0]];
    PreemptionsSnoc([], done[0]);
  }

  lemma Dearest(b: nat, clock: int, schedule: seq<Thread>)
    requires b >= 3 && Ranked(AS_WRITTEN, OverJobs(b)) && Joined(Run(AS_WRITTEN, OverJobs(b), clock, schedule))
    requires var s := Run(AS_WRITTEN, OverJobs(b), clock, schedule); |s.procs| == 2 && Scars(s.procs[0]) >= b - 2
    ensures Run(AS_WRITTEN, OverJobs(b), clock, schedule).procs[0].h.done == [Charge(2 * b - 2, b - 2, 2)]
  {
    hide Run, OnePlace, Counter, ChargedAll, Charged, ChargeOk, Preemptions;
    var s := Run(AS_WRITTEN, OverJobs(b), clock, schedule);
    RunBalanced(AS_WRITTEN, OverJobs(b), clock, schedule);
    CleanFinish(AS_WRITTEN, OverJobs(b), clock, schedule);
    RunLines(AS_WRITTEN, OverJobs(b), clock, schedule);
    assert Booked(s, 0) && OverJobs(b)[0].cpu == [b];
    BurstCharges(false, OverJobs(b), clock, schedule, 0, 0);
    OneBurst(s.procs[0].h.done);
    OnlyCharge(b, s.procs[0].h.done[0]);
  }

  lemma OverchargedAtEnd(b: nat, clock: int, schedule: seq<Thread>)
    requires b >= 3 && Ranked(AS_WRITTEN, OverJobs(b)) && Joined(Run(AS_WRITTEN, OverJobs(b), clock, schedule))
    requires var s := Run(AS_WRITTEN, OverJobs(b), clock, schedule); |s.procs| == 2 && Scars(s.procs[0]) >= b - 2
    ensures Overcharged(b, Run(AS_WRITTEN, OverJobs(b), clock, schedule))
  {
    hide Run, Joined, Preemptions, TotalPreemptions, Bursts, Scars, OverJobs;
    var s := Run(AS_WRITTEN, OverJobs(b), clock, schedule);
    Dearest(b, clock, schedule);
    ShortOneUncut(b, clock, schedule);
    TotalOfTwo(s.procs);
    OneBurst(s.procs[0].h.done);
    OverBursts(b);
    LogLength(false, OverJobs(b), clock, schedule);
  }

  /** For every burst of at least three ticks SRTF as written has a complete run that preempts it as
      often as it can, charges it as much as it can, and logs two lines more each time. */
  lemma SrtfOvercharges(b: nat, clock: int)
    requires b >= 3
    ensures Admissible(AS_WRITTEN, OverJobs(b)) && CpuEndedWorkload(OverJobs(b))
    ensures exists schedule ::
              var s := Run(AS_WRITTEN, OverJobs(b), clock, schedule); Joined(s) && Overcharged(b, s)
  {
    hide Run, Joined, Overcharged, Scars, OverJobs;
    OverJobsFit(b);
    var s := CutsAgain(b, b - 2, clock);
    var a :| Run(AS_WRITTEN, OverJobs(b), clock, a) == s;
    ScarsAtTop(b, b - 2, s);
    var c := Completes(AS_WRITTEN, OverJobs(b), clock, a);
    TwoLines(b);
    ScarLasts(AS_WRITTEN, OverJobs(b), clock, a, c, 0);
    OverchargedAtEnd(b, clock, c);
  }

  lemma TwoLines(b: nat)
    requires b >= 3
    ensures |OverJobs(b)| == 2
  {
  }

  lemma ScarsAtTop(b: nat, i: nat, s: State)
    requires b >= 3 && AtTop(b, i, s)
    ensures |s.procs| == 2 && Scars(s.procs[0]) >= i
  {
    hide Preemptions;
  }
}
