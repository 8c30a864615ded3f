// Fair schedules finish: a bound on the work of every run, and no run that gets stuck.
module Liveness {
  import opened Workload
  import opened Protocol
  import opened Safety
  import opened Timeline
  import opened RoundRobin
  import opened Srtf
  import opened Floor
  import opened Progress

  /** Every policy on every workload the program admits; the quantum is a constant of the program. */
  predicate Supported(pol: Policy, w: seq<Line>) {
    Admissible(pol, w) && (pol.Rr? ==> pol.quantum >= 0)
  }

  /** All CPU bursts of a workload together: no remaining time falls below minus this. */
  function Debt(w: seq<Line>): nat
    requires AllWellFormed(w)
  {
    if w == [] then 0
    else
      SumNonNegative(w[|w| - 1].cpu);
      Debt(w[..|w| - 1]) + Sum(w[|w| - 1].cpu)
  }

  lemma {:induction false} DebtIsAllBursts(w: seq<Line>, ps: seq<Proc>)
    requires AllWellFormed(w) && |ps| == |w| && forall i | 0 <= i < |w| :: ps[i].line == w[i]
    ensures AllBursts(ps) == Debt(w)
  {
    if w != [] {
      DebtIsAllBursts(w[..|w| - 1], ps[..|w| - 1]);
    }
  }

  lemma BoundedRr(quantum: int, debt: nat, s: State)
    requires PcFits(Rr(quantum), s) && RrInv(s)
    ensures Bounded(debt, s)
  {
  }

  /** As written a resumed burst runs its whole length, but ends above minus the debt even so. */
  lemma BoundedSrtf(resume: bool, debt: nat, s: State)
    requires Inv(Srtf(resume), s) && FloorInv(resume, s) && AllBursts(s.procs) == debt
    ensures Bounded(debt, s)
  {
    hide OnePlace, Counter, Keys, AllRest, ProcOk, OnCpu, WakeupStage, SchedulerStage, AllSpent, AllBursts;
    if s.spc.STick? {
      SpentWithinBursts(s.procs, s.spc.pid);
    }
  }

  lemma RunSteady(pol: Policy, w: seq<Line>, clock: int, schedule: seq<Thread>)
    requires Supported(pol, w)
    ensures Steady(pol, Debt(w), Run(pol, w, clock, schedule))
  {
    hide Run, OnePlace, Counter, Tokens, ProcsOk, QueuesOk, SchedulerStage, WakeupStage, NonNegativeLines, RrInv,
         FloorInv, Bounded, Debt, AllBursts;
    var s := Run(pol, w, clock, schedule);
    RunInv(pol, w, clock, schedule);
    LinesOfRun(pol, w, clock, schedule);
    match pol {
      case Rr(q) =>
        RunRr(q, w, clock, schedule);
        BoundedRr(q, Debt(w), s);
      case Srtf(resume) =>
        RunFloor(resume, w, clock, schedule);
        RunLines(pol, w, clock, schedule);
        DebtIsAllBursts(w, s.procs);
        BoundedSrtf(resume, Debt(w), s);
      case _ => BoundedOneShot(pol, Debt(w), s);
    }
  }

  lemma BoundedOneShot(pol: Policy, debt: nat, s: State)
    requires PcFits(pol, s) && !pol.Ticking()
    ensures Bounded(debt, s)
  {
  }

  // ----- The measure is never negative -----

  lemma {:induction false} FutureBound(debt: nat, cpu: seq<int>, k: nat)
    requires NonNegative(cpu) && k <= |cpu|
    ensures Future(debt, cpu, k) >= 0
    ensures k < |cpu| ==> Future(debt, cpu, k) >= 100 * (cpu[k] + debt)
    decreases |cpu| - k
  {
    if k < |cpu| {
      FutureBound(debt, cpu, k + 1);
    }
  }

  lemma WorkBound(debt: nat, p: Proc)
    requires ProcOk(p) && NonNegative(p.line.cpu)
    ensures Work(debt, p) >= 0
  {
    FutureBound(debt, p.line.cpu, p.cpuIndex);
  }

  lemma {:induction false} AllWorkBound(debt: nat, ps: seq<Proc>)
    requires ProcsOk(ps) && NonNegativeLines(ps)
    ensures AllWork(debt, ps) >= 0
  {
    if ps != [] {
      AllWorkBound(debt, ps[..|ps| - 1]);
      WorkBound(debt, ps[|ps| - 1]);
    }
  }

  lemma MeasureBound(pol: Policy, debt: nat, s: State)
    requires Steady(pol, debt, s)
    ensures Measure(debt, s) >= 0
  {
    hide AllWork, Work, OnePlace, Counter, QueuesOk, WakeupStage, ShouldTerminate, InRange, ProcsOk, NonNegativeLines;
    AllWorkBound(debt, s.procs);
  }

  // ----- A live state has a thread that is not just polling -----

  predicate SchedulerEnabled(s: State) {
    !s.spc.SExit? && (!Polling(s.spc) || s.readyCount > 0 || s.terminated >= |s.procs|)
  }

  predicate WakeupEnabled(s: State) {
    !s.wpc.WExit? && (!Waking(s.wpc) || s.waitCount > 0 || s.terminated >= |s.procs|)
  }

  lemma SomeoneEnabled(pol: Policy, s: State)
    requires Inv(pol, s) && !Joined(s)
    ensures SchedulerEnabled(s) || WakeupEnabled(s)
  {
    hide OnePlace, ProcsOk, QueuesOk, SchedulerStage, WakeupStage, Dead;
  }

  /** How many of its own steps an enabled thread needs to do something other than poll. */
  function SchedulerDistance(s: State): nat {
    match s.spc
    case SCheck => if s.terminated >= |s.procs| then 1 else 3
    case SDone1 => if s.terminated >= |s.procs| then 3 else 2
    case SDone2 => 2
    case SDone3 => 1
    case STry => if s.readyCount > 0 then 1 else 2
    case _ => 1
  }

  function WakeupDistance(s: State): nat {
    match s.wpc
    case WCheck => if s.terminated >= |s.procs| then 1 else 2
    case WTry => if s.waitCount > 0 then 1 else 2
    case _ => 1
  }

  lemma SchedulerCloser(pol: Policy, debt: nat, s: State)
    requires Steady(pol, debt, s) && SchedulerEnabled(s)
    ensures var t := SchedulerStep(pol, s);
            || Measure(debt, t) < Measure(debt, s)
            || (Measure(debt, t) == Measure(debt, s) && SchedulerEnabled(t)
                && SchedulerDistance(t) < SchedulerDistance(s))
  {
    hide Bounded, OnePlace, ProcsOk, QueuesOk, SchedulerStage, WakeupStage, Dead, ChargeBurst, HandOver,
         NonNegativeLines, AllWork, WakeupRank, PcFits;
    LowersScheduler(pol, debt, s);
    PollRank(s);
  }

  lemma WakeupCloser(pol: Policy, debt: nat, s: State)
    requires Steady(pol, debt, s) && WakeupEnabled(s)
    ensures var t := WakeupStep(pol, s);
            || Measure(debt, t) < Measure(debt, s)
            || (Measure(debt, t) == Measure(debt, s) && WakeupEnabled(t) && WakeupDistance(t) < WakeupDistance(s))
  {
    hide Bounded, OnePlace, ProcsOk, QueuesOk, SchedulerStage, WakeupStage, Dead, NonNegativeLines,
         AllWork, SchedulerRank, PcFits, ShouldTerminate, Enqueue, At, Replace;
    LowersWakeup(pol, debt, s);
    RankOfWpc(s);
  }

  lemma RankOfWpc(s: State)
    ensures SchedulerRank(s.(wpc := WTry)) == SchedulerRank(s) == SchedulerRank(s.(wpc := WCheck))
  {
  }

  // ----- Whole schedules -----

  function Steps(schedule: seq<Thread>, t: Thread): nat {
    if schedule == [] then 0 else Flag(schedule[0] == t) + Steps(schedule[1..], t)
  }

  /** Both threads get a few steps, in any order. */
  predicate Fair(block: seq<Thread>) {
    Steps(block, SchedulerThread) >= 3 && Steps(block, WakeupThread) >= 2
  }

  lemma RunSnoc(pol: Policy, w: seq<Line>, clock: int, a: seq<Thread>, t: Thread)
    requires Admissible(pol, w)
    ensures Run(pol, w, clock, a + [t]) == Step(pol, t, Run(pol, w, clock, a))
  {
    hide Step, Init;
    ExecSnoc(pol, Init(pol, w, clock), a, t);
  }

  /** No step ever raises the measure. */
  lemma StepNeverRaises(pol: Policy, w: seq<Line>, clock: int, a: seq<Thread>, t: Thread)
    requires Supported(pol, w)
    ensures Measure(Debt(w), Run(pol, w, clock, a + [t])) <= Measure(Debt(w), Run(pol, w, clock, a))
  {
    hide Run, SchedulerStep, WakeupStep, Steady, Debt;
    var s := Run(pol, w, clock, a);
    RunSteady(pol, w, clock, a);
    RunSnoc(pol, w, clock, a, t);
    if t == SchedulerThread {
      LowersScheduler(pol, Debt(w), s);
      SpinsKeepMeasure(Debt(w), s, SchedulerStep(pol, s));
    } else {
      assert Inv(pol, s) by { SteadyInv(pol, Debt(w), s); }
      LowersWakeup(pol, Debt(w), s);
      SpinsKeepMeasure(Debt(w), s, WakeupStep(pol, s));
    }
  }

  lemma SteadyInv(pol: Policy, debt: nat, s: State)
    requires Steady(pol, debt, s)
    ensures Inv(pol, s)
  {
  }

  lemma SpinsKeepMeasure(debt: nat, s: State, t: State)
    ensures SchedulerSpins(s, t) || WakeupSpins(s, t) ==> Measure(debt, t) == Measure(debt, s)
  {
    hide AllWork;
  }

  lemma {:induction false} NeverRaises(pol: Policy, w: seq<Line>, clock: int, a: seq<Thread>, b: seq<Thread>)
    requires Supported(pol, w)
    ensures Measure(Debt(w), Run(pol, w, clock, a + b)) <= Measure(Debt(w), Run(pol, w, clock, a))
    decreases |b|
  {
    hide Run, Measure;
    if b == [] {
      assert a + b == a;
    } else {
      StepNeverRaises(pol, w, clock, a, b[0]);
      NeverRaises(pol, w, clock, a + [b[0]], b[1..]);
      assert a + [b[0]] + b[1..] == a + b;
    }
  }

  /** An enabled scheduler lowers the measure once it gets its steps, whatever the other thread does. */
  lemma {:induction false} SchedulerGetsThere(pol: Policy, w: seq<Line>, clock: int, a: seq<Thread>, b: seq<Thread>)
    requires Supported(pol, w) && SchedulerEnabled(Run(pol, w, clock, a))
    requires Steps(b, SchedulerThread) >= SchedulerDistance(Run(pol, w, clock, a))
    ensures Measure(Debt(w), Run(pol, w, clock, a + b)) < Measure(Debt(w), Run(pol, w, clock, a))
    decreases |b|
  {
    hide Run, SchedulerStep, WakeupStep, Steady, Debt, Measure;
    var s := Run(pol, w, clock, a);
    assert SchedulerDistance(s) >= 1;
    var t := b[0];
    RunSteady(pol, w, clock, a);
    RunSnoc(pol, w, clock, a, t);
    NeverRaises(pol, w, clock, a + [t], b[1..]);
    assert a + [t] + b[1..] == a + b;
    if t == SchedulerThread {
      SchedulerCloser(pol, Debt(w), s);
    } else {
      assert Inv(pol, s) by { SteadyInv(pol, Debt(w), s); }
      LowersWakeup(pol, Debt(w), s);
      SpinsKeepMeasure(Debt(w), s, WakeupStep(pol, s));
    }
    if Measure(Debt(w), Run(pol, w, clock, a + [t])) == Measure(Debt(w), s) {
      SchedulerGetsThere(pol, w, clock, a + [t], b[1..]);
    }
  }

  lemma {:induction false} WakeupGetsThere(pol: Policy, w: seq<Line>, clock: int, a: seq<Thread>, b: seq<Thread>)
    requires Supported(pol, w) && WakeupEnabled(Run(pol, w, clock, a))
    requires Steps(b, WakeupThread) >= WakeupDistance(Run(pol, w, clock, a))
    ensures Measure(Debt(w), Run(pol, w, clock, a + b)) < Measure(Debt(w), Run(pol, w, clock, a))
    decreases |b|
  {
    hide Run, SchedulerStep, WakeupStep, Steady, Debt, Measure;
    var s := Run(pol, w, clock, a);
    assert WakeupDistance(s) >= 1;
    var t := b[0];
    RunSteady(pol, w, clock, a);
    RunSnoc(pol, w, clock, a, t);
    NeverRaises(pol, w, clock, a + [t], b[1..]);
    assert a + [t] + b[1..] == a + b;
    if t == WakeupThread {
      WakeupCloser(pol, Debt(w), s);
    } else {
      LowersScheduler(pol, Debt(w), s);
      SpinsKeepMeasure(Debt(w), s, SchedulerStep(pol, s));
    }
    if Measure(Debt(w), Run(pol, w, clock, a + [t])) == Measure(Debt(w), s) {
      WakeupGetsThere(pol, w, clock, a + [t], b[1..]);
    }
  }

  /** In a state that has not finished, running one of the threads alone does some work. */
  lemma FairBlockLowers(pol: Policy, w: seq<Line>, clock: int, a: seq<Thread>, b: seq<Thread>)
    requires Supported(pol, w) && Fair(b) && !Joined(Run(pol, w, clock, a))
    ensures Measure(Debt(w), Run(pol, w, clock, a + b)) < Measure(Debt(w), Run(pol, w, clock, a))
  {
    hide Run, Steady, Debt, Measure, Inv;
    RunSteady(pol, w, clock, a);
    SteadyInv(pol, Debt(w), Run(pol, w, clock, a));
    SomeoneEnabled(pol, Run(pol, w, clock, a));
    if SchedulerEnabled(Run(pol, w, clock, a)) {
      SchedulerGetsThere(pol, w, clock, a, b);
    } else {
      WakeupGetsThere(pol, w, clock, a, b);
    }
  }

  function Flatten(blocks: seq<seq<Thread>>): seq<Thread> {
    if blocks == [] then [] else Flatten(blocks[..|blocks| - 1]) + blocks[|blocks| - 1]
  }

  lemma StaysJoined(pol: Policy, w: seq<Line>, clock: int, a: seq<Thread>, b: seq<Thread>)
    requires Admissible(pol, w) && Joined(Run(pol, w, clock, a))
    ensures Run(pol, w, clock, a + b) == Run(pol, w, clock, a)
    decreases |b|
  {
    hide Run;
    if b == [] {
      assert a + b == a;
    } else {
      var n := |b| - 1;
      StaysJoined(pol, w, clock, a, b[..n]);
      RunSnoc(pol, w, clock, a + b[..n], b[n]);
      assert a + b == a + b[..n] + [b[n]];
      JoinedIsFixed(pol, Run(pol, w, clock, a), b[n]);
    }
  }

  lemma JoinedIsFixed(pol: Policy, s: State, t: Thread)
    requires Joined(s)
    ensures Step(pol, t, s) == s
  {
    hide ChargeBurst, Poll;
  }

  lemma {:induction false} BlocksLower(pol: Policy, w: seq<Line>, clock: int, a: seq<Thread>, blocks: seq<seq<Thread>>)
    requires Supported(pol, w) && forall i | 0 <= i < |blocks| :: Fair(blocks[i])
    ensures var s := Run(pol, w, clock, a + Flatten(blocks));
            Joined(s) || Measure(Debt(w), s) + |blocks| <= Measure(Debt(w), Run(pol, w, clock, a))
  {
    hide Run, Debt, Measure, Fair;
    if blocks == [] {
      assert a + [] == a;
    } else {
      var n := |blocks| - 1;
      var b := a + Flatten(blocks[..n]);
      BlocksLower(pol, w, clock, a, blocks[..n]);
      assert a + Flatten(blocks) == b + blocks[n];
      if Joined(Run(pol, w, clock, b)) {
        StaysJoined(pol, w, clock, b, blocks[n]);
      } else {
        FairBlockLowers(pol, w, clock, b, blocks[n]);
      }
    }
  }

  lemma RunNothing(pol: Policy, w: seq<Line>, clock: int)
    requires Admissible(pol, w)
    ensures Run(pol, w, clock, []) == Init(pol, w, clock)
  {
  }

  /** From any point of any run, a schedule that is fair often enough ends both threads, with
      everything terminated; the measure at that point says how often is enough. */
  lemma FairRunsFinish(pol: Policy, w: seq<Line>, clock: int, a: seq<Thread>, blocks: seq<seq<Thread>>)
    requires Supported(pol, w) && forall i | 0 <= i < |blocks| :: Fair(blocks[i])
    requires |blocks| > Measure(Debt(w), Run(pol, w, clock, a))
    ensures var s := Run(pol, w, clock, a + Flatten(blocks)); Joined(s) && CleanlyFinished(s)
  {
    hide Run, Debt, Measure, Fair, Init, Steady;
    var b := a + Flatten(blocks);
    BlocksLower(pol, w, clock, a, blocks);
    RunSteady(pol, w, clock, b);
    MeasureBound(pol, Debt(w), Run(pol, w, clock, b));
    CleanFinish(pol, w, clock, b);
  }

  /** So every run can be completed. */
  lemma Completes(pol: Policy, w: seq<Line>, clock: int, a: seq<Thread>) returns (b: seq<Thread>)
    requires Supported(pol, w)
    ensures a <= b && Joined(Run(pol, w, clock, b)) && CleanlyFinished(Run(pol, w, clock, b))
  {
    hide Run, Debt, Measure, Fair;
    var block := [SchedulerThread, SchedulerThread, SchedulerThread, WakeupThread, WakeupThread];
    assert Fair(block) by { FairExample(); }
    var m := Measure(Debt(w), Run(pol, w, clock, a));
    var blocks := seq(if m < 0 then 1 else m + 1, i => block);
    FairRunsFinish(pol, w, clock, a, blocks);
    b := a + Flatten(blocks);
  }

  lemma FairExample()
    ensures Fair([SchedulerThread, SchedulerThread, SchedulerThread, WakeupThread, WakeupThread])
  {
    assert Steps([SchedulerThread, WakeupThread, WakeupThread], SchedulerThread) == 1;
    assert Steps([WakeupThread, WakeupThread], WakeupThread) == 2;
  }

  /** The steps of a schedule that do something other than poll in vain. */
  function Worked(pol: Policy, w: seq<Line>, clock: int, schedule: seq<Thread>): nat
    requires Admissible(pol, w)
  {
    if schedule == [] then 0
    else
      var n := |schedule| - 1;
      var s := Run(pol, w, clock, schedule[..n]);
      var t := Step(pol, schedule[n], s);
      Worked(pol, w, clock, schedule[..n]) + Flag(!SchedulerSpins(s, t) && !WakeupSpins(s, t))
  }

  /** No run works more than the initial measure, however long it polls. */
  lemma {:induction false} WorkIsBounded(pol: Policy, w: seq<Line>, clock: int, schedule: seq<Thread>)
    requires Supported(pol, w)
    ensures Worked(pol, w, clock, schedule) + Measure(Debt(w), Run(pol, w, clock, schedule))
         <= Measure(Debt(w), Init(pol, w, clock))
    decreases |schedule|
  {
    hide Run, SchedulerStep, WakeupStep, Steady, Debt, Measure, Init, SchedulerSpins, WakeupSpins;
    if schedule == [] {
      RunNothing(pol, w, clock);
    } else {
      var n := |schedule| - 1;
      var s := Run(pol, w, clock, schedule[..n]);
      WorkIsBounded(pol, w, clock, schedule[..n]);
      RunSteady(pol, w, clock, schedule[..n]);
      RunSnoc(pol, w, clock, schedule[..n], schedule[n]);
      assert schedule[..n] + [schedule[n]] == schedule;
      SteadyInv(pol, Debt(w), s);
      if schedule[n] == SchedulerThread {
        LowersScheduler(pol, Debt(w), s);
        SpinsKeepMeasure(Debt(w), s, SchedulerStep(pol, s));
      } else {
        LowersWakeup(pol, Debt(w), s);
        SpinsKeepMeasure(Debt(w), s, WakeupStep(pol, s));
      }
    }
  }
}
