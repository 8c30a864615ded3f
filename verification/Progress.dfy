// Progress: an explicit measure falls with every step that is not polling, and no live run is stuck.
module Progress {
  import opened Workload
  import opened QueueSpec
  import opened Protocol
  import opened Safety
  import opened Timeline
  import opened Srtf

  // ----- The measure -----

  function Positive(x: int): nat { if x > 0 then x else 0 }

  /** The work in the CPU bursts from index k on. */
  function Future(debt: int, cpu: seq<int>, k: nat): int
    decreases |cpu| - k
  {
    if k >= |cpu| then 0 else 100 * (cpu[k] + debt) + 200 + Future(debt, cpu, k + 1)
  }

  /** Every tick lowers the distance of the remaining time to the lowest it can get, minus the debt;
      every burst still to come starts with its own length and the debt. */
  function Work(debt: int, p: Proc): int {
    100 * Positive(p.remaining + debt)
    + (if p.cpuIndex < |p.line.cpu|
       then Future(debt, p.line.cpu, p.cpuIndex) - 100 * (p.line.cpu[p.cpuIndex] + debt) else 0)
    + 200 * (|p.line.io| - p.ioIndex)
    + (if p.status == Terminated then 0 else 200)
  }

  function AllWork(debt: int, ps: seq<Proc>): int {
    if ps == [] then 0 else AllWork(debt, ps[..|ps| - 1]) + Work(debt, ps[|ps| - 1])
  }

  function SchedulerRank(s: State): int {
    match s.spc
    case SExit => 0
    case SFault => 0
    case SDeq => 2
    case STermAdd(_) => 30
    case STermWrite(_) => 29
    case SStart(_) => 35
    case SAdd(_) => 34
    case SEnd(_) => 33
    case STick(_, _, _) => 34
    case STest(_, _, _) => 60
    case SSwapEnd(_) => 58
    case SSwapPut(_) => 56
    case SSwapPost(_) => 0
    case SSwapDeq(_) => 15
    case SPut(_) => 100
    case SPost(_) => 55
    case SLog(_) => 50
    case _ => 1
  }

  function WakeupRank(s: State): int {
    match s.wpc
    case WExit => 0
    case WFault => 0
    case WDeq => 2
    case WTermAdd(_) => 30
    case WTermWrite(_) => 29
    case WAdd(_) => 35
    case WPut(_) => 100
    case WPost => 55
    case _ => 1
  }

  function Measure(debt: int, s: State): int {
    AllWork(debt, s.procs) + 40 * (|s.ready| + |s.wait|) + 3 * (s.readyCount + s.waitCount) + 3 * s.depth
    + SchedulerRank(s) + WakeupRank(s)
  }

  /** A tick still to come has something to lower. */
  predicate Bounded(debt: int, s: State) {
    s.spc.STick? && s.spc.time < s.spc.procTime ==> At(s, s.spc.pid).remaining + debt >= 1
  }

  ghost predicate Steady(pol: Policy, debt: nat, s: State) {
    Inv(pol, s) && NonNegativeLines(s.procs) && Bounded(debt, s)
  }

  lemma {:induction false} AllWorkUpdate(debt: int, ps: seq<Proc>, k: nat, p: Proc)
    requires k < |ps|
    ensures AllWork(debt, ps[k := p]) == AllWork(debt, ps) - Work(debt, ps[k]) + Work(debt, p)
  {
    var n := |ps| - 1;
    if k == n {
      assert ps[k := p][..n] == ps[..n];
    } else {
      assert ps[k := p][..n] == ps[..n][k := p];
      AllWorkUpdate(debt, ps[..n], k, p);
    }
  }

  lemma WorkReplaced(debt: int, a: seq<Proc>, b: seq<Proc>, pid: nat)
    requires OnlyChanges(a, b, pid) && pid < |a|
    ensures AllWork(debt, b) == AllWork(debt, a) - Work(debt, a[pid]) + Work(debt, b[pid])
  {
    assert b == a[pid := b[pid]];
    AllWorkUpdate(debt, a, pid, b[pid]);
  }

  // ----- Every step lowers the measure or is a poll -----

  lemma WorkClose(debt: nat, p: Proc)
    requires p.cpuIndex < |p.line.cpu| && NonNegative(p.line.cpu) && p.status != Terminated
    ensures Work(debt, CloseBurst(p).(status := Sleep)) <= Work(debt, p) - 200
  {
    assert Future(debt, p.line.cpu, p.cpuIndex)
        == 100 * (p.line.cpu[p.cpuIndex] + debt) + 200 + Future(debt, p.line.cpu, p.cpuIndex + 1);
    assert p.line.cpu[p.cpuIndex] >= 0;
    if p.cpuIndex + 1 < |p.line.cpu| {
      assert p.line.cpu[p.cpuIndex + 1] >= 0;
    }
  }

  lemma WorkOneShot(pol: Policy, debt: nat, s: State)
    requires Pointers(s) && SchedulerStage(s) && PcFits(pol, s)
    requires s.spc.SAdd? || s.spc.SEnd? || s.spc.SStart?
    requires NonNegative(At(s, s.spc.pid).line.cpu)
    ensures var t, pid := ChargeBurst(pol, s), s.spc.pid;
            && pid < |s.procs| && |t.procs| == |s.procs|
            && Work(debt, t.procs[pid]) + SchedulerRank(t) < Work(debt, s.procs[pid]) + SchedulerRank(s)
  {
    hide InRange, Future;
    var p := s.procs[s.spc.pid];
    if s.spc.SEnd? && p.cpuIndex < |p.line.cpu| {
      WorkClose(debt, p);
      WorkClose(debt, p.(processTime := p.processTime + p.line.cpu[p.cpuIndex]));
    }
  }

  lemma WorkRefill(pol: Policy, debt: nat, p: Proc)
    requires p.cpuIndex < |p.line.cpu| && NonNegative(p.line.cpu) && p.status != Terminated
    ensures Work(debt, Refill(pol, p)) <= Work(debt, p) - 200
  {
    assert Future(debt, p.line.cpu, p.cpuIndex)
        == 100 * (p.line.cpu[p.cpuIndex] + debt) + 200 + Future(debt, p.line.cpu, p.cpuIndex + 1);
    if p.cpuIndex + 1 < |p.line.cpu| {
      assert p.line.cpu[p.cpuIndex + 1] >= 0;
    }
  }

  lemma WorkTick(debt: nat, p: Proc)
    ensures Work(debt, Tick(p)) == Work(debt, p) - (if p.remaining + debt > 0 then 100 else 0)
  {
  }

  lemma WorkTicking(pol: Policy, debt: nat, s: State)
    requires Pointers(s) && SchedulerStage(s) && PcFits(pol, s) && Bounded(debt, s)
    requires s.spc.STick? || s.spc.STest? || s.spc.SSwapEnd?
    requires NonNegative(At(s, s.spc.pid).line.cpu)
    ensures var t, pid := ChargeBurst(pol, s), s.spc.pid;
            && pid < |s.procs| && |t.procs| == |s.procs|
            && Work(debt, t.procs[pid]) + SchedulerRank(t) < Work(debt, s.procs[pid]) + SchedulerRank(s)
  {
    WorkRefill(pol, debt, At(s, s.spc.pid));
    WorkTick(debt, At(s, s.spc.pid));
    hide InRange, HeadIsShorter, Refill, Future;
  }

  lemma LowersCharge(pol: Policy, debt: nat, s: State)
    requires Steady(pol, debt, s) && Charging(s.spc)
    ensures Measure(debt, ChargeBurst(pol, s)) < Measure(debt, s)
  {
    var t, pid := ChargeBurst(pol, s), s.spc.pid;
    assert NonNegative(s.procs[pid].line.cpu);
    QuietCharge(pol, s);
    hide ChargeBurst, OnePlace, Tokens, Counter, PcFits, ProcsOk, QueuesOk, WakeupStage, SchedulerStage, Bounded,
         NonNegativeLines, Work, AllWork, SchedulerRank, WakeupRank, NonNegative;
    ChargeChanges(pol, s);
    WorkReplaced(debt, s.procs, t.procs, pid);
    if s.spc.SAdd? || s.spc.SEnd? || s.spc.SStart? {
      WorkOneShot(pol, debt, s);
    } else {
      WorkTicking(pol, debt, s);
    }
  }

  lemma QuietCharge(pol: Policy, s: State)
    requires Charging(s.spc)
    ensures var t := ChargeBurst(pol, s);
            && t.readyCount == s.readyCount && t.waitCount == s.waitCount && t.depth == s.depth
            && t.ready == s.ready && t.wait == s.wait && WakeupRank(t) == WakeupRank(s)
  {
    hide HeadIsShorter, At, Replace;
  }

  lemma WorkSame(debt: int, ps: seq<Proc>, pid: nat, p: Proc)
    requires pid < |ps| ==> SameBurst(ps[pid], p) && p.ioIndex == ps[pid].ioIndex
                            && (p.status == Terminated <==> ps[pid].status == Terminated)
    ensures AllWork(debt, Replace(ps, pid, p)) == AllWork(debt, ps)
  {
    if pid < |ps| {
      AllWorkUpdate(debt, ps, pid, p);
    }
  }

  lemma LowersDequeue(pol: Policy, debt: nat, s: State)
    requires Pointers(s) && (s.spc.SDeq? || s.spc.SSwapDeq?) && s.ready != [] && PcFits(pol, s)
    requires OnCpu(At(s, s.ready[0].pid)) && ProcOk(At(s, s.ready[0].pid))
    ensures Measure(debt, HandOver(pol, s)) < Measure(debt, s)
  {
    WorkSame(debt, s.procs, s.ready[0].pid, Handled(At(s, s.ready[0].pid)));
    DequeueShape(pol, s);
    hide HandOver, InRange, AllWork, ShouldTerminate, Work, WakeupRank, Alternating, ProcOk, OnCpu;
    var t := HandOver(pol, s);
    assert WakeupRank(t) == WakeupRank(s) by { SameWakeupRank(s, t); }
  }

  lemma SameWakeupRank(s: State, t: State)
    requires t.wpc == s.wpc
    ensures WakeupRank(t) == WakeupRank(s)
  {
  }

  lemma LowersMove(pol: Policy, debt: nat, s: State)
    requires Pointers(s) && PcFits(pol, s) && SchedulerStage(s)
    requires !Polling(s.spc) && !Charging(s.spc) && !s.spc.SDeq? && !s.spc.SSwapDeq? && !s.spc.SExit?
    ensures Measure(debt, HandOver(pol, s)) < Measure(debt, s)
  {
    if s.spc.STermWrite? {
      AllWorkUpdate(debt, s.procs, s.spc.pid, Finish(At(s, s.spc.pid)));
      hide InRange, AllWork, ShouldTerminate, Future, Positive, WakeupRank;
      SameWakeupRank(s, HandOver(pol, s));
    } else {
      hide InRange, AllWork, ShouldTerminate, SchedulerDequeue, SwapDequeue, Finish, At, Replace, SchedulerStage,
           WakeupRank, Insert;
      SameWakeupRank(s, HandOver(pol, s));
    }
  }

  predicate Waking(pc: WPc) {
    pc.WCheck? || pc.WTry?
  }

  /** A poll changes nothing but the place in the loop it stands at; after the loop nothing changes. */
  predicate SchedulerSpins(s: State, t: State) {
    t == s.(spc := t.spc) && ((Polling(s.spc) && Polling(t.spc)) || (s.spc.SExit? && t.spc.SExit?))
  }

  predicate WakeupSpins(s: State, t: State) {
    t == s.(wpc := t.wpc) && ((Waking(s.wpc) && Waking(t.wpc)) || (s.wpc.WExit? && t.wpc.WExit?))
  }

  lemma LowersPoll(pol: Policy, debt: nat, s: State)
    requires Polling(s.spc)
    ensures Measure(debt, Poll(s)) < Measure(debt, s) || SchedulerSpins(s, Poll(s))
  {
    hide AllWork, WakeupRank;
    assert WakeupRank(Poll(s)) == WakeupRank(s) by { PollRank(s); }
  }

  lemma PollRank(s: State)
    ensures WakeupRank(Poll(s)) == WakeupRank(s)
  {
  }

  /** Every scheduler step lowers the measure, unless it polls in vain or has ended. */
  lemma LowersScheduler(pol: Policy, debt: nat, s: State)
    requires Steady(pol, debt, s)
    ensures Measure(debt, SchedulerStep(pol, s)) < Measure(debt, s) || SchedulerSpins(s, SchedulerStep(pol, s))
  {
    hide Poll, ChargeBurst, HandOver, OnePlace, Counter, WakeupStage, Bounded, Measure, OnCpu, ProcOk, SchedulerSpins,
         NonNegativeLines;
    if Polling(s.spc) {
      LowersPoll(pol, debt, s);
    } else if Charging(s.spc) {
      LowersCharge(pol, debt, s);
    } else if s.spc.SDeq? || s.spc.SSwapDeq? {
      LowersDequeue(pol, debt, s);
    } else if s.spc.SExit? {
      assert SchedulerSpins(s, HandOver(pol, s)) by { ExitSpins(pol, s); }
    } else {
      LowersMove(pol, debt, s);
    }
  }

  lemma ExitSpins(pol: Policy, s: State)
    requires s.spc.SExit?
    ensures SchedulerSpins(s, HandOver(pol, s)) && HandOver(pol, s) == s
  {
  }

  /** The wakeup thread does not move the scheduler's rank. */
  lemma RankKept(s: State, t: State)
    requires t.spc == s.spc
    ensures SchedulerRank(t) == SchedulerRank(s)
  {
  }

  lemma WorkWakeup(pol: Policy, debt: nat, s: State)
    requires Pointers(s) && WakeupStage(s)
    requires s.wpc.WDeq? ==> s.wait != [] && ProcOk(At(s, s.wait[0].pid)) && At(s, s.wait[0].pid).status == Sleep
    ensures AllWork(debt, WakeupStep(pol, s).procs)
         == AllWork(debt, s.procs) - (if s.wpc.WTermWrite? || s.wpc.WAdd? then 200 else 0)
  {
    hide InRange, ShouldTerminate, AllWork, Enqueue, Future, Positive;
    match s.wpc {
      case WDeq =>
        var pid := s.wait[0].pid;
        var p := Handled(At(s, pid));
        WorkSame(debt, s.procs, pid, p);
        if p.ioIndex < |p.line.io| {
          WorkSame(debt, Replace(s.procs, pid, p), pid, StartIo(p));
        }
      case WTermWrite(pid) => AllWorkUpdate(debt, s.procs, pid, Finish(At(s, pid)));
      case WAdd(pid) => AllWorkUpdate(debt, s.procs, pid, FinishIo(At(s, pid)));
      case _ =>
    }
  }

  predicate SleeperFirst(s: State) {
    s.wpc.WDeq? ==> s.wait != [] && ProcOk(At(s, s.wait[0].pid)) && At(s, s.wait[0].pid).status == Sleep
  }

  lemma FallsOrSpins(pol: Policy, debt: nat, s: State)
    requires Pointers(s) && WakeupStage(s) && SleeperFirst(s)
    requires var t := WakeupStep(pol, s);
             && AllWork(debt, t.procs) == AllWork(debt, s.procs) - (if s.wpc.WTermWrite? || s.wpc.WAdd? then 200 else 0)
             && SchedulerRank(t) == SchedulerRank(s)
    ensures Measure(debt, WakeupStep(pol, s)) < Measure(debt, s) || WakeupSpins(s, WakeupStep(pol, s))
  {
    hide AllWork, SchedulerRank, Insert, Replace, Alternating, InRange, ShouldTerminate;
    if s.wpc.WDeq? {
      TerminateOnIo(Handled(At(s, s.wait[0].pid)));
    }
  }

  lemma LowersWakeup(pol: Policy, debt: nat, s: State)
    requires Inv(pol, s)
    ensures Measure(debt, WakeupStep(pol, s)) < Measure(debt, s) || WakeupSpins(s, WakeupStep(pol, s))
  {
    hide OnePlace, Counter, SchedulerStage, PcFits, SameBursts, WakeupStep, WakeupStage, Measure, WakeupSpins, ProcOk;
    BurstsWakeup(pol, s);
    WakeupQuiet(pol, s);
    WorkWakeup(pol, debt, s);
    RankKept(s, WakeupStep(pol, s));
    FallsOrSpins(pol, debt, s);
  }
}
