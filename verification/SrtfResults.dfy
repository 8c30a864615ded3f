// What the SRTF invariant says about every run of the program as written and of the corrected variant.
module SrtfResults {
  import opened Workload
  import opened QueueSpec
  import opened Protocol
  import opened Safety
  import opened Ledger
  import opened Srtf
  import opened Billing

  /** Every ready node agrees with its process: stored key, priority and remaining time are one number. */
  lemma KeyAgreement(resume: bool, w: seq<Line>, clock: int, schedule: seq<Thread>)
    requires Admissible(Srtf(resume), w) && CpuEndedWorkload(w)
    ensures var s := Run(Srtf(resume), w, clock, schedule);
            && Sorted(s.ready)
            && forall i | 0 <= i < |s.ready| ::
                 var p := At(s, s.ready[i].pid);
                 s.ready[i].key == p.priority == p.remaining >= 1
  {
    hide Run, OnePlace, Counter, Sorted, AtRest;
    var s := Run(Srtf(resume), w, clock, schedule);
    RunInv(Srtf(resume), w, clock, schedule);
    RunSrtf(resume, w, clock, schedule);
    forall i | 0 <= i < |s.ready|
      ensures s.ready[i].key == At(s, s.ready[i].pid).priority == At(s, s.ready[i].pid).remaining >= 1
    {
      ReadyAtRest(s, i);
    }
  }

  /** The test made after a tick succeeds exactly when some ready process has less left to run. */
  lemma PreemptsExactlyWhenShorter(resume: bool, w: seq<Line>, clock: int, schedule: seq<Thread>)
    requires Admissible(Srtf(resume), w) && CpuEndedWorkload(w)
    requires Run(Srtf(resume), w, clock, schedule).spc.STest?
    ensures var s := Run(Srtf(resume), w, clock, schedule);
            SchedulerStep(Srtf(resume), s).spc.SSwapEnd? <==>
            exists i :: 0 <= i < |s.ready| && At(s, s.ready[i].pid).remaining < At(s, s.spc.pid).remaining
  {
    hide Run, HeadIsShorter;
    var s := Run(Srtf(resume), w, clock, schedule);
    KeyAgreement(resume, w, clock, schedule);
    HeadTest(s, s.spc.pid);
  }

  /** A swap takes no token, always finds a process, and hands the CPU to a different one with
      strictly less left to run, whatever the wakeup thread inserted in between. */
  lemma SwapGoesToShorter(resume: bool, w: seq<Line>, clock: int, schedule: seq<Thread>)
    requires Admissible(Srtf(resume), w) && CpuEndedWorkload(w)
    requires Run(Srtf(resume), w, clock, schedule).spc.SSwapDeq?
    ensures var s := Run(Srtf(resume), w, clock, schedule);
            var t := SchedulerStep(Srtf(resume), s);
            && s.ready != [] && t.spc == SStart(s.ready[0].pid) && t.readyCount == s.readyCount
            && s.ready[0].pid != s.spc.pid
            && At(s, s.ready[0].pid).remaining < At(s, s.spc.pid).remaining
  {
    hide Run, OnePlace, Counter, Sorted, AtRest;
    var s := Run(Srtf(resume), w, clock, schedule);
    RunInv(Srtf(resume), w, clock, schedule);
    RunSrtf(resume, w, clock, schedule);
    KeyAgreement(resume, w, clock, schedule);
    ReadyAtRest(s, 0);
    assert OnCpu(At(s, s.ready[0].pid)) && ProcOk(At(s, s.ready[0].pid));
  }

  /** Nested handler calls are bounded by half the remaining time of the first process dispatched,
      however many processes the wakeup thread inserts meanwhile. */
  lemma NestingIsBounded(resume: bool, w: seq<Line>, clock: int, schedule: seq<Thread>)
    requires Admissible(Srtf(resume), w) && CpuEndedWorkload(w)
    ensures var s := Run(Srtf(resume), w, clock, schedule);
            s.depth > 0 ==> 2 * s.depth + 1 <= s.entry
  {
    hide Run, OnePlace, Counter, Keys, CpuEnded, Left;
    var s := Run(Srtf(resume), w, clock, schedule);
    RunInv(Srtf(resume), w, clock, schedule);
    RunSrtf(resume, w, clock, schedule);
    NoTermination(resume, s);
    if s.spc.SStart? {
      HasBurst(At(s, s.spc.pid));
      assert AtRest(s.procs[s.spc.pid]);
      RestLeft(At(s, s.spc.pid));
    } else if s.spc.STick? || s.spc.STest? {
      LoopPositive(resume, At(s, s.spc.pid), s.spc.time, s.spc.procTime);
    } else if s.spc.SSwapPut? || s.spc.SSwapDeq? {
      assert AtRest(s.procs[s.spc.pid]);
      RestLeft(At(s, s.spc.pid));
    }
  }

  lemma LoopPositive(resume: bool, p: Proc, time: int, procTime: int)
    requires Looping(resume, p, time, procTime)
    ensures p.remaining + time >= 1
  {
  }

  /** What each finished burst cost: its length if it was never preempted or the variant resumes it,
      otherwise twice its length less what was left at the last preemption; if lines end in a CPU
      burst that is at least two. */
  lemma BurstCharges(resume: bool, w: seq<Line>, clock: int, schedule: seq<Thread>, pid: nat, k: nat)
    requires Admissible(Srtf(resume), w) && pid < |w|
    requires pid < |Run(Srtf(resume), w, clock, schedule).procs|
    requires k < Run(Srtf(resume), w, clock, schedule).procs[pid].cpuIndex
    ensures var p := Run(Srtf(resume), w, clock, schedule).procs[pid];
            && |p.h.done| == p.cpuIndex <= |w[pid].cpu|
            && ChargeOk(resume, w[pid].cpu[k], p.h.done[k])
            && (CpuEndedWorkload(w) && p.h.done[k].preemptions > 0 ==> p.h.done[k].lastRemaining >= 2)
  {
    hide Run, ChargeOk, OnePlace, Counter, ChargedAll, Charged, PaidOnLoop, PaidAtRest;
    RunBalanced(Srtf(resume), w, clock, schedule);
    RunBills(resume, w, clock, schedule);
    RunLines(Srtf(resume), w, clock, schedule);
    var s := Run(Srtf(resume), w, clock, schedule);
    assert Booked(s, pid) && Charges(resume, s.procs[pid]);
    if CpuEndedWorkload(w) {
      RunSrtf(resume, w, clock, schedule);
      assert DoneOk(s.procs[pid]) && CutAboveOne(s.procs[pid].h.done[k]);
    }
  }

  /** In every run as written, a finished burst was charged its length exactly when it was never
      preempted, and otherwise at least one tick more per preemption. */
  lemma ChargeIsExactIffNotPreempted(w: seq<Line>, clock: int, schedule: seq<Thread>, pid: nat, k: nat)
    requires Admissible(Srtf(false), w) && pid < |w|
    requires pid < |Run(Srtf(false), w, clock, schedule).procs|
    requires k < Run(Srtf(false), w, clock, schedule).procs[pid].cpuIndex
    ensures var p := Run(Srtf(false), w, clock, schedule).procs[pid];
            && k < |p.h.done| && k < |w[pid].cpu|
            && var b, c := w[pid].cpu[k], p.h.done[k];
               && (c.ticks == b <==> c.preemptions == 0)
               && (c.preemptions > 0 ==> c.ticks - b >= c.preemptions)
               && (CpuEndedWorkload(w) && c.preemptions > 0 ==> c.preemptions <= b - 2)
  {
    hide Run;
    BurstCharges(false, w, clock, schedule, pid, k);
  }

  /** The ticks a process was charged beyond its CPU bursts. */
  function Overcharge(cpu: seq<int>, done: seq<Charge>): int
    requires |cpu| == |done|
  {
    if done == [] then 0
    else
      var n := |done| - 1;
      Overcharge(cpu[..n], done[..n]) + done[n].ticks - cpu[n]
  }

  lemma {:induction false} TicksWithOvercharge(cpu: seq<int>, done: seq<Charge>)
    requires |cpu| == |done|
    ensures Ticks(done) == Sum(cpu) + Overcharge(cpu, done)
  {
    if done != [] {
      TicksWithOvercharge(cpu[..|done| - 1], done[..|done| - 1]);
    }
  }

  lemma {:induction false} OverchargeBounds(resume: bool, cpu: seq<int>, done: seq<Charge>)
    requires |cpu| == |done| && forall k | 0 <= k < |done| :: ChargeOk(resume, cpu[k], done[k])
    ensures resume ==> Overcharge(cpu, done) == 0
    ensures !resume ==> Overcharge(cpu, done) >= Preemptions(done)
    ensures !resume && Preemptions(done) == 0 ==> Overcharge(cpu, done) == 0
  {
    if done != [] {
      var n := |done| - 1;
      assert ChargeOk(resume, cpu[n], done[n]);
      OverchargeBounds(resume, cpu[..n], done[..n]);
    }
  }

  /** The turnaround of a complete run of any workload: the corrected variant charges the bursts and nothing else;
      as written a process pays at least one tick more per preemption, so it pays its bursts
      exactly when it was never preempted. */
  lemma TurnaroundUnderSrtf(resume: bool, w: seq<Line>, clock: int, schedule: seq<Thread>, pid: nat)
    requires Admissible(Srtf(resume), w) && pid < |w|
    requires Joined(Run(Srtf(resume), w, clock, schedule))
    ensures var s := Run(Srtf(resume), w, clock, schedule);
            var total := Sum(w[pid].cpu) + Sum(w[pid].io);
            && |s.procs| == |w|
            && (resume ==> s.procs[pid].turnaround == total)
            && (!resume ==> s.procs[pid].turnaround >= total + Preemptions(s.procs[pid].h.done))
            && (!resume ==> (s.procs[pid].turnaround == total <==> Preemptions(s.procs[pid].h.done) == 0))
  {
    hide Run, ChargeOk, OnePlace, Counter, ChargedAll, Ticks, Preemptions, PaidOnLoop, PaidAtRest;
    var s := Run(Srtf(resume), w, clock, schedule);
    RunBalanced(Srtf(resume), w, clock, schedule);
    RunBills(resume, w, clock, schedule);
    RunLines(Srtf(resume), w, clock, schedule);
    CleanFinish(Srtf(resume), w, clock, schedule);
    assert Booked(s, pid) && Charges(resume, s.procs[pid]);
    TicksWithOvercharge(w[pid].cpu, s.procs[pid].h.done);
    OverchargeBounds(resume, w[pid].cpu, s.procs[pid].h.done);
    assert w[pid].io[..|w[pid].io|] == w[pid].io;
  }
}
