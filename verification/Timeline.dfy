// The CPU log of the non-preemptive policies as a time line.
module Timeline {
  import opened Workload
  import opened Protocol
  import opened Safety

  predicate NonNegativeLines(ps: seq<Proc>) {
    forall i | 0 <= i < |ps| :: NonNegative(ps[i].line.cpu) && NonNegative(ps[i].line.io)
  }

  /** The slice is at least as long as the burst it stands for. */
  predicate LongEnough(ps: seq<Proc>, pid: nat, cpuIndex: nat, start: int, end: int) {
    pid < |ps| && 1 <= cpuIndex <= |ps[pid].line.cpu| && start + ps[pid].line.cpu[cpuIndex - 1] <= end
  }

  /** The scheduler has read a start time it has not logged yet. */
  predicate Started(pc: SPc) {
    pc.SAdd? || pc.SEnd? || pc.SPut? || pc.SPost? || pc.SLog?
  }

  /** No slice starts before the one logged before it has ended. */
  predicate Disjoint(log: seq<Entry>) {
    forall i, j | 0 <= i < j < |log| :: log[i].end <= log[j].start
  }

  predicate Logged(s: State) {
    && Disjoint(s.log)
    && (forall i | 0 <= i < |s.log| ::
          && LongEnough(s.procs, s.log[i].pid, s.log[i].cpuIndex, s.log[i].start, s.log[i].end)
          && s.log[i].end <= if Started(s.spc) then s.start else s.clock)
  }

  predicate InProgress(s: State) {
    && (Started(s.spc) ==> s.start <= s.clock && s.spc.pid < |s.procs|)
    && (s.spc.SEnd? ==> var p := At(s, s.spc.pid); LongEnough(s.procs, s.spc.pid, p.cpuIndex + 1, s.start, s.clock))
    && (s.spc.SPut? || s.spc.SPost? || s.spc.SLog? ==>
          var p := At(s, s.spc.pid);
          s.end <= s.clock && LongEnough(s.procs, s.spc.pid, p.cpuIndex, s.start, s.end))
  }

  predicate OnTime(s: State) {
    Logged(s) && InProgress(s)
  }

  lemma OnTimeCharge(pol: Policy, s: State)
    requires Pointers(s) && PcFits(pol, s) && SchedulerStage(s) && !pol.Ticking() && Charging(s.spc)
    requires OnTime(s) && NonNegativeLines(s.procs) && ProcOk(At(s, s.spc.pid))
    ensures OnTime(ChargeBurst(pol, s))
  {
    hide InRange, Alternating, Tick, Refill, Preempt;
    assert NonNegative(At(s, s.spc.pid).line.cpu);
  }

  lemma OnTimeHandOver(pol: Policy, s: State)
    requires Pointers(s) && PcFits(pol, s) && !pol.Ticking() && !Charging(s.spc) && !Polling(s.spc)
    requires OnTime(s) && NonNegativeLines(s.procs)
    ensures OnTime(HandOver(pol, s))
  {
    if s.spc.SLog? {
      OnTimeLog(pol, s);
    } else {
      hide HandOver, SameBursts, OnTime, Pointers, PcFits;
      BurstsHandOver(pol, s);
      QuietMove(pol, s);
      OnTimeMove(s, HandOver(pol, s));
    }
  }

  /** Everywhere else only a slice already ended moves on towards the log. */
  lemma QuietMove(pol: Policy, s: State)
    requires PcFits(pol, s) && !pol.Ticking() && !Charging(s.spc) && !Polling(s.spc) && !s.spc.SLog?
    ensures var t := HandOver(pol, s);
            && t.log == s.log && t.clock == s.clock && t.start == s.start && t.end == s.end
            && Started(t.spc) == Started(s.spc) == (s.spc.SPut? || s.spc.SPost?)
            && (Started(s.spc) ==> (t.spc.SPost? || t.spc.SLog?) && t.spc.pid == s.spc.pid)
  {
    hide ShouldTerminate, Enqueue, At, Replace, Handled, Finish;
  }

  lemma OnTimeMove(s: State, t: State)
    requires OnTime(s) && SameBursts(s.procs, t.procs)
    requires t.log == s.log && t.clock == s.clock && t.start == s.start && t.end == s.end
    requires Started(t.spc) == Started(s.spc) == (s.spc.SPut? || s.spc.SPost?)
    requires Started(s.spc) ==> (t.spc.SPost? || t.spc.SLog?) && t.spc.pid == s.spc.pid
    ensures OnTime(t)
  {
    hide Disjoint;
  }

  lemma OnTimeLog(pol: Policy, s: State)
    requires PcFits(pol, s) && !pol.Ticking() && s.spc.SLog? && OnTime(s) && s.spc.pid < |s.procs|
    ensures OnTime(HandOver(pol, s))
  {
    assert At(s, s.spc.pid).cpuIndex >= 1;
  }

  lemma WakeupClock(pol: Policy, s: State)
    requires NonNegativeLines(s.procs)
    ensures var t := WakeupStep(pol, s);
            && t.clock >= s.clock
            && t.spc == s.spc && t.log == s.log && t.start == s.start && t.end == s.end
  {
    hide InRange, ShouldTerminate, Enqueue, Replace;
  }

  lemma OnTimeLater(s: State, t: State)
    requires OnTime(s) && SameBursts(s.procs, t.procs) && t.clock >= s.clock
    requires t.spc == s.spc && t.log == s.log && t.start == s.start && t.end == s.end
    ensures OnTime(t)
  {
  }

  lemma OnTimePoll(s: State)
    requires OnTime(s) && Polling(s.spc)
    ensures OnTime(Poll(s))
  {
  }

  lemma LinesOfRun(pol: Policy, w: seq<Line>, clock: int, schedule: seq<Thread>)
    requires Admissible(pol, w)
    ensures NonNegativeLines(Run(pol, w, clock, schedule).procs)
  {
    hide Run;
    RunLines(pol, w, clock, schedule);
  }

  lemma {:induction false} RunOnTime(pol: Policy, w: seq<Line>, clock: int, schedule: seq<Thread>)
    requires Admissible(pol, w) && !pol.Ticking()
    ensures OnTime(Run(pol, w, clock, schedule))
    decreases |schedule|
  {
    hide Poll, ChargeBurst, HandOver, WakeupStep, OnTime, OnePlace, Counter, SchedulerStage, WakeupStage, QueuesOk,
         NonNegativeLines;
    if schedule == [] {
      InitOnTime(pol, w, clock);
    } else {
      var n := |schedule| - 1;
      var s := Run(pol, w, clock, schedule[..n]);
      RunOnTime(pol, w, clock, schedule[..n]);
      RunInv(pol, w, clock, schedule[..n]);
      LinesOfRun(pol, w, clock, schedule[..n]);
      if schedule[n] == WakeupThread {
        BurstsWakeup(pol, s);
        WakeupClock(pol, s);
        OnTimeLater(s, WakeupStep(pol, s));
      } else if Polling(s.spc) {
        OnTimePoll(s);
      } else if Charging(s.spc) {
        assert ProcOk(s.procs[s.spc.pid]);
        OnTimeCharge(pol, s);
      } else {
        OnTimeHandOver(pol, s);
      }
    }
  }

  lemma InitOnTime(pol: Policy, w: seq<Line>, clock: int)
    requires Admissible(pol, w)
    ensures OnTime(Init(pol, w, clock))
  {
  }

  /** At every step of an FCFS or SJF run the logged slices follow one another without overlap,
      none reaches past the clock, and each is at least as long as the burst it logs. */
  lemma LogIsATimeline(pol: Policy, w: seq<Line>, clock: int, schedule: seq<Thread>)
    requires Admissible(pol, w) && !pol.Ticking()
    ensures var s := Run(pol, w, clock, schedule);
            && Disjoint(s.log)
            && forall i | 0 <= i < |s.log| ::
                 var e := s.log[i];
                 && e.pid < |w| && 1 <= e.cpuIndex <= |w[e.pid].cpu|
                 && e.start + w[e.pid].cpu[e.cpuIndex - 1] <= e.end <= s.clock
  {
    hide Run;
    RunOnTime(pol, w, clock, schedule);
    RunLines(pol, w, clock, schedule);
  }
}
