// The non-preemptive policies: every burst is charged whole, so results depend on the workload only.
module OneShot {
  import opened Workload
  import opened Protocol
  import opened Safety
  import opened Ledger

  /** Every finished burst was charged its length; the one under way is charged or it is not. */
  predicate Whole(s: State, pid: nat)
    requires pid < |s.procs|
  {
    var p := s.procs[pid];
    && |p.h.done| <= |p.line.cpu|
    && (forall k | 0 <= k < |p.h.done| :: p.h.done[k].ticks == p.line.cpu[k] && p.h.done[k].preemptions == 0)
    && p.h.burst.preemptions == 0
    && p.h.burst.ticks == if s.spc == SEnd(pid) && |p.h.done| < |p.line.cpu| then p.line.cpu[|p.h.done|] else 0
  }

  predicate AllWhole(s: State) {
    forall pid | 0 <= pid < |s.procs| :: Whole(s, pid)
  }

  lemma WholeSame(s: State, t: State)
    requires AllWhole(s) && SameBursts(s.procs, t.procs) && !s.spc.SEnd? && !t.spc.SEnd?
    ensures AllWhole(t)
  {
    forall pid | 0 <= pid < |t.procs| ensures Whole(t, pid) {
      assert Whole(s, pid);
    }
  }

  lemma WholeCharge(pol: Policy, s: State)
    requires Pointers(s) && SchedulerStage(s) && AllWhole(s) && Charging(s.spc) && !pol.Ticking() && PcFits(pol, s)
    requires ProcOk(At(s, s.spc.pid)) && |At(s, s.spc.pid).h.done| == At(s, s.spc.pid).cpuIndex
    ensures AllWhole(ChargeBurst(pol, s))
  {
    hide InRange, HeadIsShorter, Alternating;
    var t := ChargeBurst(pol, s);
    forall pid | 0 <= pid < |t.procs| ensures Whole(t, pid) {
      assert Whole(s, pid);
    }
  }

  lemma WholeHandOver(pol: Policy, s: State)
    requires AllWhole(s) && !Charging(s.spc)
    ensures AllWhole(HandOver(pol, s))
  {
    hide SameBursts, AllWhole;
    BurstsHandOver(pol, s);
    assert !HandOver(pol, s).spc.SEnd? by {
      hide ShouldTerminate, Enqueue, At, Replace;
    }
    hide HandOver;
    WholeSame(s, HandOver(pol, s));
  }

  lemma WholeWakeup(pol: Policy, s: State)
    requires AllWhole(s)
    ensures AllWhole(WakeupStep(pol, s))
  {
    BurstsWakeup(pol, s);
    var t := WakeupStep(pol, s);
    assert t.spc == s.spc by {
      hide ShouldTerminate, Enqueue, Whole, At, Replace;
    }
    hide WakeupStep;
    forall pid | 0 <= pid < |t.procs| ensures Whole(t, pid) {
      assert Whole(s, pid) && SameBurst(s.procs[pid], t.procs[pid]);
    }
  }

  lemma {:induction false} RunWhole(pol: Policy, w: seq<Line>, clock: int, schedule: seq<Thread>)
    requires Admissible(pol, w) && !pol.Ticking()
    ensures AllWhole(Run(pol, w, clock, schedule))
    decreases |schedule|
  {
    hide Poll, ChargeBurst, HandOver, WakeupStep, AllWhole, OnePlace, Counter, SchedulerStage, WakeupStage, QueuesOk;
    if schedule == [] {
      assert AllWhole(Init(pol, w, clock)) by { InitWhole(pol, w, clock); }
    } else {
      var n := |schedule| - 1;
      var s := Run(pol, w, clock, schedule[..n]);
      RunWhole(pol, w, clock, schedule[..n]);
      RunInv(pol, w, clock, schedule[..n]);
      if schedule[n] == WakeupThread {
        WholeWakeup(pol, s);
      } else if Polling(s.spc) {
        WholePoll(s);
      } else if Charging(s.spc) {
        RunBalanced(pol, w, clock, schedule[..n]);
        assert Booked(s, s.spc.pid) && ProcOk(s.procs[s.spc.pid]);
        WholeCharge(pol, s);
      } else {
        WholeHandOver(pol, s);
      }
    }
  }

  lemma InitWhole(pol: Policy, w: seq<Line>, clock: int)
    requires Admissible(pol, w)
    ensures AllWhole(Init(pol, w, clock))
  {
  }

  lemma WholePoll(s: State)
    requires AllWhole(s) && Polling(s.spc)
    ensures AllWhole(Poll(s))
  {
    WholeSame(s, Poll(s));
  }

  lemma {:induction false} TicksAreBursts(done: seq<Charge>, cpu: seq<int>)
    requires |done| == |cpu| && forall k | 0 <= k < |done| :: done[k].ticks == cpu[k]
    ensures Ticks(done) == Sum(cpu)
  {
    if done != [] {
      TicksAreBursts(done[..|done| - 1], cpu[..|cpu| - 1]);
    }
  }

  /** A complete FCFS or SJF run charges every process its bursts, under every interleaving. */
  lemma TurnaroundIsTotalBurst(pol: Policy, w: seq<Line>, clock: int, schedule: seq<Thread>, pid: nat)
    requires Admissible(pol, w) && !pol.Ticking() && Joined(Run(pol, w, clock, schedule)) && pid < |w|
    ensures var s := Run(pol, w, clock, schedule);
            |s.procs| == |w| && s.procs[pid].turnaround == Sum(w[pid].cpu) + Sum(w[pid].io)
  {
    hide Run, Counter, OnePlace, ChargedAll;
    var s := Run(pol, w, clock, schedule);
    RunBalanced(pol, w, clock, schedule);
    RunWhole(pol, w, clock, schedule);
    RunLines(pol, w, clock, schedule);
    CleanFinish(pol, w, clock, schedule);
    assert Booked(s, pid) && Whole(s, pid);
    TicksAreBursts(s.procs[pid].h.done, w[pid].cpu);
    assert w[pid].io[..|w[pid].io|] == w[pid].io;
  }
}
