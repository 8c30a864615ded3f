// What a process's two clocks say: cpu_time is the CPU bursts charged, io_time the I/O bursts done.
module Times {
  import opened Workload
  import opened Protocol
  import opened Safety
  import opened Ledger
  import opened OneShot

  // ----- I/O: the scheduler never touches it -----

  predicate SameIo(a: seq<Proc>, b: seq<Proc>) {
    && |a| == |b|
    && forall i | 0 <= i < |a| ::
         a[i].line == b[i].line && a[i].ioIndex == b[i].ioIndex && a[i].ioTime == b[i].ioTime
  }

  lemma SameIoReflexive(a: seq<Proc>)
    ensures SameIo(a, a)
  {
  }

  lemma SameIoTransitive(a: seq<Proc>, b: seq<Proc>, c: seq<Proc>)
    requires SameIo(a, b) && SameIo(b, c)
    ensures SameIo(a, c)
  {
  }

  lemma IoBySchedulerStep(pol: Policy, s: State)
    ensures SameIo(s.procs, SchedulerStep(pol, s).procs) && SchedulerStep(pol, s).wpc == s.wpc
  {
    hide SameIo;
    if Charging(s.spc) {
      IoByCharge(pol, s);
    } else {
      IoByHandOver(pol, s);
    }
  }

  lemma IoByCharge(pol: Policy, s: State)
    requires Charging(s.spc)
    ensures SameIo(s.procs, ChargeBurst(pol, s).procs) && ChargeBurst(pol, s).wpc == s.wpc
  {
    hide HeadIsShorter, BurstIndex;
  }

  lemma IoByHandOver(pol: Policy, s: State)
    requires !Charging(s.spc)
    ensures SameIo(s.procs, SchedulerStep(pol, s).procs) && SchedulerStep(pol, s).wpc == s.wpc
  {
    hide ShouldTerminate, Enqueue;
  }

  // ----- The two clocks -----

  /** The I/O bursts done, and from its start on the one under way. */
  predicate IoTimed(s: State, pid: nat)
    requires pid < |s.procs|
  {
    var p := s.procs[pid];
    && p.ioIndex <= |p.line.io|
    && p.ioTime == Sum(p.line.io[..p.ioIndex])
                   + if s.wpc == WAdd(pid) && p.ioIndex < |p.line.io| then p.line.io[p.ioIndex] else 0
  }

  /** The ticks charged, and a one-shot burst already before it goes to the shared clock. */
  predicate CpuTimed(s: State, pid: nat)
    requires pid < |s.procs|
  {
    var p := s.procs[pid];
    p.cpuTime == Ticks(p.h.done) + p.h.burst.ticks
                 + if s.spc == SAdd(pid) && p.cpuIndex < |p.line.cpu| then p.line.cpu[p.cpuIndex] else 0
  }

  predicate AllIoTimed(s: State) {
    forall pid | 0 <= pid < |s.procs| :: IoTimed(s, pid)
  }

  predicate AllCpuTimed(s: State) {
    forall pid | 0 <= pid < |s.procs| :: CpuTimed(s, pid)
  }

  // ----- The I/O clock -----

  lemma IoScheduler(pol: Policy, s: State)
    requires AllIoTimed(s)
    ensures AllIoTimed(SchedulerStep(pol, s))
  {
    hide SchedulerStep, Sum;
    var t := SchedulerStep(pol, s);
    IoBySchedulerStep(pol, s);
    forall pid | 0 <= pid < |t.procs| ensures IoTimed(t, pid) {
      assert IoTimed(s, pid);
    }
  }

  /** The process the wakeup thread works on in this step, if any. */
  function Woken(s: State): seq<nat> {
    if s.wpc.WDeq? && s.wait != [] then [s.wait[0].pid] else WPid(s.wpc)
  }

  lemma IoApart(pol: Policy, s: State, pid: nat)
    requires pid < |s.procs| && Woken(s) != [pid] && IoTimed(s, pid)
    ensures |WakeupStep(pol, s).procs| == |s.procs| && IoTimed(WakeupStep(pol, s), pid)
  {
    hide ShouldTerminate, Enqueue, Sum;
  }

  lemma IoOfWoken(pol: Policy, s: State, pid: nat)
    requires pid < |s.procs| && Woken(s) == [pid] && IoTimed(s, pid)
    ensures |WakeupStep(pol, s).procs| == |s.procs| && IoTimed(WakeupStep(pol, s), pid)
  {
    hide ShouldTerminate, Enqueue, Sum;
    if s.procs[pid].ioIndex < |s.procs[pid].line.io| {
      SumPrefix(s.procs[pid].line.io, s.procs[pid].ioIndex);
    }
  }

  lemma IoWakeup(pol: Policy, s: State)
    requires AllIoTimed(s)
    ensures AllIoTimed(WakeupStep(pol, s))
  {
    hide WakeupStep, IoTimed;
    BurstsWakeup(pol, s);
    forall pid | 0 <= pid < |s.procs| ensures IoTimed(WakeupStep(pol, s), pid) {
      if Woken(s) == [pid] {
        IoOfWoken(pol, s, pid);
      } else {
        IoApart(pol, s, pid);
      }
    }
  }

  // ----- The CPU clock -----

  lemma CpuSame(s: State, t: State)
    requires AllCpuTimed(s) && SameBursts(s.procs, t.procs) && (t.spc == s.spc || (!s.spc.SAdd? && !t.spc.SAdd?))
    ensures AllCpuTimed(t)
  {
    hide Ticks;
    forall pid | 0 <= pid < |t.procs| ensures CpuTimed(t, pid) {
      assert CpuTimed(s, pid) && SameBurst(s.procs[pid], t.procs[pid]);
    }
  }

  /** Ticks before the burst is over. */
  lemma CpuOfRunner(pol: Policy, s: State)
    requires Pointers(s) && PcFits(pol, s) && SchedulerStage(s) && Charging(s.spc) && !s.spc.SStart?
    requires ProcOk(At(s, s.spc.pid)) && CpuTimed(s, s.spc.pid)
    ensures |ChargeBurst(pol, s).procs| == |s.procs| && CpuTimed(ChargeBurst(pol, s), s.spc.pid)
  {
    hide InRange, HeadIsShorter, Alternating, Ticks;
    CloseTicks(s.procs[s.spc.pid].h.done, s.procs[s.spc.pid].h.burst);
  }

  /** A new process's clock is set, not advanced; it has none yet. */
  lemma CpuOfStarter(pol: Policy, s: State)
    requires Pointers(s) && PcFits(pol, s) && SchedulerStage(s) && s.spc.SStart? && CpuTimed(s, s.spc.pid)
    requires var p := At(s, s.spc.pid);
             ProcOk(p) && |p.h.done| == p.cpuIndex && (!pol.Ticking() ==> p.h.burst.ticks == 0)
    ensures |ChargeBurst(pol, s).procs| == |s.procs| && CpuTimed(ChargeBurst(pol, s), s.spc.pid)
  {
    hide InRange, Alternating;
  }

  lemma CpuApart(pol: Policy, s: State)
    requires Pointers(s) && PcFits(pol, s) && SchedulerStage(s) && Charging(s.spc) && AllCpuTimed(s)
    requires |ChargeBurst(pol, s).procs| == |s.procs| && CpuTimed(ChargeBurst(pol, s), s.spc.pid)
    ensures AllCpuTimed(ChargeBurst(pol, s))
  {
    hide ChargeBurst, Ticks, PcFits, SchedulerStage, InRange;
    var t := ChargeBurst(pol, s);
    ChargeChanges(pol, s);
    ChargeShape(pol, s);
    forall pid | 0 <= pid < |t.procs| ensures CpuTimed(t, pid) {
      assert CpuTimed(s, pid);
    }
  }

  lemma CpuPoll(s: State)
    requires AllCpuTimed(s) && Polling(s.spc)
    ensures AllCpuTimed(Poll(s))
  {
    hide AllCpuTimed;
    CpuSame(s, Poll(s));
  }

  lemma NoAddByHandOver(pol: Policy, s: State)
    requires !Charging(s.spc) && !Polling(s.spc)
    ensures !s.spc.SAdd? && !HandOver(pol, s).spc.SAdd?
  {
    hide ShouldTerminate, Enqueue, At, Replace;
  }

  lemma WakeupKeepsSpc(pol: Policy, s: State)
    ensures WakeupStep(pol, s).spc == s.spc
  {
    hide ShouldTerminate, Enqueue, At, Replace;
  }

  // ----- Every run -----

  lemma TimedInit(pol: Policy, w: seq<Line>, clock: int)
    requires Admissible(pol, w)
    ensures AllIoTimed(Init(pol, w, clock)) && AllCpuTimed(Init(pol, w, clock))
  {
    hide Arrived;
  }

  lemma CpuCharge(pol: Policy, w: seq<Line>, clock: int, schedule: seq<Thread>)
    requires Admissible(pol, w) && (pol.Rr? ==> pol.quantum >= 0)
    requires var s := Run(pol, w, clock, schedule); Charging(s.spc) && AllCpuTimed(s)
    ensures AllCpuTimed(ChargeBurst(pol, Run(pol, w, clock, schedule)))
  {
    hide Run, ChargeBurst, CpuTimed, OnePlace, Counter, Tokens, QueuesOk, WakeupStage, ChargedAll, Charged, ProcOk,
         SchedulerStage;
    var s := Run(pol, w, clock, schedule);
    RunInv(pol, w, clock, schedule);
    RunBalanced(pol, w, clock, schedule);
    assert Booked(s, s.spc.pid) && CpuTimed(s, s.spc.pid) && ProcOk(s.procs[s.spc.pid]);
    if s.spc.SStart? {
      if !pol.Ticking() {
        RunWhole(pol, w, clock, schedule);
        assert Whole(s, s.spc.pid);
      }
      CpuOfStarter(pol, s);
    } else {
      CpuOfRunner(pol, s);
    }
    CpuApart(pol, s);
  }

  /** At every step of every run both clocks of every process say what it has done. */
  lemma {:induction false} RunTimed(pol: Policy, w: seq<Line>, clock: int, schedule: seq<Thread>)
    requires Admissible(pol, w) && (pol.Rr? ==> pol.quantum >= 0)
    ensures var s := Run(pol, w, clock, schedule); AllIoTimed(s) && AllCpuTimed(s)
    decreases |schedule|
  {
    hide Poll, ChargeBurst, HandOver, WakeupStep, AllIoTimed, AllCpuTimed, Init, SameBursts;
    if schedule == [] {
      TimedInit(pol, w, clock);
    } else {
      var n := |schedule| - 1;
      var s := Run(pol, w, clock, schedule[..n]);
      RunTimed(pol, w, clock, schedule[..n]);
      if schedule[n] == WakeupThread {
        IoWakeup(pol, s);
        BurstsWakeup(pol, s);
        WakeupKeepsSpc(pol, s);
        CpuSame(s, WakeupStep(pol, s));
      } else {
        IoScheduler(pol, s);
        if Polling(s.spc) {
          CpuPoll(s);
        } else if Charging(s.spc) {
          CpuCharge(pol, w, clock, schedule[..n]);
        } else {
          BurstsHandOver(pol, s);
          NoAddByHandOver(pol, s);
          CpuSame(s, HandOver(pol, s));
        }
      }
    }
  }

  /** A complete run leaves every process with the sum of its I/O bursts as I/O time, the ticks charged
      for its CPU bursts as CPU time, and the two together as turnaround. */
  lemma TimesAtEnd(pol: Policy, w: seq<Line>, clock: int, schedule: seq<Thread>, pid: nat)
    requires Admissible(pol, w) && (pol.Rr? ==> pol.quantum >= 0)
    requires Joined(Run(pol, w, clock, schedule)) && pid < |w|
    ensures var s := Run(pol, w, clock, schedule);
            && |s.procs| == |w|
            && var p := s.procs[pid];
               && p.ioTime == Sum(w[pid].io)
               && p.cpuTime == Ticks(p.h.done)
               && p.turnaround == p.processTime == p.cpuTime + p.ioTime
  {
    hide Run, OnePlace, Counter, ChargedAll, Ticks;
    var s := Run(pol, w, clock, schedule);
    RunTimed(pol, w, clock, schedule);
    RunBalanced(pol, w, clock, schedule);
    RunLines(pol, w, clock, schedule);
    CleanFinish(pol, w, clock, schedule);
    assert Booked(s, pid) && IoTimed(s, pid) && CpuTimed(s, pid);
    assert w[pid].io[..|w[pid].io|] == w[pid].io;
  }
}
