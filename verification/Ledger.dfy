// Where the clock's ticks go: every run's books balance, for all four policies.
module Ledger {
  import opened Workload
  import opened Protocol
  import opened Safety

  function Ticks(done: seq<Charge>): int {
    if done == [] then 0 else Ticks(done[..|done| - 1]) + done[|done| - 1].ticks
  }

  function Preemptions(done: seq<Charge>): nat {
    if done == [] then 0 else Preemptions(done[..|done| - 1]) + done[|done| - 1].preemptions
  }

  /** Every tick a process has taken from the clock: CPU bursts done, the one under way, and I/O. */
  function Charged(p: Proc): int
    requires p.ioIndex <= |p.line.io|
  {
    Ticks(p.h.done) + p.h.burst.ticks + Sum(p.line.io[..p.ioIndex])
  }

  /** The one-shot handlers write process_time before the clock for a resumed process and after
      it for a new one; in between the two differ by the burst. */
  function HalfDone(s: State, pid: nat): int
    requires pid < |s.procs|
  {
    var p := s.procs[pid];
    if BurstIndex(p) >= |p.line.cpu| then 0
    else if s.spc == SAdd(pid) && p.status != New then p.line.cpu[BurstIndex(p)]
    else if s.spc == SEnd(pid) && p.status == New then -p.line.cpu[BurstIndex(p)]
    else 0
  }

  /** A dispatch that has not shown up in an index yet. */
  function Working(s: State, pid: nat): nat {
    Flag(HandBefore(s.spc) == [pid] && !s.spc.SSwapPut?) + Flag(WPid(s.wpc) == [pid] && !s.wpc.WPut?)
  }

  predicate InBounds(ps: seq<Proc>) {
    forall i | 0 <= i < |ps| :: ps[i].ioIndex <= |ps[i].line.io|
  }

  predicate Booked(s: State, pid: nat)
    requires pid < |s.procs| && s.procs[pid].ioIndex <= |s.procs[pid].line.io|
  {
    var p := s.procs[pid];
    && |p.h.done| == p.cpuIndex
    && (p.cpuIndex >= |p.line.cpu| ==> p.h.burst == NO_CHARGE)
    && p.processTime == Charged(p) + HalfDone(s, pid)
    && p.h.handled == p.cpuIndex + p.ioIndex + Preemptions(p.h.done) + p.h.burst.preemptions
                      + Working(s, pid) + Flag(p.status == Terminated)
  }

  function ChargedAll(ps: seq<Proc>): int
    requires InBounds(ps)
  {
    if ps == [] then 0 else ChargedAll(ps[..|ps| - 1]) + Charged(ps[|ps| - 1])
  }

  predicate Balanced(s: State, start: int) {
    && InBounds(s.procs)
    && (forall pid | 0 <= pid < |s.procs| :: Booked(s, pid))
    && s.clock == start + ChargedAll(s.procs)
  }

  lemma CloseTicks(done: seq<Charge>, c: Charge)
    ensures Ticks(done + [c]) == Ticks(done) + c.ticks
    ensures Preemptions(done + [c]) == Preemptions(done) + c.preemptions
  {
    assert (done + [c])[..|done|] == done;
  }

  lemma {:induction false} ChargedAllUpdate(ps: seq<Proc>, k: nat, p: Proc)
    requires k < |ps| && InBounds(ps) && p.ioIndex <= |p.line.io|
    ensures InBounds(ps[k := p])
    ensures ChargedAll(ps[k := p]) == ChargedAll(ps) - Charged(ps[k]) + Charged(p)
  {
    var n := |ps| - 1;
    if k == n {
      assert ps[k := p][..n] == ps[..n];
    } else {
      assert ps[k := p][..n] == ps[..n][k := p];
      ChargedAllUpdate(ps[..n], k, p);
    }
  }

  /** One process changes by as many ticks as the clock. */
  lemma OneBooked(s: State, t: State, start: int, pid: nat)
    requires Balanced(s, start) && pid < |s.procs| && OnlyChanges(s.procs, t.procs, pid)
    requires t.procs[pid].ioIndex <= |t.procs[pid].line.io|
    requires t.clock - s.clock == Charged(t.procs[pid]) - Charged(s.procs[pid])
    requires Booked(t, pid)
    requires forall q | 0 <= q < |s.procs| && q != pid ::
               Working(t, q) == Working(s, q) && HalfDone(t, q) == HalfDone(s, q)
    ensures Balanced(t, start)
  {
    assert t.procs == s.procs[pid := t.procs[pid]];
    ChargedAllUpdate(s.procs, pid, t.procs[pid]);
    hide Charged, Working, HalfDone, ChargedAll;
    forall q | 0 <= q < |t.procs| ensures Booked(t, q) {
      assert q != pid ==> Booked(s, q);
    }
  }

  lemma NobodyBooked(s: State, t: State, start: int)
    requires Balanced(s, start) && t.procs == s.procs && t.clock == s.clock
    requires forall q | 0 <= q < |s.procs| :: Working(t, q) == Working(s, q) && HalfDone(t, q) == HalfDone(s, q)
    ensures Balanced(t, start)
  {
    hide Charged, Working, HalfDone, ChargedAll;
    forall q | 0 <= q < |t.procs| ensures Booked(t, q) {
      assert Booked(s, q);
    }
  }

  lemma BalancedPoll(s: State, start: int)
    requires Balanced(s, start) && Polling(s.spc)
    ensures Balanced(Poll(s), start)
  {
    hide Balanced;
    NobodyBooked(s, Poll(s), start);
  }

  /** What the two halves of a step owe each other, at the process in hand. */
  predicate Settled(s: State, t: State, pid: nat) {
    && pid < |s.procs| && pid < |t.procs|
    && s.procs[pid].ioIndex <= |s.procs[pid].line.io|
    && t.procs[pid].ioIndex <= |t.procs[pid].line.io|
    && t.clock - s.clock == Charged(t.procs[pid]) - Charged(s.procs[pid])
    && Booked(t, pid)
  }

  lemma BookedOneShot(pol: Policy, s: State)
    requires Pointers(s) && SchedulerStage(s) && InBounds(s.procs)
    requires s.spc.SAdd? || s.spc.SEnd? || (s.spc.SStart? && !pol.Ticking())
    requires Booked(s, s.spc.pid) && WPid(s.wpc) != [s.spc.pid]
    ensures Settled(s, ChargeBurst(pol, s), s.spc.pid)
  {
    hide InRange, Sum, Ticks, Preemptions;
    CloseTicks(s.procs[s.spc.pid].h.done, s.procs[s.spc.pid].h.burst);
  }

  lemma BookedTicking(pol: Policy, s: State)
    requires Pointers(s) && SchedulerStage(s) && InBounds(s.procs)
    requires s.spc.STick? || s.spc.STest? || s.spc.SSwapEnd? || (s.spc.SStart? && pol.Ticking())
    requires PcFits(pol, s)
    requires Booked(s, s.spc.pid) && WPid(s.wpc) != [s.spc.pid]
    ensures Settled(s, ChargeBurst(pol, s), s.spc.pid)
  {
    if s.spc.STick? {
      BookedTick(pol, s);
    } else {
      hide InRange, Sum, Ticks, Preemptions, HeadIsShorter, BurstIndex, TickLoop;
    }
  }

  lemma BookedTick(pol: Policy, s: State)
    requires Pointers(s) && SchedulerStage(s) && InBounds(s.procs) && s.spc.STick? && PcFits(pol, s)
    requires Booked(s, s.spc.pid) && WPid(s.wpc) != [s.spc.pid]
    ensures Settled(s, ChargeBurst(pol, s), s.spc.pid)
  {
    hide InRange, Sum, Ticks, Preemptions, BurstIndex;
    CloseTicks(s.procs[s.spc.pid].h.done, s.procs[s.spc.pid].h.burst);
  }

  /** A step that works on one process at most. */
  predicate Confined(s: State, t: State, pid: nat) {
    && OnlyChanges(s.procs, t.procs, pid)
    && forall q | 0 <= q < |s.procs| && q != pid ::
               Working(t, q) == Working(s, q) && HalfDone(t, q) == HalfDone(s, q)
  }

  lemma SettledKeeps(s: State, t: State, start: int, pid: nat)
    requires Balanced(s, start) && Settled(s, t, pid) && Confined(s, t, pid)
    ensures Balanced(t, start)
  {
    OneBooked(s, t, start, pid);
  }

  lemma ConfinedCharge(pol: Policy, s: State)
    requires Pointers(s) && Charging(s.spc)
    ensures Confined(s, ChargeBurst(pol, s), s.spc.pid)
  {
    hide HeadIsShorter, InRange, Tick, CloseBurst, Refill, Preempt, BurstIndex;
  }

  lemma BalancedCharge(pol: Policy, s: State, start: int)
    requires Inv(pol, s) && Balanced(s, start) && Charging(s.spc)
    ensures Balanced(ChargeBurst(pol, s), start)
  {
    hide Charged, ChargedAll, Booked, ProcsOk, QueuesOk, WakeupStage, SchedulerStage, Tokens, Counter,
         OnePlace, ChargeBurst, PcFits, Confined, Settled;
    OnlyInHand(s, s.spc.pid);
    if s.spc.SAdd? || s.spc.SEnd? || (s.spc.SStart? && !pol.Ticking()) {
      BookedOneShot(pol, s);
    } else {
      BookedTicking(pol, s);
    }
    ConfinedCharge(pol, s);
    SettledKeeps(s, ChargeBurst(pol, s), start, s.spc.pid);
  }

  lemma BookedDequeue(pol: Policy, s: State)
    requires Pointers(s) && (s.spc.SDeq? || s.spc.SSwapDeq?) && s.ready != []
    requires WPid(s.wpc) != [s.ready[0].pid] && OnCpu(At(s, s.ready[0].pid))
    requires InBounds(s.procs) && Booked(s, s.ready[0].pid) && (pol.Ticking() ==> ProcOk(At(s, s.ready[0].pid)))
    ensures Settled(s, HandOver(pol, s), s.ready[0].pid)
  {
    hide Booked, Settled;
    DequeueShape(pol, s);
    hide HandOver, ProcOk, InRange;
    DequeuedBooks(s, HandOver(pol, s));
  }

  lemma DequeuedBooks(s: State, t: State)
    requires Dequeues(s, t) && (s.spc.SDeq? || s.spc.SSwapDeq?) && WPid(s.wpc) != [s.ready[0].pid]
    requires InBounds(s.procs) && Booked(s, s.ready[0].pid) && OnCpu(s.procs[s.ready[0].pid])
    ensures Settled(s, t, s.ready[0].pid)
  {
    hide ShouldTerminate, Ticks, Preemptions, Sum;
  }

  lemma ConfinedDequeue(pol: Policy, s: State)
    requires Pointers(s) && (s.spc.SDeq? || s.spc.SSwapDeq?) && s.ready != []
    requires OnCpu(At(s, s.ready[0].pid)) && (pol.Ticking() ==> ProcOk(At(s, s.ready[0].pid)))
    ensures Confined(s, HandOver(pol, s), s.ready[0].pid)
  {
    DequeueShape(pol, s);
    hide HandOver, ProcOk, InRange, ShouldTerminate, BurstIndex;
  }

  lemma BalancedDequeue(pol: Policy, s: State, start: int)
    requires Inv(pol, s) && Balanced(s, start) && (s.spc.SDeq? || s.spc.SSwapDeq?)
    ensures Balanced(HandOver(pol, s), start)
  {
    hide Charged, ChargedAll, Booked, WakeupStage, SchedulerStage, Counter,
         OnePlace, PcFits, ShouldTerminate, HandOver, Confined, Settled, ProcOk, OnCpu;
    ReadyDistinct(s);
    BookedDequeue(pol, s);
    ConfinedDequeue(pol, s);
    SettledKeeps(s, HandOver(pol, s), start, s.ready[0].pid);
  }

  lemma BookedRetire(pol: Policy, s: State)
    requires Pointers(s) && s.spc.STermWrite? && At(s, s.spc.pid).status != Terminated
    requires WPid(s.wpc) != [s.spc.pid] && InBounds(s.procs) && Booked(s, s.spc.pid)
    ensures Settled(s, HandOver(pol, s), s.spc.pid) && Confined(s, HandOver(pol, s), s.spc.pid)
  {
    hide InRange, Ticks, Preemptions, Sum;
  }

  lemma BookedMove(pol: Policy, s: State)
    requires !Polling(s.spc) && !Charging(s.spc) && !s.spc.SDeq? && !s.spc.SSwapDeq? && !s.spc.STermWrite?
    requires !s.spc.SSwapPost?
    ensures var t := HandOver(pol, s);
            && t.procs == s.procs && t.clock == s.clock
            && forall q | 0 <= q < |s.procs| :: Working(t, q) == Working(s, q) && HalfDone(t, q) == HalfDone(s, q)
  {
    hide Enqueue, BurstIndex;
  }

  lemma BalancedMove(pol: Policy, s: State, start: int)
    requires Inv(pol, s) && Balanced(s, start)
    requires !Polling(s.spc) && !Charging(s.spc) && !s.spc.SDeq? && !s.spc.SSwapDeq?
    ensures Balanced(HandOver(pol, s), start)
  {
    hide Charged, ChargedAll, Booked, ProcsOk, QueuesOk, WakeupStage, Tokens, Counter,
         OnePlace, ShouldTerminate, HandOver, Confined, Settled, Working, HalfDone;
    if s.spc.STermWrite? {
      OnlyInHand(s, s.spc.pid);
      BookedRetire(pol, s);
      SettledKeeps(s, HandOver(pol, s), start, s.spc.pid);
    } else {
      BookedMove(pol, s);
      NobodyBooked(s, HandOver(pol, s), start);
    }
  }

  lemma BookedWakeup(pol: Policy, s: State, pid: nat)
    requires Pointers(s) && (s.wpc.WTermWrite? || s.wpc.WAdd?) && s.wpc.pid == pid && WakeupStage(s)
    requires HandBefore(s.spc) != [pid] && HandAfter(s.spc) != [pid]
    requires InBounds(s.procs) && Booked(s, pid)
    ensures Settled(s, WakeupStep(pol, s), pid) && Confined(s, WakeupStep(pol, s), pid)
  {
    hide InRange, ShouldTerminate, Ticks, Preemptions, Sum;
    if s.wpc.WAdd? {
      SumPrefix(At(s, pid).line.io, At(s, pid).ioIndex);
    }
  }

  lemma BookedWait(pol: Policy, s: State)
    requires Pointers(s) && s.wpc.WDeq? && s.wait != []
    requires HandBefore(s.spc) != [s.wait[0].pid] && HandAfter(s.spc) != [s.wait[0].pid]
    requires ProcOk(At(s, s.wait[0].pid)) && At(s, s.wait[0].pid).status == Sleep
    requires InBounds(s.procs) && Booked(s, s.wait[0].pid)
    ensures Settled(s, WakeupStep(pol, s), s.wait[0].pid) && Confined(s, WakeupStep(pol, s), s.wait[0].pid)
  {
    hide InRange, ShouldTerminate, Ticks, Preemptions, Sum, Alternating;
    TerminateOnIo(Handled(At(s, s.wait[0].pid)));
  }

  lemma BookedIdle(pol: Policy, s: State)
    requires !s.wpc.WTermWrite? && !s.wpc.WAdd? && !s.wpc.WDeq?
    ensures var t := WakeupStep(pol, s);
            && t.procs == s.procs && t.clock == s.clock
            && forall q | 0 <= q < |s.procs| :: Working(t, q) == Working(s, q) && HalfDone(t, q) == HalfDone(s, q)
  {
    hide Enqueue, BurstIndex;
  }

  lemma BalancedWakeup(pol: Policy, s: State, start: int)
    requires Inv(pol, s) && Balanced(s, start)
    ensures Balanced(WakeupStep(pol, s), start)
  {
    hide Charged, ChargedAll, Booked, SchedulerStage, Counter, ProcOk,
         OnePlace, ShouldTerminate, WakeupStep, Confined, Settled, Working, HalfDone, PcFits, WakeupStage;
    if s.wpc.WDeq? {
      WaitDistinct(s);
      BookedWait(pol, s);
      SettledKeeps(s, WakeupStep(pol, s), start, s.wait[0].pid);
    } else if s.wpc.WTermWrite? || s.wpc.WAdd? {
      OnlyInWakeupHand(s, s.wpc.pid);
      BookedWakeup(pol, s, s.wpc.pid);
      SettledKeeps(s, WakeupStep(pol, s), start, s.wpc.pid);
    } else {
      BookedIdle(pol, s);
      NobodyBooked(s, WakeupStep(pol, s), start);
    }
  }

  lemma InitBalanced(pol: Policy, w: seq<Line>, clock: int)
    requires Admissible(pol, w)
    ensures Balanced(Init(pol, w, clock), clock)
  {
    FreshCharges(Init(pol, w, clock).procs);
  }

  lemma {:induction false} FreshCharges(ps: seq<Proc>)
    requires InBounds(ps)
    requires forall i | 0 <= i < |ps| :: ps[i].ioIndex == 0 && ps[i].h == History(0, NO_CHARGE, [])
    ensures ChargedAll(ps) == 0
  {
    if ps != [] {
      FreshCharges(ps[..|ps| - 1]);
    }
  }

  lemma {:induction false} RunBalanced(pol: Policy, w: seq<Line>, clock: int, schedule: seq<Thread>)
    requires Admissible(pol, w) && (pol.Rr? ==> pol.quantum >= 0)
    ensures Balanced(Run(pol, w, clock, schedule), clock)
    decreases |schedule|
  {
    hide Inv, Balanced, Poll, ChargeBurst, HandOver, WakeupStep;
    if schedule == [] {
      InitBalanced(pol, w, clock);
    } else {
      var n := |schedule| - 1;
      var s := Run(pol, w, clock, schedule[..n]);
      RunBalanced(pol, w, clock, schedule[..n]);
      RunInv(pol, w, clock, schedule[..n]);
      if schedule[n] == WakeupThread {
        BalancedWakeup(pol, s, clock);
      } else if Polling(s.spc) {
        BalancedPoll(s, clock);
      } else if Charging(s.spc) {
        BalancedCharge(pol, s, clock);
      } else if s.spc.SDeq? || s.spc.SSwapDeq? {
        BalancedDequeue(pol, s, clock);
      } else {
        BalancedMove(pol, s, clock);
      }
    }
  }

  // ----- What the books say -----

  function ProcessTimes(ps: seq<Proc>): int {
    if ps == [] then 0 else ProcessTimes(ps[..|ps| - 1]) + ps[|ps| - 1].processTime
  }

  /** What is charged to a process's time but not yet to the clock, or the other way round. */
  function Outstanding(s: State): int {
    if (s.spc.SAdd? || s.spc.SEnd?) && s.spc.pid < |s.procs| then HalfDone(s, s.spc.pid) else 0
  }

  lemma {:induction false} TimesAreCharges(s: State, k: nat)
    requires InBounds(s.procs) && k <= |s.procs|
    requires forall pid | 0 <= pid < |s.procs| :: Booked(s, pid)
    ensures ProcessTimes(s.procs[..k]) == ChargedAll(s.procs[..k])
              + (if (s.spc.SAdd? || s.spc.SEnd?) && s.spc.pid < k then HalfDone(s, s.spc.pid) else 0)
  {
    if k > 0 {
      TimesAreCharges(s, k - 1);
      assert s.procs[..k][..k - 1] == s.procs[..k - 1];
      assert Booked(s, k - 1);
    }
  }

  /** At every step of every run the clock is the arrival phase's end plus the process times,
      up to the one update the scheduler may be in the middle of. */
  lemma ClockConservation(pol: Policy, w: seq<Line>, clock: int, schedule: seq<Thread>)
    requires Admissible(pol, w) && (pol.Rr? ==> pol.quantum >= 0)
    ensures var s := Run(pol, w, clock, schedule);
            s.clock == clock + ProcessTimes(s.procs) - Outstanding(s)
  {
    hide Run, Charged, ChargedAll, ProcessTimes, Booked, HalfDone;
    var s := Run(pol, w, clock, schedule);
    RunBalanced(pol, w, clock, schedule);
    TimesAreCharges(s, |s.procs|);
    assert s.procs[..|s.procs|] == s.procs;
  }

  /** In a complete run each process was handled once per burst and once more to be terminated;
      each preemption costs one more dispatch. */
  lemma HandledExactly(pol: Policy, w: seq<Line>, clock: int, schedule: seq<Thread>, pid: nat)
    requires Admissible(pol, w) && (pol.Rr? ==> pol.quantum >= 0)
    requires Joined(Run(pol, w, clock, schedule)) && pid < |w|
    ensures var s := Run(pol, w, clock, schedule);
            && |s.procs| == |w|
            && var h := s.procs[pid].h;
               h.handled == |w[pid].cpu| + |w[pid].io| + 1 + Preemptions(h.done)
  {
    hide Run, ChargedAll, Charged, HalfDone;
    RunBalanced(pol, w, clock, schedule);
    RunLines(pol, w, clock, schedule);
    CleanFinish(pol, w, clock, schedule);
    assert Booked(Run(pol, w, clock, schedule), pid);
  }
}
