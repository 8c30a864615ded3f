// What a step does at each program point, as an update of the state.
module Steps {
  import opened Protocol
  import opened Safety

  /** The history of a burst charged at once. */
  function Book(p: Proc, b: int): Proc {
    p.(h := p.h.(burst := p.h.burst.(ticks := p.h.burst.ticks + b)))
  }

  lemma AtTermAdd(pol: Policy, s: State, pid: nat)
    requires s.spc == STermAdd(pid)
    ensures Step(pol, SchedulerThread, s) == s.(terminated := s.terminated + 1, spc := STermWrite(pid))
  {
  }

  lemma AtTermWrite(pol: Policy, s: State, pid: nat)
    requires s.spc == STermWrite(pid) && pid < |s.procs|
    ensures Step(pol, SchedulerThread, s) ==
            s.(procs := s.procs[pid := Finish(s.procs[pid])], spc := SCheck, depth := 0)
  {
  }

  lemma AtPut(pol: Policy, s: State, pid: nat)
    requires s.spc == SPut(pid) && pid < |s.procs|
    ensures Step(pol, SchedulerThread, s) ==
            s.(wait := Enqueue(pol, s.wait, pid, s.procs[pid].priority), spc := SPost(pid))
  {
    hide Enqueue;
  }

  lemma AtPost(pol: Policy, s: State, pid: nat)
    requires s.spc == SPost(pid)
    ensures Step(pol, SchedulerThread, s) == s.(waitCount := s.waitCount + 1, spc := SLog(pid))
  {
  }

  lemma AtLog(pol: Policy, s: State, pid: nat)
    requires s.spc == SLog(pid) && pid < |s.procs|
    ensures Step(pol, SchedulerThread, s) ==
            s.(log := s.log + [Entry(pid, s.procs[pid].cpuIndex, s.start, s.end)],
               spc := if s.depth > 0 then SLog(pid) else SCheck, depth := if s.depth > 0 then s.depth - 1 else 0)
  {
  }

  /** The three steps of a one-shot charge, for a new process and for one back from I/O. */
  lemma AtStart(pol: Policy, s: State, pid: nat)
    requires !pol.Ticking() && s.spc == SStart(pid) && pid < |s.procs|
    requires var p := s.procs[pid]; BurstIndex(p) == p.cpuIndex < |p.line.cpu|
    ensures var p := s.procs[pid];
            var b := p.line.cpu[p.cpuIndex];
            Step(pol, SchedulerThread, s) ==
            s.(procs := s.procs[pid := if p.status == New then p.(cpuTime := b)
                                       else p.(cpuTime := p.cpuTime + b, processTime := p.processTime + b)],
               start := s.clock, spc := SAdd(pid))
  {
  }

  lemma AtAdd(pol: Policy, s: State, pid: nat)
    requires s.spc == SAdd(pid) && pid < |s.procs|
    requires var p := s.procs[pid]; BurstIndex(p) == p.cpuIndex < |p.line.cpu|
    ensures var p := s.procs[pid];
            var b := p.line.cpu[p.cpuIndex];
            Step(pol, SchedulerThread, s) ==
            s.(procs := s.procs[pid := Book(p, b)], clock := s.clock + b, spc := SEnd(pid))
  {
  }

  lemma AtEnd(pol: Policy, s: State, pid: nat)
    requires s.spc == SEnd(pid) && pid < |s.procs|
    requires var p := s.procs[pid]; BurstIndex(p) == p.cpuIndex < |p.line.cpu|
    ensures var p := s.procs[pid];
            var q := if p.status == New then p.(processTime := p.processTime + p.line.cpu[p.cpuIndex]) else p;
            Step(pol, SchedulerThread, s) ==
            s.(procs := s.procs[pid := CloseBurst(q).(status := Sleep)], end := s.clock, spc := SPut(pid))
  {
    hide CloseBurst;
  }

  lemma AtSliceStart(pol: Policy, s: State, pid: nat)
    requires pol.Ticking() && s.spc == SStart(pid) && pid < |s.procs|
    requires var p := s.procs[pid]; pol.Srtf? ==> p.cpuIndex < |p.line.cpu|
    ensures var p := s.procs[pid];
            var length := if pol.Rr? || pol.resume then p.remaining else p.line.cpu[p.cpuIndex];
            Step(pol, SchedulerThread, s) == s.(start := s.clock, spc := STick(pid, 0, length))
  {
  }

  /** Inside the loop a tick, behind it the end of the burst; the quantum bounds only round robin. */
  lemma AtTick(pol: Policy, s: State, pid: nat, time: int, procTime: int)
    requires s.spc == STick(pid, time, procTime) && pid < |s.procs|
    ensures time < procTime && (pol.Rr? ==> time < pol.quantum) ==>
              (Step(pol, SchedulerThread, s) ==
               s.(procs := s.procs[pid := Tick(s.procs[pid])], clock := s.clock + 1,
                  spc := if pol.Rr? then STick(pid, time + 1, procTime) else STest(pid, time + 1, procTime)))
    ensures (time >= procTime || (pol.Rr? && time >= pol.quantum)) && (pol.Rr? ==> time <= pol.quantum) ==>
              (Step(pol, SchedulerThread, s) ==
               s.(procs := s.procs[pid := Refill(pol, s.procs[pid])], end := s.clock, spc := SPut(pid)))
  {
    hide Tick, Refill;
  }

  lemma AtTest(pol: Policy, s: State, pid: nat, time: int, procTime: int)
    requires s.spc == STest(pid, time, procTime)
    ensures Step(pol, SchedulerThread, s) ==
            s.(spc := if HeadIsShorter(s, pid) then SSwapEnd(pid) else STick(pid, time, procTime))
  {
    hide HeadIsShorter;
  }

  lemma AtSwapEnd(pol: Policy, s: State, pid: nat)
    requires s.spc == SSwapEnd(pid) && pid < |s.procs|
    ensures var p := s.procs[pid];
            Step(pol, SchedulerThread, s) ==
            s.(procs := s.procs[pid := Preempt(p)], end := s.clock, spc := SSwapPut(pid),
               log := s.log + [Entry(pid, p.cpuIndex, s.start, s.clock)])
  {
    hide Preempt;
  }

  lemma AtSwapPut(pol: Policy, s: State, pid: nat)
    requires pol.Srtf? && s.spc == SSwapPut(pid) && pid < |s.procs|
    ensures Step(pol, SchedulerThread, s) ==
            s.(ready := Enqueue(pol, s.ready, pid, s.procs[pid].priority), spc := SSwapDeq(pid))
  {
    hide Enqueue;
  }

  lemma AtSwapDequeue(pol: Policy, s: State, pid: nat)
    requires Inv(pol, s) && s.spc == SSwapDeq(pid)
    ensures s.ready != [] && s.ready[0].pid < |s.procs|
    ensures var next := s.ready[0].pid;
            var p := Handled(s.procs[next]);
            Step(pol, SchedulerThread, s) ==
            s.(procs := s.procs[next := p], ready := s.ready[1..], depth := s.depth + 1,
               spc := if ShouldTerminate(p) then STermAdd(next) else SStart(next))
  {
    hide OnePlace, Counter, PcFits, ShouldTerminate;
  }

  /** Whoever is dequeued is ready to be dispatched or terminated. */
  lemma AtDequeue(pol: Policy, s: State)
    requires Inv(pol, s) && s.spc.SDeq? && s.depth == 0
    ensures s.ready != [] && s.ready[0].pid < |s.procs|
    ensures var pid := s.ready[0].pid;
            var p := Handled(s.procs[pid]);
            Step(pol, SchedulerThread, s) ==
            s.(procs := s.procs[pid := p], ready := s.ready[1..], entry := p.remaining,
               spc := if ShouldTerminate(p) then STermAdd(pid) else SStart(pid))
  {
    hide OnePlace, Counter, PcFits, ShouldTerminate;
  }

  lemma AtPolling(pol: Policy, s: State)
    requires Polling(s.spc)
    ensures Step(pol, SchedulerThread, s) == Poll(s)
  {
    hide ChargeBurst, HandOver;
  }

  // ----- The wakeup thread -----

  lemma AtWakeupCheck(pol: Policy, s: State)
    requires s.wpc.WCheck? || s.wpc.WTry?
    ensures Step(pol, WakeupThread, s) ==
            (if s.wpc.WCheck? then s.(wpc := if s.terminated < |s.procs| then WTry else WExit)
             else if s.waitCount > 0 then s.(waitCount := s.waitCount - 1, wpc := WDeq)
             else s.(wpc := WCheck))
  {
  }

  lemma AtWakeupDequeue(pol: Policy, s: State)
    requires s.wpc.WDeq? && s.wait != [] && s.wait[0].pid < |s.procs|
    requires var p := Handled(s.procs[s.wait[0].pid]);
             p.status == Sleep && (!ShouldTerminate(p) ==> p.ioIndex < |p.line.io|)
    ensures var pid := s.wait[0].pid;
            var p := Handled(s.procs[pid]);
            Step(pol, WakeupThread, s) ==
            (if ShouldTerminate(p)
             then s.(procs := s.procs[pid := p], wait := s.wait[1..], wpc := WTermAdd(pid))
             else s.(procs := s.procs[pid := StartIo(p)], wait := s.wait[1..], wpc := WAdd(pid)))
  {
    hide ShouldTerminate;
  }

  lemma AtWakeupTerm(pol: Policy, s: State, pid: nat)
    requires pid < |s.procs| && (s.wpc == WTermAdd(pid) || s.wpc == WTermWrite(pid))
    ensures Step(pol, WakeupThread, s) ==
            (if s.wpc.WTermAdd? then s.(terminated := s.terminated + 1, wpc := WTermWrite(pid))
             else s.(procs := s.procs[pid := Finish(s.procs[pid])], wpc := WCheck))
  {
  }

  lemma AtWakeupAdd(pol: Policy, s: State, pid: nat)
    requires s.wpc == WAdd(pid) && pid < |s.procs| && s.procs[pid].ioIndex < |s.procs[pid].line.io|
    ensures var p := s.procs[pid];
            Step(pol, WakeupThread, s) ==
            s.(procs := s.procs[pid := FinishIo(p)], clock := s.clock + p.line.io[p.ioIndex], wpc := WPut(pid))
  {
  }

  lemma AtWakeupPut(pol: Policy, s: State, pid: nat)
    requires s.wpc == WPut(pid) && pid < |s.procs|
    ensures Step(pol, WakeupThread, s) ==
            s.(ready := Enqueue(pol, s.ready, pid, s.procs[pid].priority), wpc := WPost)
  {
    hide Enqueue;
  }

  lemma AtWakeupPost(pol: Policy, s: State)
    requires s.wpc.WPost?
    ensures Step(pol, WakeupThread, s) == s.(readyCount := s.readyCount + 1, wpc := WCheck)
  {
  }
}
