// Round robin as written is first-come-first-served on bursts cut at the quantum: every run of the
// one, under any interleaving, is matched step by step by a run of the other.
module RoundRobin {
  import opened Workload
  import opened Protocol
  import opened Safety

  /** A burst not longer than the quantum stays, a longer one becomes the quantum. */
  function Cut(b: int, quantum: int): (r: int)
    ensures r <= b && r <= quantum && (r == b || r == quantum)
  {
    if b < quantum then b else quantum
  }

  function CutAll(s: seq<int>, quantum: int): (r: seq<int>)
    ensures |r| == |s|
  {
    seq(|s|, i requires 0 <= i < |s| => Cut(s[i], quantum))
  }

  function CutLine(l: Line, quantum: int): Line {
    l.(cpu := CutAll(l.cpu, quantum))
  }

  function CutWorkload(w: seq<Line>, quantum: int): (r: seq<Line>)
    ensures |r| == |w|
  {
    seq(|w|, i requires 0 <= i < |w| => CutLine(w[i], quantum))
  }

  // ----- What the tick loop knows -----

  predicate Slicing(p: Proc, time: int, procTime: int) {
    && p.cpuIndex < |p.line.cpu| && procTime == p.line.cpu[p.cpuIndex]
    && 0 <= time <= procTime && p.remaining == procTime - time && p.h.burst == Charge(time, 0, 0)
    && (p.status == New ==> p.cpuTime == time)
  }

  predicate Waiting(p: Proc) {
    && p.h.burst == NO_CHARGE && (p.cpuIndex < |p.line.cpu| ==> p.remaining == p.line.cpu[p.cpuIndex])
    && (p.status == New ==> p.cpuTime == 0)
  }

  predicate RrInv(s: State) {
    && (forall i | 0 <= i < |s.procs| :: NonNegative(s.procs[i].line.cpu))
    && (forall i | 0 <= i < |s.procs| && !(s.spc.STick? && s.spc.pid == i) :: Waiting(s.procs[i]))
    && (s.spc.STick? ==> Slicing(At(s, s.spc.pid), s.spc.time, s.spc.procTime))
  }

  lemma RrCharge(quantum: int, s: State)
    requires Pointers(s) && PcFits(Rr(quantum), s) && SchedulerStage(s) && Charging(s.spc) && RrInv(s)
    ensures RrInv(ChargeBurst(Rr(quantum), s))
  {
    hide InRange, HeadIsShorter;
    assert NonNegative(At(s, s.spc.pid).line.cpu);
  }

  lemma RrSame(s: State, t: State)
    requires RrInv(s) && SameBursts(s.procs, t.procs)
    requires t.spc == s.spc || (!s.spc.STick? && !t.spc.STick?)
    ensures RrInv(t)
  {
    forall i | 0 <= i < |t.procs| && !(t.spc.STick? && t.spc.pid == i) ensures Waiting(t.procs[i]) {
      assert Waiting(s.procs[i]) && SameBurst(s.procs[i], t.procs[i]);
    }
    if s.spc.STick? && s.spc.pid < |s.procs| {
      assert SameBurst(s.procs[s.spc.pid], t.procs[s.spc.pid]);
    }
  }

  lemma RrHandOver(quantum: int, s: State)
    requires RrInv(s) && !Charging(s.spc)
    ensures RrInv(HandOver(Rr(quantum), s))
  {
    hide ShouldTerminate, Enqueue, At, Replace, SameBursts, RrInv;
    BurstsHandOver(Rr(quantum), s);
    RrSame(s, HandOver(Rr(quantum), s));
  }

  lemma RrWakeup(quantum: int, s: State)
    requires RrInv(s)
    ensures RrInv(WakeupStep(Rr(quantum), s))
  {
    hide ShouldTerminate, Enqueue, At, Replace, SameBursts, RrInv;
    BurstsWakeup(Rr(quantum), s);
    RrSame(s, WakeupStep(Rr(quantum), s));
  }

  // ----- The matching FCFS state -----

  function Matching(quantum: int, p: Proc): Proc {
    p.(line := CutLine(p.line, quantum), remaining := 0)
  }

  /** In the tick loop the matching process has its clock addition still ahead of it. */
  function MatchingSlice(quantum: int, p: Proc, time: int): Proc {
    var b := if p.cpuIndex < |p.line.cpu| then Cut(p.line.cpu[p.cpuIndex], quantum) else 0;
    var m := Matching(quantum, p).(h := p.h.(burst := NO_CHARGE));
    if p.status == New then m.(cpuTime := b, processTime := p.processTime - time)
    else m.(cpuTime := p.cpuTime - time + b, processTime := p.processTime - time + b)
  }

  function MatchAll(quantum: int, ps: seq<Proc>): (r: seq<Proc>)
    ensures |r| == |ps|
  {
    seq(|ps|, i requires 0 <= i < |ps| => Matching(quantum, ps[i]))
  }

  function Match(quantum: int, s: State): State {
    if s.spc.STick? then
      s.(procs := Replace(MatchAll(quantum, s.procs), s.spc.pid, MatchingSlice(quantum, At(s, s.spc.pid), s.spc.time)),
         clock := s.clock - s.spc.time, spc := SAdd(s.spc.pid), entry := 0)
    else s.(procs := MatchAll(quantum, s.procs), entry := 0)
  }

  /** The FCFS steps that match one round-robin step. */
  function Moves(quantum: int, s: State, t: Thread): seq<Thread> {
    if t == SchedulerThread && s.spc.STick? then
      if s.spc.time < s.spc.procTime && s.spc.time < quantum then [] else [SchedulerThread, SchedulerThread]
    else [t]
  }

  lemma MatchReplace(quantum: int, ps: seq<Proc>, pid: nat, p: Proc)
    ensures MatchAll(quantum, Replace(ps, pid, p)) == Replace(MatchAll(quantum, ps), pid, Matching(quantum, p))
  {
  }

  lemma SimulatePoll(quantum: int, s: State)
    requires Polling(s.spc)
    ensures Match(quantum, Poll(s)) == Poll(Match(quantum, s))
  {
    hide MatchAll;
  }

  lemma SimulateStart(quantum: int, s: State)
    requires Pointers(s) && s.spc.SStart? && SchedulerStage(s) && RrInv(s) && ProcOk(At(s, s.spc.pid))
    ensures Match(quantum, ChargeBurst(Rr(quantum), s)) == ChargeBurst(Fcfs, Match(quantum, s))
  {
    var p := s.procs[s.spc.pid];
    assert Waiting(p);
    hide RrInv, InRange;
  }

  lemma SimulateTick(quantum: int, s: State)
    requires Pointers(s) && s.spc.STick? && RrInv(s)
    requires s.spc.time < s.spc.procTime && s.spc.time < quantum
    ensures Match(quantum, ChargeBurst(Rr(quantum), s)) == Match(quantum, s)
  {
    hide RrInv, InRange;
  }

  /** The matching state after FCFS has added the cut burst to the clock. */
  lemma SimulateAdd(quantum: int, s: State)
    requires Pointers(s) && s.spc.STick? && SchedulerStage(s) && ProcOk(At(s, s.spc.pid))
    ensures var m := Match(quantum, s);
            var p := At(m, s.spc.pid);
            && BurstIndex(p) == p.cpuIndex < |p.line.cpu|
            && var b := p.line.cpu[p.cpuIndex];
               ChargeBurst(Fcfs, m) ==
               Put(m, s.spc.pid, p.(h := p.h.(burst := p.h.burst.(ticks := b)))).(clock := m.clock + b,
                                                                                  spc := SEnd(s.spc.pid))
  {
    hide InRange, Alternating, ShouldTerminate;
  }

  /** The last two steps of a slice, on the process alone: what FCFS makes of the matching process. */
  lemma MatchingEnd(quantum: int, s: State)
    requires Pointers(s) && s.spc.STick? && SchedulerStage(s) && RrInv(s)
    requires PcFits(Rr(quantum), s) && !(s.spc.time < s.spc.procTime && s.spc.time < quantum)
    ensures var p := s.procs[s.spc.pid];
            var m := MatchingSlice(quantum, p, s.spc.time);
            var b := m.line.cpu[m.cpuIndex];
            var n := m.(h := m.h.(burst := m.h.burst.(ticks := b)));
            && m.cpuIndex < |m.line.cpu| && b == s.spc.time
            && Matching(quantum, Refill(Rr(quantum), p))
               == CloseBurst(if n.status == New then n.(processTime := n.processTime + b) else n).(status := Sleep)
  {
    var p := s.procs[s.spc.pid];
    assert Slicing(p, s.spc.time, s.spc.procTime);
    hide InRange, RrInv, OnCpu;
  }

  lemma SliceEnds(quantum: int, s: State)
    requires s.spc.STick? && s.spc.pid < |s.procs|
    requires PcFits(Rr(quantum), s) && !(s.spc.time < s.spc.procTime && s.spc.time < quantum)
    ensures ChargeBurst(Rr(quantum), s)
         == Put(s, s.spc.pid, Refill(Rr(quantum), s.procs[s.spc.pid])).(end := s.clock, spc := SPut(s.spc.pid))
  {
    hide Refill, Tick;
  }

  lemma BurstEnds(m: State)
    requires m.spc.SEnd? && m.spc.pid < |m.procs|
    requires var p := m.procs[m.spc.pid]; BurstIndex(p) == p.cpuIndex < |p.line.cpu|
    ensures var p := m.procs[m.spc.pid];
            var q := if p.status == New then p.(processTime := p.processTime + p.line.cpu[p.cpuIndex]) else p;
            ChargeBurst(Fcfs, m) ==
            Put(m, m.spc.pid, CloseBurst(q).(status := Sleep)).(end := m.clock, spc := SPut(m.spc.pid))
  {
    hide CloseBurst;
  }

  lemma ReplaceTwice(ps: seq<Proc>, pid: nat, p: Proc, q: Proc)
    ensures Replace(Replace(ps, pid, p), pid, q) == Replace(ps, pid, q)
  {
  }

  lemma SimulateEnd(quantum: int, s: State)
    requires Pointers(s) && s.spc.STick? && SchedulerStage(s) && RrInv(s) && ProcOk(At(s, s.spc.pid))
    requires PcFits(Rr(quantum), s) && !(s.spc.time < s.spc.procTime && s.spc.time < quantum)
    ensures Match(quantum, ChargeBurst(Rr(quantum), s)) == ChargeBurst(Fcfs, ChargeBurst(Fcfs, Match(quantum, s)))
  {
    assert s.spc.pid < |s.procs|;
    SliceEnds(quantum, s);
    SimulateAdd(quantum, s);
    MatchingEnd(quantum, s);
    hide ChargeBurst, RrInv, InRange, ProcOk, PcFits, SchedulerStage, Pointers, Refill, CloseBurst, MatchAll, Matching;
    var pid, p := s.spc.pid, s.procs[s.spc.pid];
    var m := MatchingSlice(quantum, p, s.spc.time);
    hide MatchingSlice;
    var ps := MatchAll(quantum, s.procs);
    var added := ChargeBurst(Fcfs, Match(quantum, s));
    assert added.procs[pid] == m.(h := m.h.(burst := m.h.burst.(ticks := m.line.cpu[m.cpuIndex])));
    BurstEnds(added);
    MatchReplace(quantum, s.procs, pid, Refill(Rr(quantum), p));
    ReplaceTwice(ps, pid, m, added.procs[pid]);
    ReplaceTwice(ps, pid, added.procs[pid], Matching(quantum, Refill(Rr(quantum), p)));
    hide Replace;
  }

  // ----- The steps both policies share -----

  lemma MatchAt(quantum: int, s: State, pid: nat)
    requires !s.spc.STick? && pid < |s.procs|
    ensures At(Match(quantum, s), pid) == Matching(quantum, At(s, pid))
    ensures ShouldTerminate(Matching(quantum, At(s, pid))) == ShouldTerminate(At(s, pid))
  {
  }

  lemma SimulateDequeue(quantum: int, s: State)
    requires Pointers(s) && s.spc.SDeq? && s.ready != [] && s.depth == 0
    requires OnCpu(At(s, s.ready[0].pid)) && ProcOk(At(s, s.ready[0].pid))
    ensures Match(quantum, SchedulerDequeue(Rr(quantum), s)) == SchedulerDequeue(Fcfs, Match(quantum, s))
  {
    var pid := s.ready[0].pid;
    MatchAt(quantum, s, pid);
    MatchReplace(quantum, s.procs, pid, Handled(At(s, pid)));
    hide ProcOk, InRange, MatchAll;
  }

  lemma SimulateHandOver(quantum: int, s: State)
    requires Pointers(s) && PcFits(Rr(quantum), s) && !Polling(s.spc) && !Charging(s.spc)
    requires s.spc.SDeq? ==> s.ready != [] && OnCpu(At(s, s.ready[0].pid)) && ProcOk(At(s, s.ready[0].pid))
    ensures Match(quantum, HandOver(Rr(quantum), s)) == HandOver(Fcfs, Match(quantum, s))
  {
    if s.spc.SDeq? {
      SimulateDequeue(quantum, s);
      hide SchedulerDequeue, Match;
    } else {
      if SPid(s.spc) != [] {
        MatchAt(quantum, s, s.spc.pid);
      }
      if s.spc.STermWrite? {
        MatchReplace(quantum, s.procs, s.spc.pid, Finish(At(s, s.spc.pid)));
      }
      hide InRange, MatchAll, SchedulerDequeue, ShouldTerminate, Replace, At;
    }
  }

  predicate InLoop(s: State, pid: nat) {
    s.spc.STick? && s.spc.pid == pid
  }

  lemma MatchPut(quantum: int, s: State, pid: nat, p: Proc)
    requires Pointers(s) && pid < |s.procs| && !InLoop(s, pid)
    ensures Match(quantum, Put(s, pid, p)) == Put(Match(quantum, s), pid, Matching(quantum, p))
    ensures At(Match(quantum, s), pid) == Matching(quantum, At(s, pid))
  {
    MatchReplace(quantum, s.procs, pid, p);
    if s.spc.STick? {
      var ps, x := MatchAll(quantum, s.procs), MatchingSlice(quantum, At(s, s.spc.pid), s.spc.time);
      assert Replace(Replace(ps, s.spc.pid, x), pid, Matching(quantum, p))
          == Replace(Replace(ps, pid, Matching(quantum, p)), s.spc.pid, x);
    }
  }

  lemma SimulateWakeupDequeue(quantum: int, s: State)
    requires Pointers(s) && s.wait != [] && !InLoop(s, s.wait[0].pid)
    requires ProcOk(At(s, s.wait[0].pid)) && At(s, s.wait[0].pid).status == Sleep
    ensures Match(quantum, WakeupDequeue(s)) == WakeupDequeue(Match(quantum, s))
  {
    var pid := s.wait[0].pid;
    var p := Handled(At(s, pid));
    TerminateOnIo(p);
    SleeperMatches(quantum, p);
    MatchPut(quantum, s, pid, p);
    hide ShouldTerminate, ProcOk, InRange, MatchAll, MatchingSlice, InLoop, StartIo, Pointers;
    if p.ioIndex < |p.line.io| {
      PutTwice(s, pid, p, StartIo(p));
      PutTwice(Match(quantum, s), pid, Matching(quantum, p), StartIo(Matching(quantum, p)));
      assert Pointers(s) && !InLoop(s, pid);
      MatchPut(quantum, s, pid, StartIo(p));
    }
    hide Replace, Matching;
  }

  lemma SleeperMatches(quantum: int, p: Proc)
    ensures ShouldTerminate(Matching(quantum, p)) == ShouldTerminate(p)
    ensures p.ioIndex < |p.line.io| ==>
              (p.ioIndex < |Matching(quantum, p).line.io|
               && Matching(quantum, StartIo(p)) == StartIo(Matching(quantum, p)))
  {
  }

  lemma PutTwice(s: State, pid: nat, p: Proc, q: Proc)
    ensures Put(Put(s, pid, p), pid, q) == Put(s, pid, q)
  {
  }

  lemma SimulateWakeup(quantum: int, s: State)
    requires Pointers(s) && WakeupStage(s)
    requires WPid(s.wpc) != [] ==> !InLoop(s, s.wpc.pid)
    requires s.wpc.WDeq? ==>
               (s.wait != [] && !InLoop(s, s.wait[0].pid)
                && ProcOk(At(s, s.wait[0].pid)) && At(s, s.wait[0].pid).status == Sleep)
    ensures Match(quantum, WakeupStep(Rr(quantum), s)) == WakeupStep(Fcfs, Match(quantum, s))
  {
    if s.wpc.WDeq? {
      SimulateWakeupDequeue(quantum, s);
      hide WakeupDequeue, Match;
    } else if WPid(s.wpc) != [] {
      SimulateSleeper(quantum, s);
    } else {
      hide InRange, MatchAll, WakeupDequeue, ShouldTerminate, Replace, At, MatchingSlice;
    }
  }

  lemma SimulateSleeper(quantum: int, s: State)
    requires Pointers(s) && WakeupStage(s) && WPid(s.wpc) != [] && !InLoop(s, s.wpc.pid)
    ensures Match(quantum, WakeupStep(Rr(quantum), s)) == WakeupStep(Fcfs, Match(quantum, s))
  {
    var p := At(s, s.wpc.pid);
    MatchPut(quantum, s, s.wpc.pid, p);
    if s.wpc.WTermWrite? {
      MatchPut(quantum, s, s.wpc.pid, Finish(p));
    } else if s.wpc.WAdd? {
      MatchPut(quantum, s, s.wpc.pid, FinishIo(p));
    }
    hide InRange, MatchAll, WakeupDequeue, ShouldTerminate, Replace, At, MatchingSlice;
  }

  // ----- Whole runs -----

  lemma RrPoll(s: State)
    requires RrInv(s) && Polling(s.spc)
    ensures RrInv(Poll(s))
  {
    hide Waiting;
  }

  lemma {:induction false} RunRr(quantum: nat, w: seq<Line>, clock: int, schedule: seq<Thread>)
    requires Admissible(Rr(quantum), w)
    ensures RrInv(Run(Rr(quantum), w, clock, schedule))
    decreases |schedule|
  {
    hide Poll, ChargeBurst, HandOver, WakeupStep, RrInv, OnePlace, Counter, SchedulerStage, WakeupStage, QueuesOk;
    if schedule == [] {
      assert RrInv(Init(Rr(quantum), w, clock)) by { InitRr(quantum, w, clock); }
    } else {
      var n := |schedule| - 1;
      var s := Run(Rr(quantum), w, clock, schedule[..n]);
      RunRr(quantum, w, clock, schedule[..n]);
      RunInv(Rr(quantum), w, clock, schedule[..n]);
      if schedule[n] == WakeupThread {
        RrWakeup(quantum, s);
      } else if Polling(s.spc) {
        RrPoll(s);
      } else if Charging(s.spc) {
        RrCharge(quantum, s);
      } else {
        RrHandOver(quantum, s);
      }
    }
  }

  lemma InitRr(quantum: nat, w: seq<Line>, clock: int)
    requires Admissible(Rr(quantum), w)
    ensures RrInv(Init(Rr(quantum), w, clock))
  {
    forall i | 0 <= i < |w| ensures NonNegative(w[i].cpu) {
      assert WellFormed(w[i]);
    }
  }

  lemma SimulateScheduler(quantum: nat, s: State)
    requires Inv(Rr(quantum), s) && RrInv(s)
    ensures Match(quantum, SchedulerStep(Rr(quantum), s))
         == Exec(Fcfs, Match(quantum, s), Moves(quantum, s, SchedulerThread))
  {
    var m, a := Match(quantum, s), Moves(quantum, s, SchedulerThread);
    ExecShort(m, SchedulerThread);
    hide Poll, ChargeBurst, HandOver, WakeupStep, Exec, OnePlace, Counter, SchedulerStage, WakeupStage, ProcOk, OnCpu,
         Match, RrInv;
    MatchPc(quantum, s);
    if Polling(s.spc) {
      SimulatePoll(quantum, s);
    } else if s.spc.SStart? {
      assert ProcOk(s.procs[s.spc.pid]);
      SimulateStart(quantum, s);
    } else if s.spc.STick? {
      assert ProcOk(s.procs[s.spc.pid]);
      if a == [] {
        SimulateTick(quantum, s);
      } else {
        SimulateEnd(quantum, s);
        SecondEnd(m);
      }
    } else {
      SimulateHandOver(quantum, s);
    }
  }

  lemma MatchPc(quantum: int, s: State)
    ensures Match(quantum, s).spc == if s.spc.STick? then SAdd(s.spc.pid) else s.spc
  {
  }

  lemma SecondEnd(m: State)
    requires m.spc.SAdd?
    ensures ChargeBurst(Fcfs, m).spc.SEnd? || ChargeBurst(Fcfs, m).spc.SFault?
    ensures SchedulerStep(Fcfs, SchedulerStep(Fcfs, m)) == ChargeBurst(Fcfs, ChargeBurst(Fcfs, m))
  {
  }

  lemma ExecShort(m: State, t: Thread)
    ensures Exec(Fcfs, m, []) == m
    ensures Exec(Fcfs, m, [t]) == Step(Fcfs, t, m)
    ensures Exec(Fcfs, m, [t, t]) == Step(Fcfs, t, Step(Fcfs, t, m))
  {
    hide Step;
    ExecSnoc(Fcfs, m, [], t);
    ExecSnoc(Fcfs, m, [t], t);
    assert [] + [t] == [t] && [t] + [t] == [t, t];
  }

  lemma SimulateWakeupStep(quantum: nat, s: State)
    requires Inv(Rr(quantum), s)
    ensures Match(quantum, WakeupStep(Rr(quantum), s))
         == Exec(Fcfs, Match(quantum, s), Moves(quantum, s, WakeupThread))
  {
    ExecShort(Match(quantum, s), WakeupThread);
    hide WakeupStep, Exec, OnePlace, Counter, SchedulerStage, WakeupStage, ProcOk, OnCpu, Match;
    if s.spc.STick? {
      OnlyInHand(s, s.spc.pid);
    }
    SimulateWakeup(quantum, s);
  }

  /** The FCFS schedule that matches a round-robin schedule. */
  function Matched(quantum: nat, w: seq<Line>, clock: int, schedule: seq<Thread>): seq<Thread>
    requires Admissible(Rr(quantum), w)
  {
    if schedule == [] then []
    else
      var n := |schedule| - 1;
      Matched(quantum, w, clock, schedule[..n])
      + Moves(quantum, Run(Rr(quantum), w, clock, schedule[..n]), schedule[n])
  }

  lemma CutAdmissible(quantum: nat, w: seq<Line>)
    requires Admissible(Rr(quantum), w)
    ensures Admissible(Fcfs, CutWorkload(w, quantum))
  {
    forall i | 0 <= i < |w| ensures WellFormed(CutLine(w[i], quantum)) {
      assert WellFormed(w[i]);
    }
  }

  lemma {:induction false} ArrivedAlike(a: Policy, b: Policy, ps: seq<Proc>, qs: seq<Proc>, k: nat)
    requires k <= |ps| == |qs| && !a.Keyed() && !b.Keyed()
    ensures Arrived(a, ps, k) == Arrived(b, qs, k)
  {
    if k > 0 {
      ArrivedAlike(a, b, ps, qs, k - 1);
    }
  }

  lemma MatchInit(quantum: nat, w: seq<Line>, clock: int)
    requires Admissible(Rr(quantum), w) && Admissible(Fcfs, CutWorkload(w, quantum))
    ensures Match(quantum, Init(Rr(quantum), w, clock)) == Init(Fcfs, CutWorkload(w, quantum), clock)
  {
    var s, t := Init(Rr(quantum), w, clock), Init(Fcfs, CutWorkload(w, quantum), clock);
    ArrivedAlike(Rr(quantum), Fcfs, s.procs, t.procs, |w|);
    assert MatchAll(quantum, s.procs) == t.procs;
  }

  /** Every state of every round-robin run matches a state of an FCFS run of the cut workload:
      same queues, semaphores, log with its times, indices, statuses and process times. */
  lemma {:induction false} RunSimulates(quantum: nat, w: seq<Line>, clock: int, schedule: seq<Thread>)
    requires Admissible(Rr(quantum), w)
    ensures Admissible(Fcfs, CutWorkload(w, quantum))
    ensures Match(quantum, Run(Rr(quantum), w, clock, schedule))
         == Run(Fcfs, CutWorkload(w, quantum), clock, Matched(quantum, w, clock, schedule))
    decreases |schedule|
  {
    CutAdmissible(quantum, w);
    hide SchedulerStep, WakeupStep, Inv, RrInv, Match, Init, Admissible, CutWorkload, Moves;
    var start := Init(Fcfs, CutWorkload(w, quantum), clock);
    if schedule == [] {
      MatchInit(quantum, w, clock);
    } else {
      var n := |schedule| - 1;
      var s := Run(Rr(quantum), w, clock, schedule[..n]);
      RunSimulates(quantum, w, clock, schedule[..n]);
      RunInv(Rr(quantum), w, clock, schedule[..n]);
      RunRr(quantum, w, clock, schedule[..n]);
      SimulateScheduler(quantum, s);
      SimulateWakeupStep(quantum, s);
      ExecAppend(Fcfs, start, Matched(quantum, w, clock, schedule[..n]), Moves(quantum, s, schedule[n]));
    }
  }
}
