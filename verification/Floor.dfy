// What SRTF keeps on every workload: a process's remaining time may fall below zero, but never
// below minus the CPU bursts finished so far, and a queued key is stale only after the last burst.
module Floor {
  import opened Workload
  import opened QueueSpec
  import opened Protocol
  import opened Safety
  import opened Srtf

  function Spent(p: Proc): int {
    if p.cpuIndex <= |p.line.cpu| then Sum(p.line.cpu[..p.cpuIndex]) else 0
  }

  /** The lengths of all CPU bursts finished so far. */
  function AllSpent(ps: seq<Proc>): int {
    if ps == [] then 0 else AllSpent(ps[..|ps| - 1]) + Spent(ps[|ps| - 1])
  }

  predicate AllPositive(cpu: seq<int>) {
    forall k | 0 <= k < |cpu| :: cpu[k] >= 1
  }

  /** Off the CPU. The key is the remaining time until the last CPU burst is done; after it the key
      stays behind, above the remaining time. */
  predicate Rests(floor: int, resume: bool, p: Proc) {
    && p.remaining >= floor && (resume ==> p.remaining >= 0)
    && (p.cpuIndex < |p.line.cpu| ==>
          p.priority == p.remaining && (resume && AllPositive(p.line.cpu) ==> p.remaining >= 1))
    && (p.cpuIndex >= |p.line.cpu| >= 1 && AllPositive(p.line.cpu) ==> p.priority > p.remaining)
  }

  /** In the tick loop, time ticks after a dispatch with p.remaining + time left. */
  predicate Spins(floor: int, resume: bool, p: Proc, time: int, procTime: int) {
    && p.cpuIndex < |p.line.cpu| && 0 <= time && (time <= procTime || time == 0)
    && p.remaining + time >= floor && p.priority == p.remaining + time
    && procTime == (if resume then p.remaining + time else p.line.cpu[p.cpuIndex])
    && (resume ==> procTime >= 0 && (AllPositive(p.line.cpu) ==> procTime >= 1))
  }

  predicate Cuttable(floor: int, resume: bool, p: Proc) {
    p.cpuIndex < |p.line.cpu| && p.remaining >= floor && (resume ==> p.remaining >= 1)
  }

  predicate OnCourse(floor: int, resume: bool, s: State) {
    && (s.spc.STick? || s.spc.STest? ==> Spins(floor, resume, At(s, s.spc.pid), s.spc.time, s.spc.procTime))
    && (s.spc.SSwapEnd? ==> Cuttable(floor, resume, At(s, s.spc.pid)))
  }

  predicate AllRest(floor: int, resume: bool, s: State) {
    forall q | 0 <= q < |s.procs| && OnLoop(s.spc) != [q] :: Rests(floor, resume, s.procs[q])
  }

  predicate AllNonNegative(ps: seq<Proc>) {
    forall q | 0 <= q < |ps| :: NonNegative(ps[q].line.cpu)
  }

  predicate FloorInv(resume: bool, s: State) {
    var floor := -AllSpent(s.procs);
    AllNonNegative(s.procs) && AllRest(floor, resume, s) && OnCourse(floor, resume, s) && Keys(s)
  }

  // ----- The floor -----

  lemma {:induction false} AllSpentUpdate(ps: seq<Proc>, k: nat, p: Proc)
    requires k < |ps|
    ensures AllSpent(ps[k := p]) == AllSpent(ps) - Spent(ps[k]) + Spent(p)
  {
    var n := |ps| - 1;
    if k == n {
      assert ps[k := p][..n] == ps[..n];
    } else {
      assert ps[k := p][..n] == ps[..n][k := p];
      AllSpentUpdate(ps[..n], k, p);
    }
  }

  lemma {:induction false} AllSpentSame(a: seq<Proc>, b: seq<Proc>)
    requires SameBursts(a, b)
    ensures AllSpent(a) == AllSpent(b)
  {
    if a != [] {
      AllSpentSame(a[..|a| - 1], b[..|b| - 1]);
    }
  }

  lemma SpentPositive(p: Proc)
    requires NonNegative(p.line.cpu)
    ensures Spent(p) >= 0
    ensures Spent(p) + (if p.cpuIndex < |p.line.cpu| then p.line.cpu[p.cpuIndex] else 0) <= Sum(p.line.cpu)
  {
    if p.cpuIndex <= |p.line.cpu| {
      SumNonNegative(p.line.cpu[..p.cpuIndex]);
      SumTail(p.line.cpu, p.cpuIndex);
    } else {
      SumNonNegative(p.line.cpu);
    }
  }

  lemma {:induction false} SumTail(s: seq<int>, k: nat)
    requires k <= |s| && NonNegative(s)
    ensures Sum(s[..k]) + (if k < |s| then s[k] else 0) <= Sum(s)
  {
    if k == |s| {
      assert s[..k] == s;
    } else if k + 1 == |s| {
      assert s[..k] == s[..|s| - 1];
    } else {
      var n := |s| - 1;
      SumTail(s[..n], k);
      assert s[..n][..k] == s[..k];
    }
  }

  /** The debt no process can exceed: all CPU bursts of the workload. */
  function AllBursts(ps: seq<Proc>): int {
    if ps == [] then 0 else AllBursts(ps[..|ps| - 1]) + Sum(ps[|ps| - 1].line.cpu)
  }

  lemma {:induction false} SpentWithinBursts(ps: seq<Proc>, k: nat)
    requires AllNonNegative(ps)
    ensures 0 <= AllSpent(ps) <= AllBursts(ps)
    ensures k < |ps| && ps[k].cpuIndex < |ps[k].line.cpu| ==>
              AllSpent(ps) + ps[k].line.cpu[ps[k].cpuIndex] <= AllBursts(ps)
  {
    if ps != [] {
      var n := |ps| - 1;
      SpentWithinBursts(ps[..n], k);
      SpentPositive(ps[n]);
      if k < n {
        assert ps[..n][k] == ps[k];
      }
      if ps[n].cpuIndex < |ps[n].line.cpu| {
        assert ps[n].line.cpu[ps[n].cpuIndex] >= 0;
      }
    }
  }

  lemma SpentByCharge(resume: bool, s: State)
    requires Charging(s.spc) && Pointers(s) && SchedulerStage(s) && AllNonNegative(s.procs)
    ensures var t, p := ChargeBurst(Srtf(resume), s), At(s, s.spc.pid);
            && p.cpuIndex < |p.line.cpu|
            && AllSpent(t.procs) == AllSpent(s.procs) + (if t.spc.SPut? then p.line.cpu[p.cpuIndex] else 0)
  {
    var t, pid := ChargeBurst(Srtf(resume), s), s.spc.pid;
    hide InRange, HeadIsShorter;
    var p, q := s.procs[pid], At(t, pid);
    assert t.procs == s.procs[pid := q];
    AllSpentUpdate(s.procs, pid, q);
    SumPrefix(p.line.cpu, p.cpuIndex);
    hide AllSpent;
  }

  // ----- The charging steps -----

  lemma CourseCharge(resume: bool, s: State, floor: int)
    requires Pointers(s) && Charging(s.spc) && PcFits(Srtf(resume), s) && SchedulerStage(s) && floor <= 0
    requires NonNegative(At(s, s.spc.pid).line.cpu)
    requires s.spc.SStart? ==> Rests(floor, resume, At(s, s.spc.pid))
    requires OnCourse(floor, resume, s)
    requires s.spc.STest? && HeadIsShorter(s, s.spc.pid) ==> Cuttable(floor, resume, At(s, s.spc.pid))
    ensures var t, p := ChargeBurst(Srtf(resume), s), At(s, s.spc.pid);
            && p.cpuIndex < |p.line.cpu|
            && var low := floor - (if t.spc.SPut? then p.line.cpu[p.cpuIndex] else 0);
               && low <= floor
               && OnCourse(low, resume, t) && (OnLoop(t.spc) != [s.spc.pid] ==> Rests(low, resume, At(t, s.spc.pid)))
  {
    hide InRange, HeadIsShorter;
  }

  /** A lower floor is easier to stay above. */
  lemma Lower(floor: int, low: int, resume: bool, s: State, t: State, pid: nat)
    requires low <= floor && AllRest(floor, resume, s) && OnlyChanges(s.procs, t.procs, pid)
    requires OnLoop(t.spc) == [] || OnLoop(t.spc) == [pid]
    requires OnLoop(s.spc) == [] || OnLoop(s.spc) == [pid]
    requires OnLoop(t.spc) != [pid] && pid < |t.procs| ==> Rests(low, resume, t.procs[pid])
    ensures AllRest(low, resume, t)
  {
    hide OnLoop, AllPositive;
  }

  /** Whoever beats the running process is itself above the floor. */
  lemma HeadAboveFloor(resume: bool, s: State, floor: int)
    requires Pointers(s) && OnePlace(s) && AllRest(floor, resume, s) && OnCourse(floor, resume, s)
    requires s.spc.STest? && HeadIsShorter(s, s.spc.pid)
    ensures Cuttable(floor, resume, At(s, s.spc.pid))
  {
    hide OnePlace, AllPositive;
    OnlyInHand(s, s.spc.pid);
    assert Rests(floor, resume, s.procs[s.ready[0].pid]);
  }

  lemma FloorCharge(resume: bool, s: State)
    requires Inv(Srtf(resume), s) && FloorInv(resume, s) && Charging(s.spc)
    ensures FloorInv(resume, ChargeBurst(Srtf(resume), s))
  {
    hide OnePlace, Counter, Tokens, PcFits, SchedulerStage, WakeupStage, QueuesOk, ProcsOk, Sorted, ChargeBurst, Rests,
         OnCourse, Keys, OnlyChanges, AllSpent, Cuttable, HeadIsShorter, NonNegative, AllPositive;
    var t, pid := ChargeBurst(Srtf(resume), s), s.spc.pid;
    var floor := -AllSpent(s.procs);
    SpentWithinBursts(s.procs, pid);
    ChargeChanges(Srtf(resume), s);
    LinesCharge(Srtf(resume), s);
    LoopCharge(resume, s);
    if s.spc.STest? && HeadIsShorter(s, pid) {
      HeadAboveFloor(resume, s, floor);
    }
    CourseCharge(resume, s, floor);
    SpentByCharge(resume, s);
    Lower(floor, -AllSpent(t.procs), resume, s, t, pid);
    KeysApart(s, t, pid);
    forall q | 0 <= q < |t.procs| ensures NonNegative(t.procs[q].line.cpu) {
      assert t.procs[q].line == s.procs[q].line;
    }
  }

  // ----- The other steps -----

  lemma RestsSame(floor: int, resume: bool, p: Proc, q: Proc)
    requires SameBurst(p, q) && Rests(floor, resume, p)
    ensures Rests(floor, resume, q)
  {
  }

  lemma FloorSame(resume: bool, s: State, t: State)
    requires FloorInv(resume, s) && SameBursts(s.procs, t.procs) && Keys(t)
    requires t.spc == s.spc || (OnLoop(s.spc) == [] && OnLoop(t.spc) == [])
    ensures FloorInv(resume, t)
  {
    hide Rests, Keys, AllPositive, NonNegative, SameBurst;
    AllSpentSame(s.procs, t.procs);
    var floor := -AllSpent(s.procs);
    hide AllSpent;
    forall q | 0 <= q < |t.procs| && OnLoop(t.spc) != [q] ensures Rests(floor, resume, t.procs[q]) {
      assert Rests(floor, resume, s.procs[q]);
      RestsSame(floor, resume, s.procs[q], t.procs[q]);
    }
    forall q | 0 <= q < |t.procs| ensures NonNegative(t.procs[q].line.cpu) {
      SameLine(s.procs[q], t.procs[q]);
    }
    CourseSame(floor, resume, s, t);
  }

  lemma SameLine(p: Proc, q: Proc)
    requires SameBurst(p, q)
    ensures p.line == q.line
  {
  }

  lemma CourseSame(floor: int, resume: bool, s: State, t: State)
    requires OnCourse(floor, resume, s) && SameBursts(s.procs, t.procs)
    requires t.spc == s.spc || (OnLoop(s.spc) == [] && OnLoop(t.spc) == [])
    ensures OnCourse(floor, resume, t)
  {
    if OnLoop(s.spc) != [] && s.spc.pid < |s.procs| {
      assert SameBurst(s.procs[s.spc.pid], t.procs[s.spc.pid]);
    }
  }

  lemma FloorHandOver(resume: bool, s: State)
    requires Inv(Srtf(resume), s) && FloorInv(resume, s) && !Charging(s.spc) && !Polling(s.spc)
    ensures FloorInv(resume, HandOver(Srtf(resume), s))
  {
    hide OnePlace, Counter, PcFits, SchedulerStage, WakeupStage, QueuesOk, ProcsOk, HandOver, FloorInv, SameBursts,
         Keys;
    BurstsHandOver(Srtf(resume), s);
    LoopHandOver(resume, s);
    assert Keys(s) by { FloorKeys(resume, s); }
    KeysHandOver(resume, s);
    FloorSame(resume, s, HandOver(Srtf(resume), s));
  }

  lemma FloorKeys(resume: bool, s: State)
    requires FloorInv(resume, s)
    ensures Keys(s)
  {
  }

  lemma FloorWakeup(resume: bool, s: State)
    requires FloorInv(resume, s)
    ensures FloorInv(resume, WakeupStep(Srtf(resume), s))
  {
    var t := WakeupStep(Srtf(resume), s);
    hide WakeupStep, FloorInv, SameBursts, Keys, Insert;
    BurstsWakeup(Srtf(resume), s);
    WakeupQuiet(Srtf(resume), s);
    FloorKeys(resume, s);
    if s.wpc.WPut? {
      KeysInsert(s, t, s.wpc.pid);
    } else {
      KeysSame(s, t);
    }
    FloorSame(resume, s, t);
  }

  lemma FloorPoll(resume: bool, s: State)
    requires FloorInv(resume, s) && Polling(s.spc)
    ensures FloorInv(resume, Poll(s))
  {
    hide FloorInv, Keys;
    assert Keys(s) by { FloorKeys(resume, s); }
    PollSame(s);
    FloorSame(resume, s, Poll(s));
  }

  lemma PollSame(s: State)
    requires Polling(s.spc) && Keys(s)
    ensures var t := Poll(s); Keys(t) && SameBursts(s.procs, t.procs) && OnLoop(s.spc) == [] && OnLoop(t.spc) == []
  {
    hide Sorted;
  }

  lemma FloorInit(resume: bool, w: seq<Line>, clock: int)
    requires Admissible(Srtf(resume), w)
    ensures FloorInv(resume, Init(Srtf(resume), w, clock))
  {
    var s := Init(Srtf(resume), w, clock);
    ArrivedKeys(Srtf(resume), s.procs, |s.procs|);
    hide Arrived, Sorted;
    forall i | 0 <= i < |s.ready| ensures s.ready[i].key == At(s, s.ready[i].pid).priority {
      assert s.ready[i] in s.ready;
    }
    assert AllNonNegative(s.procs);
    SpentWithinBursts(s.procs, 0);
  }

  /** In every SRTF run of every workload no remaining time falls below minus the bursts finished so far. */
  lemma {:induction false} RunFloor(resume: bool, w: seq<Line>, clock: int, schedule: seq<Thread>)
    requires Admissible(Srtf(resume), w)
    ensures FloorInv(resume, Run(Srtf(resume), w, clock, schedule))
    decreases |schedule|
  {
    var pol := Srtf(resume);
    hide Poll, ChargeBurst, HandOver, WakeupStep, FloorInv, Inv;
    if schedule == [] {
      FloorInit(resume, w, clock);
    } else {
      var n := |schedule| - 1;
      var s := Run(pol, w, clock, schedule[..n]);
      RunFloor(resume, w, clock, schedule[..n]);
      RunInv(pol, w, clock, schedule[..n]);
      if schedule[n] == WakeupThread {
        FloorWakeup(resume, s);
      } else if Polling(s.spc) {
        FloorPoll(resume, s);
      } else if Charging(s.spc) {
        FloorCharge(resume, s);
      } else {
        FloorHandOver(resume, s);
      }
    }
  }
}
