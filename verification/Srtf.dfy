// Shortest remaining time first: key agreement, swaps and nesting depth.
// Workloads end every line in a CPU burst and every CPU burst is at least one tick.
module Srtf {
  import opened Workload
  import opened QueueSpec
  import opened Protocol
  import opened Safety

  predicate CpuEnded(l: Line) {
    |l.cpu| == |l.io| + 1 && forall k | 0 <= k < |l.cpu| :: l.cpu[k] >= 1
  }

  predicate AllCpuEnded(ps: seq<Proc>) {
    forall i | 0 <= i < |ps| :: CpuEnded(ps[i].line)
  }

  /** The current burst when rem of it was left at the last dispatch or preemption. */
  predicate Owes(p: Proc, rem: int) {
    p.cpuIndex < |p.line.cpu| &&
    var b := p.line.cpu[p.cpuIndex];
    rem <= b - p.h.burst.preemptions && rem == if p.h.burst.preemptions == 0 then b else p.h.burst.lastRemaining
  }

  /** And it can still be run for a tick, after a preemption for two. */
  predicate Left(p: Proc, rem: int) {
    Owes(p, rem) && rem >= 1 && (p.h.burst.preemptions > 0 ==> rem >= 2)
  }

  /** Off the CPU: key and remaining time agree. */
  predicate AtRest(p: Proc) {
    p.cpuIndex < |p.line.cpu| ==> Left(p, p.remaining) && p.priority == p.remaining
  }

  /** In the tick loop, time ticks after a dispatch with p.remaining + time left. */
  predicate Looping(resume: bool, p: Proc, time: int, procTime: int) {
    && Left(p, p.remaining + time) && 0 <= time <= procTime
    && procTime == (if resume then p.remaining + time else p.line.cpu[p.cpuIndex])
  }

  /** About to be preempted. */
  predicate Beaten(p: Proc) {
    p.cpuIndex < |p.line.cpu| && 2 <= p.remaining <= p.line.cpu[p.cpuIndex] - p.h.burst.preemptions - 1
  }

  function OnLoop(pc: SPc): seq<nat> {
    if pc.STick? || pc.STest? || pc.SSwapEnd? then [pc.pid] else []
  }

  /** Whoever is preempted has at least two ticks left. */
  predicate CutAboveOne(c: Charge) {
    c.preemptions > 0 ==> c.lastRemaining >= 2
  }

  predicate DoneOk(p: Proc) {
    forall k | 0 <= k < |p.h.done| :: CutAboveOne(p.h.done[k])
  }

  predicate Resting(s: State) {
    forall q | 0 <= q < |s.procs| && OnLoop(s.spc) != [q] :: AtRest(s.procs[q])
  }

  predicate Done(s: State) {
    forall q | 0 <= q < |s.procs| :: DoneOk(s.procs[q])
  }

  predicate MidBurst(resume: bool, s: State) {
    && (s.spc.STick? ==> Looping(resume, At(s, s.spc.pid), s.spc.time, s.spc.procTime))
    && (s.spc.STest? ==> Looping(resume, At(s, s.spc.pid), s.spc.time, s.spc.procTime) && s.spc.time >= 1)
    && (s.spc.SSwapEnd? ==> Beaten(At(s, s.spc.pid)))
    && (s.spc.SSwapPut? || s.spc.SSwapDeq? ==> At(s, s.spc.pid).cpuIndex < |At(s, s.spc.pid).line.cpu|)
  }

  /** Every node in the ready queue carries its process's current key, in order. */
  predicate Keys(s: State) {
    && Sorted(s.ready)
    && forall i | 0 <= i < |s.ready| :: s.ready[i].key == At(s, s.ready[i].pid).priority
  }

  /** Between a successful test and the dequeue of the swap the head stays shorter. */
  predicate Shorter(s: State) {
    s.spc.SSwapEnd? || s.spc.SSwapPut? || s.spc.SSwapDeq? ==>
      s.ready != [] && s.ready[0].key < At(s, s.spc.pid).remaining
  }

  /** Each nested call starts at least two ticks below the one that made it. */
  predicate Nesting(s: State) {
    match s.spc
    case SStart(p) => 2 * s.depth + At(s, p).remaining <= s.entry
    case STick(p, time, _) => 2 * s.depth + At(s, p).remaining + time <= s.entry
    case STest(p, time, _) => 2 * s.depth + At(s, p).remaining + time <= s.entry
    case SSwapEnd(p) => 2 * s.depth + At(s, p).remaining + 1 <= s.entry
    case SSwapPut(p) => 2 * s.depth + At(s, p).remaining + 1 <= s.entry
    case SSwapDeq(p) => 2 * s.depth + At(s, p).remaining + 1 <= s.entry
    case STermAdd(_) => true
    case STermWrite(_) => true
    case _ => s.depth > 0 ==> 2 * s.depth + 1 <= s.entry
  }

  predicate Idle(pc: SPc) {
    Polling(pc) || pc.SDeq? || pc.SExit?
  }

  ghost predicate SrtfInv(resume: bool, s: State) {
    && AllCpuEnded(s.procs) && Resting(s) && Done(s) && MidBurst(resume, s)
    && Keys(s) && Shorter(s) && Nesting(s) && (Idle(s.spc) ==> s.depth == 0)
  }

  // ----- The charging steps -----

  /** A ready process of a CPU-ended line always has a burst to run. */
  lemma HasBurst(p: Proc)
    requires ProcOk(p) && OnCpu(p) && CpuEnded(p.line)
    ensures p.cpuIndex < |p.line.cpu| && !ShouldTerminate(p)
  {
  }

  lemma RunningCharge(resume: bool, s: State)
    requires Pointers(s) && Charging(s.spc) && PcFits(Srtf(resume), s) && SchedulerStage(s)
    requires CpuEnded(At(s, s.spc.pid).line)
    requires s.spc.SStart? ==> AtRest(At(s, s.spc.pid))
    requires MidBurst(resume, s)
    requires s.spc.STest? && HeadIsShorter(s, s.spc.pid) ==> At(s, s.spc.pid).remaining >= 2
    ensures var t := ChargeBurst(Srtf(resume), s);
            && MidBurst(resume, t) && (OnLoop(t.spc) != [s.spc.pid] ==> AtRest(At(t, s.spc.pid)))
  {
    hide InRange, HeadIsShorter;
  }

  lemma DoneCharge(resume: bool, s: State)
    requires Pointers(s) && Charging(s.spc) && PcFits(Srtf(resume), s) && SchedulerStage(s)
    requires MidBurst(resume, s) && DoneOk(At(s, s.spc.pid))
    ensures DoneOk(At(ChargeBurst(Srtf(resume), s), s.spc.pid))
  {
    hide InRange, HeadIsShorter;
  }

  lemma NestingCharge(resume: bool, s: State)
    requires Pointers(s) && Charging(s.spc) && PcFits(Srtf(resume), s) && SchedulerStage(s)
    requires MidBurst(resume, s) && Nesting(s)
    ensures Nesting(ChargeBurst(Srtf(resume), s)) && !Idle(ChargeBurst(Srtf(resume), s).spc)
  {
    hide InRange, HeadIsShorter;
  }

  /** The preemption test reads exactly whether some ready process has less left to run. */
  lemma HeadTest(s: State, pid: nat)
    requires Keys(s)
    requires forall i | 0 <= i < |s.ready| :: At(s, s.ready[i].pid).priority == At(s, s.ready[i].pid).remaining
    ensures HeadIsShorter(s, pid) <==>
            exists i :: 0 <= i < |s.ready| && At(s, s.ready[i].pid).remaining < At(s, pid).remaining
  {
    if s.ready != [] {
      assert At(s, s.ready[0].pid).remaining == s.ready[0].key;
    }
    forall i | 0 <= i < |s.ready| && At(s, s.ready[i].pid).remaining < At(s, pid).remaining
      ensures HeadIsShorter(s, pid)
    {
      assert s.ready[0].key <= s.ready[i].key;
    }
  }

  /** Every process in the ready queue is at rest with a burst to run. */
  lemma ReadyAtRest(s: State, i: nat)
    requires Pointers(s) && OnePlace(s) && QueuesOk(s) && ProcsOk(s.procs) && AllCpuEnded(s.procs) && Resting(s)
    requires i < |s.ready|
    ensures var p := At(s, s.ready[i].pid);
            && AtRest(p) && p.cpuIndex < |p.line.cpu| && p.priority == p.remaining >= 1
            && OnLoop(s.spc) != [s.ready[i].pid] && !ShouldTerminate(p)
  {
    hide OnePlace, ShouldTerminate, Left;
    if HandBefore(s.spc) != [] {
      OnlyInHand(s, s.spc.pid);
    }
    HasBurst(At(s, s.ready[i].pid));
    RestLeft(At(s, s.ready[i].pid));
  }

  lemma RestLeft(p: Proc)
    requires AtRest(p) && p.cpuIndex < |p.line.cpu|
    ensures p.priority == p.remaining >= 1
  {
  }

  /** The parts that depend on the queue, when only the process in hand changes. */
  lemma KeysApart(s: State, t: State, pid: nat)
    requires OnePlace(s) && Keys(s) && (HandBefore(s.spc) == [pid] || HandAfter(s.spc) == [pid])
    requires OnlyChanges(s.procs, t.procs, pid) && t.ready == s.ready
    ensures Keys(t)
  {
    hide OnePlace;
    OnlyInHand(s, pid);
  }

  lemma HeadKey(s: State)
    requires Keys(s) && s.ready != [] && SPid(s.spc) != []
    ensures s.ready[0].key == At(s, s.ready[0].pid).priority
    ensures HeadIsShorter(s, s.spc.pid) <==> At(s, s.ready[0].pid).remaining < At(s, s.spc.pid).remaining
  {
  }

  lemma ShorterCharge(resume: bool, s: State)
    requires Pointers(s) && Charging(s.spc) && PcFits(Srtf(resume), s) && Shorter(s)
    requires s.ready != [] ==> s.ready[0].key == At(s, s.ready[0].pid).remaining
    ensures Shorter(ChargeBurst(Srtf(resume), s))
  {
    hide InRange;
  }

  lemma RestingCharge(resume: bool, s: State)
    requires Charging(s.spc) && Pointers(s) && Resting(s) && Done(s)
    requires OnlyChanges(s.procs, ChargeBurst(Srtf(resume), s).procs, s.spc.pid)
    requires var t := ChargeBurst(Srtf(resume), s);
             && (OnLoop(t.spc) == [] || OnLoop(t.spc) == [s.spc.pid])
             && (OnLoop(t.spc) != [s.spc.pid] ==> AtRest(At(t, s.spc.pid)))
             && DoneOk(At(t, s.spc.pid))
    ensures Resting(ChargeBurst(Srtf(resume), s)) && Done(ChargeBurst(Srtf(resume), s))
  {
    hide ChargeBurst, AtRest, DoneOk;
  }

  lemma LoopCharge(resume: bool, s: State)
    requires Charging(s.spc) && PcFits(Srtf(resume), s)
    ensures var t := ChargeBurst(Srtf(resume), s); OnLoop(t.spc) == [] || OnLoop(t.spc) == [s.spc.pid]
  {
    hide HeadIsShorter, At;
  }

  lemma SrtfCharge(resume: bool, s: State)
    requires Inv(Srtf(resume), s) && SrtfInv(resume, s) && Charging(s.spc)
    ensures SrtfInv(resume, ChargeBurst(Srtf(resume), s))
  {
    hide OnePlace, Counter, Tokens, PcFits, SchedulerStage, WakeupStage, QueuesOk, Sorted, ChargeBurst, ProcsOk,
         AtRest, DoneOk, MidBurst, Keys, Shorter, Nesting, OnlyChanges, CpuEnded;
    var t := ChargeBurst(Srtf(resume), s);
    if s.ready != [] {
      ReadyAtRest(s, 0);
      HeadKey(s);
    }
    ChargeChanges(Srtf(resume), s);
    LinesCharge(Srtf(resume), s);
    LoopCharge(resume, s);
    RunningCharge(resume, s);
    DoneCharge(resume, s);
    NestingCharge(resume, s);
    RestingCharge(resume, s);
    KeysApart(s, t, s.spc.pid);
    ShorterCharge(resume, s);
  }

  // ----- The other scheduler steps -----

  lemma BurstsKeep(resume: bool, s: State, t: State)
    requires SameBursts(s.procs, t.procs) && OnLoop(t.spc) == OnLoop(s.spc)
    ensures AllCpuEnded(s.procs) ==> AllCpuEnded(t.procs)
    ensures Resting(s) ==> Resting(t)
    ensures Done(s) ==> Done(t)
  {
    hide CpuEnded;
    if Resting(s) {
      forall q | 0 <= q < |t.procs| && OnLoop(t.spc) != [q] ensures AtRest(t.procs[q]) {
        assert AtRest(s.procs[q]) && SameBurst(s.procs[q], t.procs[q]);
      }
    }
    if Done(s) {
      forall q | 0 <= q < |t.procs| ensures DoneOk(t.procs[q]) {
        assert DoneOk(s.procs[q]) && SameBurst(s.procs[q], t.procs[q]);
      }
    }
  }

  lemma RunningSame(resume: bool, s: State, t: State)
    requires SameBursts(s.procs, t.procs) && t.spc == s.spc && MidBurst(resume, s)
    ensures MidBurst(resume, t)
  {
    if SPid(s.spc) != [] && s.spc.pid < |s.procs| {
      assert t.procs[s.spc.pid].line == s.procs[s.spc.pid].line;
    }
  }

  lemma KeysSame(s: State, t: State)
    requires Keys(s) && SameBursts(s.procs, t.procs)
    requires t.ready == s.ready || (s.ready != [] && t.ready == s.ready[1..])
    ensures Keys(t)
  {
  }

  lemma KeysInsert(s: State, t: State, pid: nat)
    requires Keys(s) && SameBursts(s.procs, t.procs)
    requires t.ready == Insert(s.ready, Node(pid, At(s, pid).priority))
    ensures Keys(t)
  {
    InsertKeepsSorted(s.ready, Node(pid, At(s, pid).priority));
    InsertMembers(s.ready, Node(pid, At(s, pid).priority));
    forall i | 0 <= i < |t.ready| ensures t.ready[i].key == At(t, t.ready[i].pid).priority {
      assert t.ready[i] in t.ready;
    }
  }

  lemma KeysHandOver(resume: bool, s: State)
    requires Keys(s) && PcFits(Srtf(resume), s) && SameBursts(s.procs, HandOver(Srtf(resume), s).procs)
    requires !Polling(s.spc) && !Charging(s.spc) && (s.spc.SDeq? || s.spc.SSwapDeq? ==> s.ready != [])
    ensures Keys(HandOver(Srtf(resume), s))
  {
    hide ShouldTerminate, Insert, Keys, SameBursts;
    var t := HandOver(Srtf(resume), s);
    if s.spc.SSwapPut? {
      KeysInsert(s, t, s.spc.pid);
    } else {
      KeysSame(s, t);
    }
  }

  /** No CPU-ended process terminates in the scheduler's hand. */
  lemma NoTermination(resume: bool, s: State)
    requires Pointers(s) && SchedulerStage(s) && ProcsOk(s.procs) && AllCpuEnded(s.procs)
    ensures !s.spc.STermAdd? && !s.spc.STermWrite?
  {
    if s.spc.STermAdd? || s.spc.STermWrite? {
      HasBurst(At(s, s.spc.pid));
    }
  }

  lemma LoopHandOver(resume: bool, s: State)
    requires !Polling(s.spc) && !Charging(s.spc) && PcFits(Srtf(resume), s)
    ensures OnLoop(HandOver(Srtf(resume), s).spc) == []
  {
    hide ShouldTerminate, Enqueue, At, Replace;
  }

  lemma RunningHandOver(resume: bool, s: State)
    requires !Polling(s.spc) && !Charging(s.spc) && PcFits(Srtf(resume), s) && MidBurst(resume, s)
    requires s.spc.SDeq? || s.spc.SSwapDeq? ==> s.ready != []
    ensures MidBurst(resume, HandOver(Srtf(resume), s))
  {
    hide ShouldTerminate, Enqueue;
  }

  lemma ShorterHandOver(resume: bool, s: State)
    requires !Polling(s.spc) && !Charging(s.spc) && PcFits(Srtf(resume), s) && Shorter(s)
    ensures Shorter(HandOver(Srtf(resume), s))
  {
    hide ShouldTerminate, Slot;
    if s.spc.SSwapPut? {
      InsertFront(s.ready, Node(s.spc.pid, At(s, s.spc.pid).priority));
    }
  }

  lemma NestingHandOver(resume: bool, s: State)
    requires Pointers(s) && !Polling(s.spc) && !Charging(s.spc) && PcFits(Srtf(resume), s) && Nesting(s) && Shorter(s)
    requires (s.spc.SDeq? ==> s.depth == 0 && s.ready != [])
    requires s.spc.SDeq? || s.spc.SSwapDeq? ==>
               s.ready != [] && s.ready[0].key == At(s, s.ready[0].pid).remaining
               && OnCpu(At(s, s.ready[0].pid)) && ProcOk(At(s, s.ready[0].pid))
               && !ShouldTerminate(At(s, s.ready[0].pid))
    requires s.spc.SExit? ==> s.depth == 0
    ensures var t := HandOver(Srtf(resume), s); Nesting(t) && (Idle(t.spc) ==> t.depth == 0)
  {
    hide Enqueue, Alternating, InRange;
  }

  lemma SrtfHandOver(resume: bool, s: State)
    requires Inv(Srtf(resume), s) && SrtfInv(resume, s) && !Charging(s.spc) && !Polling(s.spc)
    ensures SrtfInv(resume, HandOver(Srtf(resume), s))
  {
    var pol, t := Srtf(resume), HandOver(Srtf(resume), s);
    hide OnePlace, Counter, PcFits, SchedulerStage, WakeupStage, Sorted, HandOver, ProcOk, ShouldTerminate,
         AtRest, DoneOk, MidBurst, Shorter, Nesting, SameBursts, CpuEnded, Resting, Done, AllCpuEnded;
    if s.spc.SDeq? || s.spc.SSwapDeq? {
      ReadyAtRest(s, 0);
    }
    BurstsHandOver(pol, s);
    LoopHandOver(resume, s);
    BurstsKeep(resume, s, t);
    RunningHandOver(resume, s);
    KeysHandOver(resume, s);
    ShorterHandOver(resume, s);
    NestingHandOver(resume, s);
  }

  lemma SrtfPoll(resume: bool, s: State)
    requires SrtfInv(resume, s) && Polling(s.spc)
    ensures SrtfInv(resume, Poll(s))
  {
    hide AtRest, DoneOk, Sorted, CpuEnded;
  }

  lemma WakeupQuiet(pol: Policy, s: State)
    ensures var t := WakeupStep(pol, s);
            && t.spc == s.spc && t.depth == s.depth && t.entry == s.entry
            && (s.wpc.WPut? ==> t.ready == Enqueue(pol, s.ready, s.wpc.pid, At(s, s.wpc.pid).priority))
            && (!s.wpc.WPut? ==> t.ready == s.ready)
  {
    hide ShouldTerminate, Enqueue, At, Replace;
  }

  lemma ShorterSame(s: State, t: State)
    requires Shorter(s) && SameBursts(s.procs, t.procs) && t.spc == s.spc && t.ready == s.ready
    ensures Shorter(t)
  {
  }

  lemma ShorterInsert(s: State, t: State, x: Node)
    requires Shorter(s) && SameBursts(s.procs, t.procs) && t.spc == s.spc && t.ready == Insert(s.ready, x)
    ensures Shorter(t)
  {
    hide Insert;
    if s.ready != [] {
      InsertFront(s.ready, x);
    }
  }

  lemma NestingSame(s: State, t: State)
    requires Nesting(s) && SameBursts(s.procs, t.procs) && t.spc == s.spc && t.depth == s.depth && t.entry == s.entry
    ensures Nesting(t)
  {
    if SPid(s.spc) != [] && s.spc.pid < |s.procs| {
      assert SameBurst(s.procs[s.spc.pid], t.procs[s.spc.pid]);
    }
  }

  lemma SrtfWakeup(resume: bool, s: State)
    requires SrtfInv(resume, s)
    ensures SrtfInv(resume, WakeupStep(Srtf(resume), s))
  {
    var pol, t := Srtf(resume), WakeupStep(Srtf(resume), s);
    hide WakeupStep, AtRest, DoneOk, MidBurst, Shorter, Nesting, SameBursts, CpuEnded, Resting, Done, AllCpuEnded, Keys,
         Insert;
    BurstsWakeup(pol, s);
    WakeupQuiet(pol, s);
    BurstsKeep(resume, s, t);
    RunningSame(resume, s, t);
    NestingSame(s, t);
    if s.wpc.WPut? {
      KeysInsert(s, t, s.wpc.pid);
      ShorterInsert(s, t, Node(s.wpc.pid, At(s, s.wpc.pid).priority));
    } else {
      KeysSame(s, t);
      ShorterSame(s, t);
    }
  }

  lemma InsertsNext(pol: Policy, ps: seq<Proc>, k: nat)
    requires k < |ps| && pol.Keyed()
    ensures Arrived(pol, ps, k + 1) == Insert(Arrived(pol, ps, k), Node(k, ps[k].priority))
  {
    hide Insert;
  }

  lemma {:induction false} ArrivedKeys(pol: Policy, ps: seq<Proc>, k: nat)
    requires k <= |ps| && pol.Keyed()
    ensures Sorted(Arrived(pol, ps, k))
    ensures forall x | x in Arrived(pol, ps, k) :: x.pid < |ps| && x.key == ps[x.pid].priority
  {
    hide Arrived, Insert, Sorted, InRange;
    if k == 0 {
      InsertsFirst(pol, ps);
    } else {
      InsertsNext(pol, ps, k - 1);
      ArrivedKeys(pol, ps, k - 1);
      KeysOfNext(ps, Arrived(pol, ps, k - 1), k - 1);
    }
  }

  lemma InsertsFirst(pol: Policy, ps: seq<Proc>)
    ensures Arrived(pol, ps, 0) == [] && Sorted([])
  {
  }

  lemma KeysOfNext(ps: seq<Proc>, q: seq<Node>, k: nat)
    requires k < |ps| && Sorted(q) && forall x | x in q :: x.pid < |ps| && x.key == ps[x.pid].priority
    ensures var r := Insert(q, Node(k, ps[k].priority));
            Sorted(r) && forall x | x in r :: x.pid < |ps| && x.key == ps[x.pid].priority
  {
    hide Insert, Sorted;
    InsertKeepsSorted(q, Node(k, ps[k].priority));
    InsertMembers(q, Node(k, ps[k].priority));
  }

  predicate CpuEndedWorkload(w: seq<Line>) {
    forall i | 0 <= i < |w| :: CpuEnded(w[i])
  }

  lemma SrtfInit(resume: bool, w: seq<Line>, clock: int)
    requires Admissible(Srtf(resume), w) && CpuEndedWorkload(w)
    ensures SrtfInv(resume, Init(Srtf(resume), w, clock))
  {
    var s := Init(Srtf(resume), w, clock);
    ArrivedKeys(Srtf(resume), s.procs, |s.procs|);
    hide Arrived, Sorted;
    forall i | 0 <= i < |s.ready| ensures s.ready[i].key == At(s, s.ready[i].pid).priority {
      assert s.ready[i] in s.ready;
    }
  }

  lemma {:induction false} RunSrtf(resume: bool, w: seq<Line>, clock: int, schedule: seq<Thread>)
    requires Admissible(Srtf(resume), w) && CpuEndedWorkload(w)
    ensures SrtfInv(resume, Run(Srtf(resume), w, clock, schedule))
    decreases |schedule|
  {
    var pol := Srtf(resume);
    hide Poll, ChargeBurst, HandOver, WakeupStep, SrtfInv, OnePlace, Counter, SchedulerStage, WakeupStage, QueuesOk;
    if schedule == [] {
      SrtfInit(resume, w, clock);
    } else {
      var n := |schedule| - 1;
      var s := Run(pol, w, clock, schedule[..n]);
      RunSrtf(resume, w, clock, schedule[..n]);
      RunInv(pol, w, clock, schedule[..n]);
      if schedule[n] == WakeupThread {
        SrtfWakeup(resume, s);
      } else if Polling(s.spc) {
        SrtfPoll(resume, s);
      } else if Charging(s.spc) {
        SrtfCharge(resume, s);
      } else {
        SrtfHandOver(resume, s);
      }
    }
  }
}
