// What every step of the protocol keeps, for all four policies.
module Safety {
  import opened Workload
  import opened QueueSpec
  import opened Protocol

  function Flag(b: bool): nat { if b then 1 else 0 }

  /** The process the scheduler holds while its burst is not yet charged to the end. */
  function HandBefore(pc: SPc): seq<nat> {
    match pc
    case STermAdd(p) => [p]    case STermWrite(p) => [p]
    case SStart(p) => [p]      case SAdd(p) => [p]      case SEnd(p) => [p]
    case STick(p, _, _) => [p] case STest(p, _, _) => [p]
    case SSwapEnd(p) => [p]    case SSwapPut(p) => [p]
    case _ => []
  }

  /** The process the scheduler holds after the burst, on its way to the wait queue. */
  function HandAfter(pc: SPc): seq<nat> {
    if pc.SPut? then [pc.pid] else []
  }

  /** The processes in the queues and the two threads' hands, with multiplicity. */
  function Held(s: State): multiset<nat> {
    multiset(HandBefore(s.spc)) + multiset(Pids(s.ready)) + multiset(WPid(s.wpc))
    + multiset(Pids(s.wait)) + multiset(HandAfter(s.spc))
  }

  /** Exactly one place: a live process is in one queue or one hand, a terminated one in none. */
  ghost predicate OnePlace(s: State) {
    forall p: nat :: Held(s)[p] == Flag(p < |s.procs| && At(s, p).status != Terminated)
  }

  /** Semaphore values against queue lengths, with the operations in flight. */
  predicate Tokens(s: State) {
    && s.readyCount >= 0 && s.waitCount >= 0
    && |s.ready| == s.readyCount + Flag(s.wpc.WPost?) + Flag(s.spc.SDeq? || s.spc.SSwapDeq?)
    && |s.wait| == s.waitCount + Flag(s.spc.SPost?) + Flag(s.wpc.WDeq?)
  }

  function Dead(ps: seq<Proc>): nat {
    if ps == [] then 0 else Dead(ps[..|ps| - 1]) + Flag(ps[|ps| - 1].status == Terminated)
  }

  /** TERMINATED_PROCESS counts the terminated processes and the terminations half done. */
  predicate Counter(s: State) {
    && s.terminated == Dead(s.procs) + Flag(s.spc.STermWrite?) + Flag(s.wpc.WTermWrite?)
    && |s.ready| + |s.wait| + |HandBefore(s.spc)| + |WPid(s.wpc)| + |HandAfter(s.spc)| + Dead(s.procs)
       == |s.procs|
    && (s.spc.SDone2? || s.spc.SDone3? || s.spc.SExit? || s.wpc.WExit? ==> s.terminated >= |s.procs|)
  }

  /** The indices a status stands for; they are what keeps the burst reads in bounds. */
  predicate ProcOk(p: Proc) {
    && Alternating(p.line)
    && p.cpuIndex <= |p.line.cpu| && p.ioIndex <= |p.line.io|
    && match p.status
       case New => p.cpuIndex == 0 && p.ioIndex == 0
       case Ready => p.cpuIndex == p.ioIndex
       case Sleep => p.cpuIndex == p.ioIndex + 1
       case Terminated =>
         p.cpuIndex == |p.line.cpu| && p.ioIndex == |p.line.io| && p.turnaround == p.processTime
       case _ => false
  }

  predicate OnCpu(p: Proc) {
    p.status == New || p.status == Ready
  }

  predicate SchedulerStage(s: State)
  {
    && !s.spc.SFault?
    && (s.spc.SPut? ==> At(s, s.spc.pid).status == Sleep)
    && (s.spc.SSwapPut? ==> At(s, s.spc.pid).status == Ready)
    && (HandBefore(s.spc) != [] ==>
          var p := At(s, s.spc.pid);
          && OnCpu(p)
          && (if s.spc.STermAdd? || s.spc.STermWrite? then ShouldTerminate(p) else p.cpuIndex < |p.line.cpu|))
  }

  predicate WakeupStage(s: State)
  {
    match s.wpc
    case WTermAdd(p) => At(s, p).status == Sleep && ShouldTerminate(At(s, p))
    case WTermWrite(p) => At(s, p).status == Sleep && ShouldTerminate(At(s, p))
    case WAdd(p) => At(s, p).status == Sleep && At(s, p).ioIndex < |At(s, p).line.io|
    case WPut(p) => At(s, p).status == Ready
    case WFault => false
    case _ => true
  }

  predicate ProcsOk(ps: seq<Proc>) {
    forall p | 0 <= p < |ps| :: ProcOk(ps[p])
  }

  predicate QueuesOk(s: State)
  {
    && (forall i | 0 <= i < |s.ready| :: OnCpu(At(s, s.ready[i].pid)))
    && (forall i | 0 <= i < |s.wait| :: At(s, s.wait[i].pid).status == Sleep)
  }

  /** Which program points a policy's code has; a round-robin slice never exceeds the quantum. */
  predicate PcFits(pol: Policy, s: State) {
    && (s.spc.SAdd? || s.spc.SEnd? ==> !pol.Ticking())
    && (s.spc.STick? ==> pol.Ticking() && 0 <= s.spc.time && (pol.Rr? ==> s.spc.time <= pol.quantum))
    && (s.spc.STest? || s.spc.SSwapEnd? || s.spc.SSwapPut? || s.spc.SSwapDeq? ==> pol.Srtf?)
    && (s.spc.STest? ==> 1 <= s.spc.time)
    && (s.depth > 0 ==> pol.Srtf?)
    && !s.spc.SSwapPost?
    && (pol.Rr? ==> pol.quantum >= 0)
  }

  ghost predicate Inv(pol: Policy, s: State) {
    Pointers(s) && OnePlace(s) && Tokens(s) && Counter(s) && PcFits(pol, s)
    && ProcsOk(s.procs) && QueuesOk(s) && SchedulerStage(s) && WakeupStage(s)
  }

  // ----- Small facts -----

  /** With a CPU count of the I/O count or one more, the three-way test is a plain index test. */
  lemma TerminateOnCpu(p: Proc)
    requires ProcOk(p) && OnCpu(p)
    ensures ShouldTerminate(p) <==> p.cpuIndex == |p.line.cpu|
    ensures ShouldTerminate(p) ==> p.ioIndex == |p.line.io|
  {
  }

  lemma TerminateOnIo(p: Proc)
    requires ProcOk(p) && p.status == Sleep
    ensures ShouldTerminate(p) <==> p.ioIndex == |p.line.io|
    ensures ShouldTerminate(p) ==> p.cpuIndex == |p.line.cpu|
  {
  }

  lemma {:induction false} DeadUpdate(ps: seq<Proc>, k: nat, p: Proc)
    requires k < |ps|
    ensures Dead(ps[k := p]) == Dead(ps) - Flag(ps[k].status == Terminated) + Flag(p.status == Terminated)
  {
    var n := |ps| - 1;
    if k == n {
      assert ps[k := p][..n] == ps[..n];
    } else {
      assert ps[k := p][..n] == ps[..n][k := p];
      DeadUpdate(ps[..n], k, p);
    }
  }

  lemma {:induction false} DeadBound(ps: seq<Proc>)
    ensures Dead(ps) <= |ps|
    ensures Dead(ps) == |ps| <==> forall i | 0 <= i < |ps| :: ps[i].status == Terminated
  {
    if ps != [] {
      DeadBound(ps[..|ps| - 1]);
    }
  }

  lemma InPids(q: seq<Node>, i: nat)
    requires i < |q|
    ensures multiset(Pids(q))[q[i].pid] >= 1
  {
    assert Pids(q)[i] in multiset(Pids(q));
  }

  /** A process in the scheduler's hand is in no queue and not in the wakeup thread's hand. */
  lemma OnlyInHand(s: State, pid: nat)
    requires OnePlace(s) && (HandBefore(s.spc) == [pid] || HandAfter(s.spc) == [pid])
    ensures pid < |s.procs| && s.procs[pid].status != Terminated
    ensures forall i | 0 <= i < |s.ready| :: s.ready[i].pid != pid
    ensures forall i | 0 <= i < |s.wait| :: s.wait[i].pid != pid
    ensures WPid(s.wpc) != [pid]
  {
    assert Held(s)[pid] <= 1;
    assert multiset([pid])[pid] == 1;
    forall i | 0 <= i < |s.ready| ensures s.ready[i].pid != pid {
      InPids(s.ready, i);
    }
    forall i | 0 <= i < |s.wait| ensures s.wait[i].pid != pid {
      InPids(s.wait, i);
    }
  }

  lemma OnlyInWakeupHand(s: State, pid: nat)
    requires OnePlace(s) && WPid(s.wpc) == [pid]
    ensures pid < |s.procs| && s.procs[pid].status != Terminated
    ensures forall i | 0 <= i < |s.ready| :: s.ready[i].pid != pid
    ensures forall i | 0 <= i < |s.wait| :: s.wait[i].pid != pid
    ensures HandBefore(s.spc) != [pid] && HandAfter(s.spc) != [pid]
  {
    assert Held(s)[pid] <= 1;
    assert multiset([pid])[pid] == 1;
    forall i | 0 <= i < |s.ready| ensures s.ready[i].pid != pid {
      InPids(s.ready, i);
    }
    forall i | 0 <= i < |s.wait| ensures s.wait[i].pid != pid {
      InPids(s.wait, i);
    }
  }

  lemma EnqueuePids(pol: Policy, q: seq<Node>, pid: nat, key: int)
    ensures |Enqueue(pol, q, pid, key)| == |q| + 1
    ensures multiset(Pids(Enqueue(pol, q, pid, key))) == multiset(Pids(q)) + multiset{pid}
    ensures forall i | 0 <= i < |Enqueue(pol, q, pid, key)| ::
              Enqueue(pol, q, pid, key)[i] in q || Enqueue(pol, q, pid, key)[i].pid == pid
  {
    if pol.Keyed() {
      InsertMembers(q, Node(pid, key));
      forall i | 0 <= i < |Insert(q, Node(pid, key))|
        ensures Insert(q, Node(pid, key))[i] in q || Insert(q, Node(pid, key))[i].pid == pid
      {
        assert Insert(q, Node(pid, key))[i] in Insert(q, Node(pid, key));
      }
    } else {
      AppendMembers(q, Node(pid, 0));
    }
  }

  // ----- The two kinds of step that touch a process, in outline -----

  /** The head of the ready queue is in hand, to be run or terminated. */
  predicate Dequeues(s: State, t: State) {
    && s.ready != [] && s.ready[0].pid < |s.procs|
    && var pid := s.ready[0].pid;
       && t == s.(procs := s.procs[pid := Handled(s.procs[pid])], ready := s.ready[1..], depth := t.depth,
                  entry := t.entry, spc := t.spc)
       && t.spc == (if ShouldTerminate(s.procs[pid]) then STermAdd(pid) else SStart(pid))
  }

  lemma DequeueShape(pol: Policy, s: State)
    requires Pointers(s) && (s.spc.SDeq? || s.spc.SSwapDeq?) && s.ready != []
    requires OnCpu(At(s, s.ready[0].pid)) && (pol.Ticking() ==> ProcOk(At(s, s.ready[0].pid)))
    ensures var t := HandOver(pol, s);
            && Dequeues(s, t) && t.depth == s.depth + Flag(s.spc.SSwapDeq?)
            && t.entry == (if s.spc.SDeq? then At(s, s.ready[0].pid).remaining else s.entry)
  {
    hide ShouldTerminate, Alternating;
    HandledSame(s.procs[s.ready[0].pid]);
  }

  lemma HandledSame(p: Proc)
    ensures ShouldTerminate(Handled(p)) == ShouldTerminate(p)
  {
  }

  /** The process in hand stays there, before the burst or after it. */
  lemma ChargeShape(pol: Policy, s: State)
    requires Pointers(s) && SchedulerStage(s) && PcFits(pol, s) && Charging(s.spc)
    ensures var t := ChargeBurst(pol, s);
            && (Charging(t.spc) || t.spc.SPut? || t.spc.SSwapPut?) && t.spc.pid == s.spc.pid
            && t.terminated == s.terminated && t.depth == s.depth
            && t.readyCount == s.readyCount && t.waitCount == s.waitCount
  {
    hide HeadIsShorter, Replace, Refill, Tick, CloseBurst, Preempt, InRange;
  }

  // ----- Program points and semaphores -----

  lemma PcFitsCharge(pol: Policy, s: State)
    requires Pointers(s) && PcFits(pol, s) && Charging(s.spc)
    ensures PcFits(pol, ChargeBurst(pol, s))
  {
    hide CloseBurst, Refill, Tick, Preempt, At, Replace, HeadIsShorter, BurstIndex;
  }

  lemma PcFitsHandOver(pol: Policy, s: State)
    requires Pointers(s) && PcFits(pol, s) && !Charging(s.spc) && !Polling(s.spc)
    ensures PcFits(pol, HandOver(pol, s))
  {
    hide ShouldTerminate, Enqueue, At, Replace, Handled, Finish;
  }

  lemma SchedulerPcFits(pol: Policy, s: State)
    requires Pointers(s) && PcFits(pol, s)
    ensures PcFits(pol, SchedulerStep(pol, s))
  {
    hide ChargeBurst, HandOver;
    if Charging(s.spc) {
      PcFitsCharge(pol, s);
    } else if !Polling(s.spc) {
      PcFitsHandOver(pol, s);
    }
  }

  lemma TokensCharge(pol: Policy, s: State)
    requires Tokens(s) && PcFits(pol, s) && Charging(s.spc)
    ensures Tokens(ChargeBurst(pol, s))
  {
    hide CloseBurst, Refill, Tick, Preempt, At, Replace, HeadIsShorter, BurstIndex;
  }

  lemma TokensHandOver(pol: Policy, s: State)
    requires Tokens(s) && PcFits(pol, s) && !Charging(s.spc) && !Polling(s.spc)
    ensures Tokens(HandOver(pol, s))
  {
    hide ShouldTerminate, Slot, At, Replace, Handled, Finish;
  }

  lemma SchedulerTokens(pol: Policy, s: State)
    requires Tokens(s) && PcFits(pol, s)
    ensures Tokens(SchedulerStep(pol, s))
  {
    hide ChargeBurst, HandOver;
    if Charging(s.spc) {
      TokensCharge(pol, s);
    } else if !Polling(s.spc) {
      TokensHandOver(pol, s);
    }
  }

  lemma WakeupTokens(pol: Policy, s: State)
    requires Tokens(s)
    ensures Tokens(WakeupStep(pol, s))
  {
    hide ShouldTerminate, Slot, At, Replace, Handled, Finish, StartIo, FinishIo;
  }

  // ----- Places -----

  predicate SameLife(a: seq<Proc>, b: seq<Proc>) {
    |a| == |b| && forall i | 0 <= i < |a| :: (a[i].status == Terminated) == (b[i].status == Terminated)
  }

  lemma Moved(s: State, t: State)
    requires OnePlace(s) && SameLife(s.procs, t.procs) && Held(t) == Held(s)
    ensures OnePlace(t)
  {
    hide Held;
    forall p: nat
      ensures Held(t)[p] == Flag(p < |t.procs| && t.procs[p].status != Terminated)
    {
      assert Held(s)[p] == Flag(p < |s.procs| && At(s, p).status != Terminated);
    }
  }

  lemma Retired(s: State, t: State, pid: nat)
    requires OnePlace(s) && pid < |s.procs| && |t.procs| == |s.procs|
    requires s.procs[pid].status != Terminated && t.procs[pid].status == Terminated
    requires forall i | 0 <= i < |s.procs| && i != pid :: t.procs[i] == s.procs[i]
    requires Held(s) == Held(t) + multiset{pid}
    ensures OnePlace(t)
  {
    hide Held;
    forall p: nat
      ensures Held(t)[p] == Flag(p < |t.procs| && t.procs[p].status != Terminated)
    {
      assert Held(s)[p] == Flag(p < |s.procs| && At(s, p).status != Terminated);
    }
  }

  lemma Unmoved(s: State, t: State)
    requires OnePlace(s) && SameLife(s.procs, t.procs)
    requires t.ready == s.ready && t.wait == s.wait && WPid(t.wpc) == WPid(s.wpc)
    requires HandBefore(t.spc) + HandAfter(t.spc) == HandBefore(s.spc) + HandAfter(s.spc)
    ensures OnePlace(t)
  {
    forall p: nat ensures Held(t)[p] == Held(s)[p] {
      assert multiset(HandBefore(t.spc) + HandAfter(t.spc))[p] == multiset(HandBefore(s.spc) + HandAfter(s.spc))[p];
    }
    Moved(s, t);
  }

  lemma ReadyToHand(s: State, t: State)
    requires OnePlace(s) && SameLife(s.procs, t.procs) && s.ready != [] && t.ready == s.ready[1..]
    requires HandBefore(s.spc) == [] && HandBefore(t.spc) == [s.ready[0].pid]
    requires t.wait == s.wait && t.wpc == s.wpc && HandAfter(t.spc) == HandAfter(s.spc)
    ensures OnePlace(t)
  {
    DequeueMembers(s.ready);
    Moved(s, t);
  }

  lemma HandToReady(s: State, t: State, pid: nat)
    requires OnePlace(s) && SameLife(s.procs, t.procs)
    requires multiset(Pids(t.ready)) == multiset(Pids(s.ready)) + multiset{pid}
    requires HandBefore(s.spc) == [pid] && HandBefore(t.spc) == []
    requires t.wait == s.wait && t.wpc == s.wpc && HandAfter(t.spc) == HandAfter(s.spc)
    ensures OnePlace(t)
  {
    Moved(s, t);
  }

  lemma HandToWait(s: State, t: State, pid: nat)
    requires OnePlace(s) && SameLife(s.procs, t.procs)
    requires multiset(Pids(t.wait)) == multiset(Pids(s.wait)) + multiset{pid}
    requires HandAfter(s.spc) == [pid] && HandAfter(t.spc) == []
    requires t.ready == s.ready && t.wpc == s.wpc && HandBefore(t.spc) == HandBefore(s.spc)
    ensures OnePlace(t)
  {
    Moved(s, t);
  }

  lemma WaitToWakeup(s: State, t: State)
    requires OnePlace(s) && SameLife(s.procs, t.procs) && s.wait != [] && t.wait == s.wait[1..]
    requires WPid(s.wpc) == [] && WPid(t.wpc) == [s.wait[0].pid]
    requires t.ready == s.ready && t.spc == s.spc
    ensures OnePlace(t)
  {
    DequeueMembers(s.wait);
    Moved(s, t);
  }

  lemma WakeupToReady(s: State, t: State, pid: nat)
    requires OnePlace(s) && SameLife(s.procs, t.procs)
    requires multiset(Pids(t.ready)) == multiset(Pids(s.ready)) + multiset{pid}
    requires WPid(s.wpc) == [pid] && WPid(t.wpc) == []
    requires t.wait == s.wait && t.spc == s.spc
    ensures OnePlace(t)
  {
    Moved(s, t);
  }

  lemma SchedulerRetires(s: State, t: State, pid: nat)
    requires OnePlace(s) && Pointers(s) && s.spc == STermWrite(pid)
    requires t.procs == s.procs[pid := Finish(s.procs[pid])] && s.procs[pid].status != Terminated
    requires HandBefore(t.spc) == [] && HandAfter(t.spc) == []
    requires t.wait == s.wait && t.ready == s.ready && t.wpc == s.wpc
    ensures OnePlace(t)
  {
    Retired(s, t, pid);
  }

  lemma WakeupRetires(s: State, t: State, pid: nat)
    requires OnePlace(s) && Pointers(s) && s.wpc == WTermWrite(pid)
    requires t.procs == s.procs[pid := Finish(s.procs[pid])] && s.procs[pid].status != Terminated
    requires WPid(t.wpc) == []
    requires t.wait == s.wait && t.ready == s.ready && t.spc == s.spc
    ensures OnePlace(t)
  {
    Retired(s, t, pid);
  }

  lemma PlacePoll(s: State)
    requires OnePlace(s) && Polling(s.spc)
    ensures OnePlace(Poll(s))
  {
    hide OnePlace, Pids;
    Unmoved(s, Poll(s));
  }

  lemma PlaceCharge(pol: Policy, s: State)
    requires Pointers(s) && OnePlace(s) && SchedulerStage(s) && PcFits(pol, s) && Charging(s.spc)
    ensures OnePlace(ChargeBurst(pol, s))
  {
    hide OnePlace, ChargeBurst, SchedulerStage, PcFits, OnlyChanges, SameLife, Pointers;
    ChargeShape(pol, s);
    ChargeChanges(pol, s);
    assert SameLife(s.procs, ChargeBurst(pol, s).procs) by { LifeCharge(pol, s); }
    Unmoved(s, ChargeBurst(pol, s));
  }

  lemma PlaceDequeue(pol: Policy, s: State)
    requires Pointers(s) && OnePlace(s) && QueuesOk(s) && ProcsOk(s.procs)
    requires s.spc.SDeq? || s.spc.SSwapDeq?
    requires s.spc.SSwapDeq? ==> s.ready != []
    ensures OnePlace(HandOver(pol, s))
  {
    var t := HandOver(pol, s);
    hide OnePlace, ShouldTerminate, Pids;
    if s.ready == [] {
      Unmoved(s, t);
    } else {
      DequeueShape(pol, s);
      hide HandOver, Handled;
      DequeuedLives(s, t);
      ReadyToHand(s, t);
    }
  }

  lemma DequeuedLives(s: State, t: State)
    requires Dequeues(s, t)
    ensures SameLife(s.procs, t.procs)
  {
    hide ShouldTerminate;
  }

  lemma PlaceHandOver(pol: Policy, s: State)
    requires Pointers(s) && OnePlace(s) && QueuesOk(s) && SchedulerStage(s) && ProcsOk(s.procs)
    requires !Polling(s.spc) && !Charging(s.spc) && (s.spc.SSwapDeq? ==> s.ready != [])
    requires !s.spc.SSwapPost?
    ensures OnePlace(HandOver(pol, s))
  {
    hide OnePlace, ShouldTerminate, Insert, Pids, Alternating, Enqueue, SchedulerDequeue, SwapDequeue, ProcOk, Handled;
    var t := HandOver(pol, s);
    match s.spc {
      case SSwapPut(q) =>
        EnqueuePids(pol, s.ready, q, At(s, q).priority);
        HandToReady(s, t, q);
      case SPut(q) =>
        EnqueuePids(pol, s.wait, q, At(s, q).priority);
        HandToWait(s, t, q);
      case STermWrite(q) => SchedulerRetires(s, t, q);
      case SDeq => PlaceDequeue(pol, s);
      case SSwapDeq(_) => PlaceDequeue(pol, s);
      case _ => Unmoved(s, t);
    }
  }

  lemma SchedulerPlace(pol: Policy, s: State)
    requires Inv(pol, s)
    ensures OnePlace(SchedulerStep(pol, s))
  {
    hide OnePlace, SchedulerStage, QueuesOk, ProcsOk, Pointers, Counter, Poll, ChargeBurst, HandOver;
    if Polling(s.spc) {
      PlacePoll(s);
    } else if Charging(s.spc) {
      PlaceCharge(pol, s);
    } else {
      PlaceHandOver(pol, s);
    }
  }

  lemma WakeupPlace(pol: Policy, s: State)
    requires Pointers(s) && OnePlace(s) && QueuesOk(s) && WakeupStage(s) && ProcsOk(s.procs)
    ensures OnePlace(WakeupStep(pol, s))
  {
    hide OnePlace, ShouldTerminate, Insert, Pids, Alternating, Enqueue;
    var t := WakeupStep(pol, s);
    match s.wpc {
      case WTermWrite(q) => WakeupRetires(s, t, q);
      case WPut(q) =>
        EnqueuePids(pol, s.ready, q, At(s, q).priority);
        WakeupToReady(s, t, q);
      case WDeq =>
        if s.wait != [] {
          TerminateOnIo(Handled(At(s, s.wait[0].pid)));
          WaitToWakeup(s, t);
        } else {
          Unmoved(s, t);
        }
      case _ => Unmoved(s, t);
    }
  }

  // ----- References, counts and stages -----

  lemma PointersCharge(pol: Policy, s: State)
    requires Pointers(s) && Charging(s.spc)
    ensures Pointers(ChargeBurst(pol, s))
  {
    hide CloseBurst, Refill, Tick, Preempt, At, Replace, HeadIsShorter, BurstIndex;
  }

  lemma PointersHandOver(pol: Policy, s: State)
    requires Pointers(s) && !Charging(s.spc) && !Polling(s.spc)
    ensures Pointers(HandOver(pol, s))
  {
    hide ShouldTerminate, Enqueue, At, Replace, Handled, Finish;
    if s.spc.SSwapPut? {
      EnqueueInRange(pol, s.ready, s.spc.pid, At(s, s.spc.pid).priority, |s.procs|);
    } else if s.spc.SPut? {
      EnqueueInRange(pol, s.wait, s.spc.pid, At(s, s.spc.pid).priority, |s.procs|);
    } else if s.spc.SDeq? || s.spc.SSwapDeq? {
      PointersDequeue(pol, s);
    } else {
      hide SchedulerDequeue, SwapDequeue, InRange;
    }
  }

  lemma PointersDequeue(pol: Policy, s: State)
    requires Pointers(s) && (s.spc.SDeq? || s.spc.SSwapDeq?)
    ensures Pointers(HandOver(pol, s))
  {
    hide ShouldTerminate, At, Replace, Handled;
  }

  lemma SchedulerPointers(pol: Policy, s: State)
    requires Pointers(s)
    ensures Pointers(SchedulerStep(pol, s))
  {
    hide ChargeBurst, HandOver;
    if Charging(s.spc) {
      PointersCharge(pol, s);
    } else if !Polling(s.spc) {
      PointersHandOver(pol, s);
    }
  }

  lemma WakeupPointers(pol: Policy, s: State)
    requires Pointers(s)
    ensures Pointers(WakeupStep(pol, s))
  {
    hide ShouldTerminate, Enqueue, At, Replace, Handled, Finish;
    if s.wpc.WPut? {
      EnqueueInRange(pol, s.ready, s.wpc.pid, At(s, s.wpc.pid).priority, |s.procs|);
    }
  }

  lemma {:induction false} DeadSame(a: seq<Proc>, b: seq<Proc>)
    requires SameLife(a, b)
    ensures Dead(a) == Dead(b)
  {
    if a != [] {
      DeadSame(a[..|a| - 1], b[..|b| - 1]);
    }
  }

  lemma LifeCharge(pol: Policy, s: State)
    requires Pointers(s) && SchedulerStage(s) && Charging(s.spc)
    ensures SameLife(s.procs, ChargeBurst(pol, s).procs)
  {
    hide HeadIsShorter, InRange;
  }

  lemma LifeHandOver(pol: Policy, s: State)
    requires Pointers(s) && !Charging(s.spc) && !Polling(s.spc) && !s.spc.STermWrite?
    ensures SameLife(s.procs, HandOver(pol, s).procs)
  {
    hide ShouldTerminate, Enqueue, InRange;
  }

  lemma CounterCharge(pol: Policy, s: State)
    requires Counter(s) && SchedulerStage(s) && PcFits(pol, s) && Charging(s.spc) && Pointers(s)
    requires SameLife(s.procs, ChargeBurst(pol, s).procs)
    ensures Counter(ChargeBurst(pol, s))
  {
    hide ChargeBurst, Dead, SameLife, OnlyChanges, SchedulerStage, PcFits, Pointers;
    DeadSame(s.procs, ChargeBurst(pol, s).procs);
    ChargeShape(pol, s);
    ChargeChanges(pol, s);
    assert |ChargeBurst(pol, s).procs| == |s.procs| by { SameLength(s.procs, ChargeBurst(pol, s).procs); }
  }

  lemma SameLength(a: seq<Proc>, b: seq<Proc>)
    requires SameLife(a, b)
    ensures |a| == |b|
  {
  }

  lemma CounterDequeue(pol: Policy, s: State)
    requires Pointers(s) && Counter(s) && (s.spc.SDeq? || s.spc.SSwapDeq?)
    requires QueuesOk(s) && ProcsOk(s.procs) && (s.spc.SSwapDeq? ==> s.ready != [])
    ensures Counter(HandOver(pol, s))
  {
    var t := HandOver(pol, s);
    hide Dead;
    if s.ready != [] {
      DequeueShape(pol, s);
      hide HandOver, ShouldTerminate, Handled;
      DequeuedLives(s, t);
      DeadSame(s.procs, t.procs);
    }
  }

  lemma CounterHandOver(pol: Policy, s: State)
    requires Pointers(s) && Counter(s) && SchedulerStage(s) && PcFits(pol, s) && QueuesOk(s) && ProcsOk(s.procs)
    requires !Charging(s.spc) && !Polling(s.spc) && (s.spc.SSwapDeq? ==> s.ready != [])
    requires !s.spc.STermWrite? ==> SameLife(s.procs, HandOver(pol, s).procs)
    ensures Counter(HandOver(pol, s))
  {
    hide Dead, SameLife, Slot, Alternating;
    if s.spc.STermWrite? {
      DeadUpdate(s.procs, s.spc.pid, Finish(At(s, s.spc.pid)));
    } else if s.spc.SDeq? || s.spc.SSwapDeq? {
      CounterDequeue(pol, s);
    } else {
      hide ShouldTerminate, Replace, Handled, Finish, ProcsOk, InRange, SchedulerDequeue, SwapDequeue;
      DeadSame(s.procs, HandOver(pol, s).procs);
    }
  }

  lemma SchedulerCounter(pol: Policy, s: State)
    requires Inv(pol, s)
    ensures Counter(SchedulerStep(pol, s))
  {
    hide OnePlace, SchedulerStage, WakeupStage, QueuesOk, ProcsOk, Pointers, ChargeBurst, HandOver, SameLife;
    if Charging(s.spc) {
      LifeCharge(pol, s);
      CounterCharge(pol, s);
    } else if !Polling(s.spc) {
      if !s.spc.STermWrite? {
        LifeHandOver(pol, s);
      }
      CounterHandOver(pol, s);
    }
  }

  lemma WakeupLife(pol: Policy, s: State)
    requires Pointers(s) && WakeupStage(s) && !s.wpc.WTermWrite?
    ensures SameLife(s.procs, WakeupStep(pol, s).procs)
  {
    hide ShouldTerminate, Enqueue, InRange;
  }

  lemma WakeupCounter(pol: Policy, s: State)
    requires Pointers(s) && Counter(s) && WakeupStage(s) && QueuesOk(s) && ProcsOk(s.procs)
    ensures Counter(WakeupStep(pol, s))
  {
    hide ShouldTerminate, Slot, Pids, Alternating, Dead, SameLife;
    if s.wpc.WTermWrite? {
      DeadUpdate(s.procs, s.wpc.pid, Finish(At(s, s.wpc.pid)));
    } else {
      if s.wpc.WDeq? && s.wait != [] {
        TerminateOnIo(Handled(At(s, s.wait[0].pid)));
      }
      WakeupLife(pol, s);
      DeadSame(s.procs, WakeupStep(pol, s).procs);
    }
  }

  lemma ProcsCharge(pol: Policy, s: State)
    requires Pointers(s) && PcFits(pol, s) && ProcsOk(s.procs) && SchedulerStage(s) && Charging(s.spc)
    ensures ProcsOk(ChargeBurst(pol, s).procs) && SchedulerStage(ChargeBurst(pol, s))
  {
    hide ChargeBurst, InRange, PcFits, OnlyChanges, ProcOk;
    assert ProcOk(At(s, s.spc.pid));
    ChargeChanges(pol, s);
    HandCharge(pol, s);
    ProcsApart(s, ChargeBurst(pol, s), s.spc.pid);
  }

  lemma HandCharge(pol: Policy, s: State)
    requires Pointers(s) && PcFits(pol, s) && SchedulerStage(s) && Charging(s.spc) && ProcOk(At(s, s.spc.pid))
    ensures ProcOk(At(ChargeBurst(pol, s), s.spc.pid)) && SchedulerStage(ChargeBurst(pol, s))
  {
    hide HeadIsShorter, InRange, Alternating;
  }

  lemma ProcsApart(s: State, t: State, pid: nat)
    requires ProcsOk(s.procs) && OnlyChanges(s.procs, t.procs, pid) && ProcOk(At(t, pid)) && pid < |s.procs|
    ensures ProcsOk(t.procs)
  {
    hide ProcOk;
  }

  lemma ProcsHandOver(pol: Policy, s: State)
    requires Pointers(s) && PcFits(pol, s) && ProcsOk(s.procs) && SchedulerStage(s) && QueuesOk(s)
    requires !Charging(s.spc) && !Polling(s.spc) && (s.spc.SSwapDeq? ==> s.ready != [])
    ensures ProcsOk(HandOver(pol, s).procs) && SchedulerStage(HandOver(pol, s))
  {
    if s.ready != [] && (s.spc.SDeq? || s.spc.SSwapDeq?) {
      ProcsDequeue(pol, s);
    } else {
      if s.spc.STermWrite? {
        TerminateOnCpu(At(s, s.spc.pid));
      }
      hide ShouldTerminate, Enqueue, Alternating, Dispatch, QueuesOk;
    }
  }

  lemma ProcsDequeue(pol: Policy, s: State)
    requires Pointers(s) && ProcsOk(s.procs) && QueuesOk(s) && s.ready != [] && (s.spc.SDeq? || s.spc.SSwapDeq?)
    ensures ProcsOk(HandOver(pol, s).procs) && SchedulerStage(HandOver(pol, s))
  {
    var t, p := HandOver(pol, s), At(s, s.ready[0].pid);
    DequeueShape(pol, s);
    TerminateOnCpu(p);
    HandledSame(p);
    hide HandOver, ShouldTerminate, Alternating;
  }

  /** Only the process in hand changes. */
  predicate OnlyChanges(a: seq<Proc>, b: seq<Proc>, pid: nat) {
    |a| == |b| && forall i | 0 <= i < |a| && i != pid :: b[i] == a[i]
  }

  lemma ChargeChanges(pol: Policy, s: State)
    requires Charging(s.spc)
    ensures var t := ChargeBurst(pol, s);
            OnlyChanges(s.procs, t.procs, s.spc.pid) && t.ready == s.ready && t.wait == s.wait && t.wpc == s.wpc
  {
    hide HeadIsShorter, CloseBurst, Refill, Tick, Preempt, BurstIndex, At;
  }

  lemma QueuesApart(s: State, t: State, pid: nat)
    requires Pointers(s) && OnePlace(s) && QueuesOk(s) && WakeupStage(s)
    requires HandBefore(s.spc) == [pid] || HandAfter(s.spc) == [pid]
    requires OnlyChanges(s.procs, t.procs, pid) && t.ready == s.ready && t.wait == s.wait && t.wpc == s.wpc
    ensures QueuesOk(t) && WakeupStage(t)
  {
    hide OnePlace, ShouldTerminate, OnCpu;
    OnlyInHand(s, pid);
  }

  lemma QueuesDequeue(pol: Policy, s: State)
    requires Pointers(s) && QueuesOk(s) && WakeupStage(s) && ProcsOk(s.procs) && (s.spc.SDeq? || s.spc.SSwapDeq?)
    requires s.spc.SSwapDeq? ==> s.ready != []
    ensures QueuesOk(HandOver(pol, s)) && WakeupStage(HandOver(pol, s))
  {
    if s.ready != [] {
      DequeueShape(pol, s);
      hide HandOver;
      DequeuedQueues(s, HandOver(pol, s));
    }
  }

  lemma DequeuedQueues(s: State, t: State)
    requires Dequeues(s, t) && QueuesOk(s) && WakeupStage(s)
    ensures QueuesOk(t) && WakeupStage(t)
  {
    hide ShouldTerminate;
    HandledSame(s.procs[s.ready[0].pid]);
  }

  lemma QueuesHandOver(pol: Policy, s: State)
    requires Pointers(s) && OnePlace(s) && QueuesOk(s) && WakeupStage(s) && SchedulerStage(s) && PcFits(pol, s)
    requires ProcsOk(s.procs)
    requires !Charging(s.spc) && !Polling(s.spc) && (s.spc.SSwapDeq? ==> s.ready != [])
    ensures QueuesOk(HandOver(pol, s)) && WakeupStage(HandOver(pol, s))
  {
    hide OnePlace, ShouldTerminate, Enqueue, SchedulerDequeue, SwapDequeue;
    var t := HandOver(pol, s);
    match s.spc {
      case STermWrite(q) => QueuesApart(s, t, q);
      case SDeq => QueuesDequeue(pol, s);
      case SSwapDeq(_) => QueuesDequeue(pol, s);
      case SSwapPut(q) => EnqueuePids(pol, s.ready, q, At(s, q).priority);
      case SPut(q) => EnqueuePids(pol, s.wait, q, At(s, q).priority);
      case _ =>
    }
  }

  lemma ProcsWakeup(pol: Policy, s: State)
    requires Pointers(s) && ProcsOk(s.procs) && WakeupStage(s) && QueuesOk(s)
    ensures ProcsOk(WakeupStep(pol, s).procs) && WakeupStage(WakeupStep(pol, s))
  {
    hide ShouldTerminate, Enqueue, Alternating;
    if s.wpc.WDeq? && s.wait != [] {
      TerminateOnIo(At(s, s.wait[0].pid));
      TerminateOnIo(Handled(At(s, s.wait[0].pid)));
    } else if s.wpc.WTermWrite? {
      TerminateOnIo(At(s, s.wpc.pid));
    }
  }

  lemma StageApart(s: State, t: State, pid: nat)
    requires OnePlace(s) && QueuesOk(s) && SchedulerStage(s) && WPid(s.wpc) == [pid]
    requires OnlyChanges(s.procs, t.procs, pid) && t.ready == s.ready && t.wait == s.wait && t.spc == s.spc
    ensures QueuesOk(t) && SchedulerStage(t)
  {
    hide OnePlace, ShouldTerminate, OnCpu;
    OnlyInWakeupHand(s, pid);
  }

  lemma WaitDistinct(s: State)
    requires Pointers(s) && OnePlace(s) && s.wait != []
    ensures forall i | 0 <= i < |s.ready| :: s.ready[i].pid != s.wait[0].pid
    ensures forall i | 0 < i < |s.wait| :: s.wait[i].pid != s.wait[0].pid
    ensures HandBefore(s.spc) != [s.wait[0].pid] && HandAfter(s.spc) != [s.wait[0].pid]
  {
    var pid := s.wait[0].pid;
    assert Held(s)[pid] <= 1;
    InPids(s.wait, 0);
    assert multiset([pid])[pid] == 1;
    forall i | 0 <= i < |s.ready| ensures s.ready[i].pid != pid {
      InPids(s.ready, i);
    }
    DequeueMembers(s.wait);
    forall i | 0 < i < |s.wait| ensures s.wait[i].pid != pid {
      InPids(s.wait[1..], i - 1);
    }
  }

  lemma ReadyDistinct(s: State)
    requires OnePlace(s) && s.ready != []
    ensures forall i | 0 < i < |s.ready| :: s.ready[i].pid != s.ready[0].pid
    ensures forall i | 0 <= i < |s.wait| :: s.wait[i].pid != s.ready[0].pid
    ensures WPid(s.wpc) != [s.ready[0].pid] && HandBefore(s.spc) != [s.ready[0].pid]
  {
    var pid := s.ready[0].pid;
    assert Held(s)[pid] <= 1;
    InPids(s.ready, 0);
    assert multiset([pid])[pid] == 1;
    forall i | 0 <= i < |s.wait| ensures s.wait[i].pid != pid {
      InPids(s.wait, i);
    }
    DequeueMembers(s.ready);
    forall i | 0 < i < |s.ready| ensures s.ready[i].pid != pid {
      InPids(s.ready[1..], i - 1);
    }
  }

  lemma QueuesWakeupDequeue(pol: Policy, s: State)
    requires Pointers(s) && OnePlace(s) && QueuesOk(s) && WakeupStage(s) && SchedulerStage(s) && ProcsOk(s.procs)
    requires s.wpc.WDeq?
    ensures QueuesOk(WakeupStep(pol, s)) && SchedulerStage(WakeupStep(pol, s))
  {
    hide OnePlace, ShouldTerminate, Alternating;
    if s.wait != [] {
      WaitDistinct(s);
    }
  }

  lemma QueuesWakeup(pol: Policy, s: State)
    requires Pointers(s) && OnePlace(s) && QueuesOk(s) && WakeupStage(s) && SchedulerStage(s) && ProcsOk(s.procs)
    ensures QueuesOk(WakeupStep(pol, s)) && SchedulerStage(WakeupStep(pol, s))
  {
    hide OnePlace, ShouldTerminate, Enqueue, Alternating, WakeupDequeue;
    var t := WakeupStep(pol, s);
    match s.wpc {
      case WTermWrite(q) => StageApart(s, t, q);
      case WAdd(q) => StageApart(s, t, q);
      case WPut(q) => EnqueuePids(pol, s.ready, q, At(s, q).priority);
      case WDeq => QueuesWakeupDequeue(pol, s);
      case _ =>
    }
  }

  // ----- Every run keeps the invariant -----

  lemma StagesPoll(s: State)
    requires QueuesOk(s) && SchedulerStage(s) && WakeupStage(s) && Polling(s.spc)
    ensures QueuesOk(Poll(s)) && SchedulerStage(Poll(s)) && WakeupStage(Poll(s)) && Poll(s).procs == s.procs
  {
    hide OnCpu, ShouldTerminate;
  }

  lemma SchedulerStages(pol: Policy, s: State)
    requires Inv(pol, s)
    ensures ProcsOk(SchedulerStep(pol, s).procs) && QueuesOk(SchedulerStep(pol, s))
    ensures SchedulerStage(SchedulerStep(pol, s)) && WakeupStage(SchedulerStep(pol, s))
  {
    hide Poll, ChargeBurst, HandOver, OnePlace, Counter, PcFits, ProcsOk, QueuesOk, SchedulerStage, WakeupStage,
         Pointers, OnlyChanges;
    if Polling(s.spc) {
      StagesPoll(s);
    } else if Charging(s.spc) {
      ProcsCharge(pol, s);
      ChargeChanges(pol, s);
      QueuesApart(s, ChargeBurst(pol, s), s.spc.pid);
    } else {
      ProcsHandOver(pol, s);
      QueuesHandOver(pol, s);
    }
  }

  lemma SchedulerKeeps(pol: Policy, s: State)
    requires Inv(pol, s)
    ensures Inv(pol, SchedulerStep(pol, s))
  {
    hide Tokens, OnePlace, Counter, PcFits, ProcsOk, QueuesOk, SchedulerStage, WakeupStage, Pointers, SchedulerStep;
    SchedulerPlace(pol, s);
    SchedulerCounter(pol, s);
    SchedulerPointers(pol, s);
    SchedulerTokens(pol, s);
    SchedulerPcFits(pol, s);
    SchedulerStages(pol, s);
  }

  lemma PcFitsWakeup(pol: Policy, s: State)
    ensures PcFits(pol, WakeupStep(pol, s)) == PcFits(pol, s)
  {
    hide At, Replace, Handled, Finish, StartIo, FinishIo, Enqueue, ShouldTerminate;
  }

  lemma WakeupKeeps(pol: Policy, s: State)
    requires Inv(pol, s)
    ensures Inv(pol, WakeupStep(pol, s))
  {
    hide Tokens, OnePlace, Counter, PcFits, ProcsOk, QueuesOk, SchedulerStage, WakeupStage, Pointers, WakeupStep;
    WakeupPlace(pol, s);
    WakeupCounter(pol, s);
    WakeupPointers(pol, s);
    WakeupTokens(pol, s);
    ProcsWakeup(pol, s);
    QueuesWakeup(pol, s);
    PcFitsWakeup(pol, s);
  }

  lemma {:induction false} ArrivedPids(pol: Policy, ps: seq<Proc>, k: nat)
    requires k <= |ps|
    ensures forall p: nat :: multiset(Pids(Arrived(pol, ps, k)))[p] == Flag(p < k)
  {
    if k > 0 {
      ArrivedPids(pol, ps, k - 1);
      NextArrives(pol, ps, k - 1);
      hide Arrived, Pids;
      NextPid(Pids(Arrived(pol, ps, k - 1)), Pids(Arrived(pol, ps, k)), k - 1);
    }
  }

  lemma NextArrives(pol: Policy, ps: seq<Proc>, k: nat)
    requires k < |ps|
    ensures multiset(Pids(Arrived(pol, ps, k + 1))) == multiset(Pids(Arrived(pol, ps, k))) + multiset{k}
  {
    hide Enqueue, Pids;
    EnqueuePids(pol, Arrived(pol, ps, k), k, ps[k].priority);
  }

  lemma NextPid(a: seq<nat>, b: seq<nat>, k: nat)
    requires forall p: nat :: multiset(a)[p] == Flag(p < k)
    requires multiset(b) == multiset(a) + multiset{k}
    ensures forall p: nat :: multiset(b)[p] == Flag(p < k + 1)
  {
    forall p: nat ensures multiset(b)[p] == Flag(p < k + 1) {
      assert multiset(a)[p] == Flag(p < k);
    }
  }

  lemma {:induction false} NobodyDead(ps: seq<Proc>)
    requires forall i | 0 <= i < |ps| :: ps[i].status == New
    ensures Dead(ps) == 0
  {
    if ps != [] {
      NobodyDead(ps[..|ps| - 1]);
    }
  }

  lemma InitInv(pol: Policy, w: seq<Line>, clock: int)
    requires Admissible(pol, w) && (pol.Rr? ==> pol.quantum >= 0)
    ensures Inv(pol, Init(pol, w, clock))
  {
    var s := Init(pol, w, clock);
    ArrivedPids(pol, s.procs, |s.procs|);
    NobodyDead(s.procs);
    assert OnePlace(s);
    hide OnePlace, Arrived;
  }

  /** Every state of every run, whatever the interleaving, satisfies the invariant. */
  lemma {:induction false} RunInv(pol: Policy, w: seq<Line>, clock: int, schedule: seq<Thread>)
    requires Admissible(pol, w) && (pol.Rr? ==> pol.quantum >= 0)
    ensures Inv(pol, Run(pol, w, clock, schedule))
    decreases |schedule|
  {
    hide Inv, SchedulerStep, WakeupStep;
    if schedule == [] {
      InitInv(pol, w, clock);
    } else {
      var n := |schedule| - 1;
      RunInv(pol, w, clock, schedule[..n]);
      SchedulerKeeps(pol, Run(pol, w, clock, schedule[..n]));
      WakeupKeeps(pol, Run(pol, w, clock, schedule[..n]));
    }
  }

  predicate SameBurst(p: Proc, q: Proc) {
    && p.line == q.line && p.cpuIndex == q.cpuIndex && p.priority == q.priority && p.remaining == q.remaining
    && p.h.burst == q.h.burst && p.h.done == q.h.done && p.cpuTime == q.cpuTime
    && (q.status == New ==> p.status == New)
  }

  /** Only the charging steps touch a process's CPU burst. */
  predicate SameBursts(a: seq<Proc>, b: seq<Proc>) {
    |a| == |b| && forall i | 0 <= i < |a| :: SameBurst(a[i], b[i])
  }

  lemma ReplaceSame(ps: seq<Proc>, pid: nat, p: Proc)
    requires pid < |ps| ==> SameBurst(ps[pid], p)
    ensures SameBursts(ps, Replace(ps, pid, p))
  {
  }

  lemma BurstsHandOver(pol: Policy, s: State)
    ensures SameBursts(s.procs, HandOver(pol, s).procs)
  {
    hide ShouldTerminate, Enqueue, Replace, SameBursts;
    assert SameBursts(s.procs, s.procs) by { SameBurstsReflexive(s.procs); }
    match s.spc {
      case STermWrite(p) => ReplaceSame(s.procs, p, Finish(At(s, p)));
      case SDeq => if s.ready != [] { ReplaceSame(s.procs, s.ready[0].pid, Handled(At(s, s.ready[0].pid))); }
      case SSwapDeq(_) => if s.ready != [] { ReplaceSame(s.procs, s.ready[0].pid, Handled(At(s, s.ready[0].pid))); }
      case _ =>
    }
  }

  lemma SameBurstsReflexive(ps: seq<Proc>)
    ensures SameBursts(ps, ps)
  {
  }

  lemma BurstsWakeup(pol: Policy, s: State)
    ensures SameBursts(s.procs, WakeupStep(pol, s).procs)
  {
    hide ShouldTerminate, Enqueue;
  }

  lemma LinesCharge(pol: Policy, s: State)
    ensures var t := ChargeBurst(pol, s);
            |t.procs| == |s.procs| && forall i | 0 <= i < |s.procs| :: t.procs[i].line == s.procs[i].line
  {
    hide HeadIsShorter;
  }

  /** The workload is never written. */
  lemma {:induction false} RunLines(pol: Policy, w: seq<Line>, clock: int, schedule: seq<Thread>)
    requires Admissible(pol, w)
    ensures var ps := Run(pol, w, clock, schedule).procs;
            |ps| == |w| && forall i | 0 <= i < |w| :: ps[i].line == w[i]
    decreases |schedule|
  {
    hide ChargeBurst, HandOver, WakeupStep;
    if schedule != [] {
      var n := |schedule| - 1;
      var s := Run(pol, w, clock, schedule[..n]);
      RunLines(pol, w, clock, schedule[..n]);
      LinesCharge(pol, s);
      BurstsHandOver(pol, s);
      BurstsWakeup(pol, s);
    }
  }

  /** In every run: no array read is out of bounds, no assertion of a debug build fails, and a
      dequeue that follows a successful wait, or sits inside a swap, finds a process. */
  lemma NoFault(pol: Policy, w: seq<Line>, clock: int, schedule: seq<Thread>)
    requires Admissible(pol, w) && (pol.Rr? ==> pol.quantum >= 0)
    ensures var s := Run(pol, w, clock, schedule);
            && s.spc != SFault && s.wpc != WFault
            && (s.spc.SDeq? || s.spc.SSwapDeq? ==> s.ready != [])
            && (s.wpc.WDeq? ==> s.wait != [])
  {
    hide Run, OnePlace, Counter;
    RunInv(pol, w, clock, schedule);
  }

  /** In every run each process is in exactly one place, and the shared counter is the number of
      terminated processes up to the terminations being written; it never passes the total. */
  lemma ExactlyOnePlace(pol: Policy, w: seq<Line>, clock: int, schedule: seq<Thread>)
    requires Admissible(pol, w) && (pol.Rr? ==> pol.quantum >= 0)
    ensures var s := Run(pol, w, clock, schedule);
            && (forall p: nat :: Held(s)[p] == Flag(p < |s.procs| && At(s, p).status != Terminated))
            && s.terminated == Dead(s.procs) + Flag(s.spc.STermWrite?) + Flag(s.wpc.WTermWrite?) <= |s.procs|
  {
    hide Run, PcFits, Tokens;
    RunInv(pol, w, clock, schedule);
  }

  /** In every run the semaphores agree with the queues up to the operations in flight: an entry not
      yet posted for, and a token already taken for an entry not yet removed, a swap's among them. */
  lemma SemaphoresAgree(pol: Policy, w: seq<Line>, clock: int, schedule: seq<Thread>)
    requires Admissible(pol, w) && (pol.Rr? ==> pol.quantum >= 0)
    ensures var s := Run(pol, w, clock, schedule);
            && s.readyCount == |s.ready| - Flag(s.wpc.WPost?) - Flag(s.spc.SDeq? || s.spc.SSwapDeq?) >= 0
            && s.waitCount == |s.wait| - Flag(s.spc.SPost?) - Flag(s.wpc.WDeq?) >= 0
  {
    hide Run, OnePlace, Counter, PcFits, QueuesOk;
    RunInv(pol, w, clock, schedule);
  }

  predicate CleanlyFinished(s: State) {
    && s.ready == [] && s.wait == [] && s.readyCount == 0 && s.waitCount == 0
    && s.terminated == |s.procs|
    && forall p | 0 <= p < |s.procs| ::
         var q := s.procs[p];
         && q.status == Terminated && q.cpuIndex == |q.line.cpu| && q.ioIndex == |q.line.io|
         && q.turnaround == q.processTime
  }

  /** When both loops have ended, everything has: no process is lost and no token is left over. */
  lemma CleanFinish(pol: Policy, w: seq<Line>, clock: int, schedule: seq<Thread>)
    requires Admissible(pol, w) && (pol.Rr? ==> pol.quantum >= 0)
    requires Joined(Run(pol, w, clock, schedule))
    ensures CleanlyFinished(Run(pol, w, clock, schedule))
  {
    hide Run, PcFits, OnePlace;
    RunInv(pol, w, clock, schedule);
    DeadBound(Run(pol, w, clock, schedule).procs);
  }
}
