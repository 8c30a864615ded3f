// Every meeting the pairwise order allows is brought about by some schedule.
module PairwiseRuns {
  import opened Workload
  import opened QueueSpec
  import opened Protocol
  import opened Safety
  import opened Srtf
  import opened Progress
  import opened Liveness
  import opened QueueKeys
  import opened Pairwise
  import opened PairwiseSafety

  predicate LoopPc(pc: SPc) {
    pc.SStart? || pc.STick? || pc.STest?
  }

  /** The remaining time at the dispatch of the running process. */
  function Baseline(s: State): int {
    if s.spc.STick? then At(s, s.spc.pid).remaining + s.spc.time
    else if s.spc.STest? then At(s, s.spc.pid).remaining + s.spc.time
    else if s.spc.SStart? then At(s, s.spc.pid).remaining
    else 0
  }

  /** Nobody has been or is about to be preempted. */
  predicate Calm(pol: Policy, s: State) {
    && s.depth == 0 && !s.spc.SSwapEnd? && !s.spc.SSwapPut? && !s.spc.SSwapDeq? && NeverCut(s.procs)
    && (pol.Srtf? && LoopPc(s.spc) ==> forall i | 0 <= i < |s.ready| :: s.ready[i].key >= Baseline(s))
  }

  ghost predicate Sound(pol: Policy, s: State) {
    Inv(pol, s) && KeyFacts(pol, s) && pol.Keyed() && (pol.Srtf? ==> SrtfInv(pol.resume, s))
  }

  lemma RunSound(pol: Policy, w: seq<Line>, clock: int, a: seq<Thread>)
    requires Ranked(pol, w)
    ensures Sound(pol, Run(pol, w, clock, a))
  {
    hide Run, Inv, KeyFacts, SrtfInv;
    RunInv(pol, w, clock, a);
    RunKeyFacts(pol, w, clock, a);
    if pol.Srtf? {
      RunSrtf(pol.resume, w, clock, a);
    }
  }

  // ----- Staying calm -----

  /** The head of the queue has its remaining time as its key, and the others' keys are no smaller. */
  lemma HeadIsLeast(resume: bool, s: State)
    requires Sound(Srtf(resume), s) && s.ready != []
    ensures s.ready[0].pid < |s.procs| && s.ready[0].key == At(s, s.ready[0].pid).remaining
    ensures forall i | 0 <= i < |s.ready| :: s.ready[i].key >= s.ready[0].key
  {
    hide OnePlace, Counter, Tokens, PcFits, SchedulerStage, WakeupStage, AtRest, WaitKeys, Uncut, Ranks, Done, MidBurst,
         Shorter, Nesting;
    ReadyAtRest(s, 0);
  }

  lemma CalmCharge(pol: Policy, s: State)
    requires Sound(pol, s) && Calm(pol, s) && Charging(s.spc)
    ensures Calm(pol, ChargeBurst(pol, s))
  {
    hide OnePlace, Counter, Tokens, WakeupStage, QueuesOk, ProcsOk, KeyFacts, SrtfInv, InRange, ChargeBurst, PcFits,
         SchedulerStage, Calm;
    if pol.Srtf? {
      if s.ready != [] {
        HeadIsLeast(pol.resume, s);
      }
      CalmTicks(pol, s);
    } else {
      NeverCutOneShot(pol, s);
    }
  }

  lemma CalmTicks(pol: Policy, s: State)
    requires Pointers(s) && PcFits(pol, s) && SchedulerStage(s) && pol.Srtf? && Calm(pol, s) && Charging(s.spc)
    requires s.ready != [] ==> s.ready[0].key == At(s, s.ready[0].pid).remaining
    ensures Calm(pol, ChargeBurst(pol, s))
  {
    hide InRange;
  }

  lemma NeverCutOneShot(pol: Policy, s: State)
    requires PcFits(pol, s) && Calm(pol, s) && !pol.Srtf? && Charging(s.spc)
    ensures Calm(pol, ChargeBurst(pol, s))
  {
    hide HeadIsShorter;
  }

  lemma CalmDequeue(pol: Policy, s: State)
    requires Calm(pol, s) && s.spc.SDeq?
    requires pol.Srtf? && s.ready != [] ==>
               (s.ready[0].pid < |s.procs| && s.ready[0].key == At(s, s.ready[0].pid).remaining
                && forall i | 0 <= i < |s.ready| :: s.ready[i].key >= s.ready[0].key)
    requires NeverCut(HandOver(pol, s).procs)
    ensures Calm(pol, HandOver(pol, s))
  {
    hide ShouldTerminate, NeverCut;
  }

  lemma CalmMove(pol: Policy, s: State)
    requires Calm(pol, s) && !Charging(s.spc) && !Polling(s.spc) && !s.spc.SDeq? && !s.spc.SSwapPost?
    requires NeverCut(HandOver(pol, s).procs)
    ensures Calm(pol, HandOver(pol, s))
  {
    hide ShouldTerminate, Enqueue, NeverCut, At, Replace, SwapDequeue, SchedulerDequeue;
  }

  lemma CalmHandOver(pol: Policy, s: State)
    requires Sound(pol, s) && Calm(pol, s) && !Charging(s.spc) && !Polling(s.spc)
    ensures Calm(pol, HandOver(pol, s))
  {
    hide OnePlace, Counter, Tokens, WakeupStage, SchedulerStage, QueuesOk, ProcsOk, KeyFacts, SrtfInv, HandOver,
         NeverCut, SameBursts, Baseline;
    BurstsHandOver(pol, s);
    NeverCutSame(s.procs, HandOver(pol, s).procs);
    if s.spc.SDeq? {
      if pol.Srtf? && s.ready != [] {
        HeadIsLeast(pol.resume, s);
      }
      CalmDequeue(pol, s);
    } else {
      CalmMove(pol, s);
    }
  }

  lemma CalmPoll(pol: Policy, s: State)
    requires Calm(pol, s) && Polling(s.spc)
    ensures Calm(pol, Poll(s))
  {
    hide NeverCut;
  }

  lemma CalmScheduler(pol: Policy, s: State)
    requires Sound(pol, s) && Calm(pol, s)
    ensures Calm(pol, SchedulerStep(pol, s))
  {
    hide Sound, Calm, Poll, ChargeBurst, HandOver;
    if Polling(s.spc) {
      CalmPoll(pol, s);
    } else if Charging(s.spc) {
      CalmCharge(pol, s);
    } else {
      CalmHandOver(pol, s);
    }
  }

  lemma CalmWakeup(pol: Policy, s: State)
    requires Calm(pol, s) && !LoopPc(s.spc)
    ensures Calm(pol, WakeupStep(pol, s))
  {
    hide WakeupStep, SameBursts;
    BurstsWakeup(pol, s);
    WakeupQuiet(pol, s);
    NeverCutSame(s.procs, WakeupStep(pol, s).procs);
  }

  lemma NeverCutSame(a: seq<Proc>, b: seq<Proc>)
    requires SameBursts(a, b) && NeverCut(a)
    ensures NeverCut(b)
  {
  }

  // ----- Serving z before y while the wakeup thread stands still -----

  predicate Waits(s: State, y: nat) {
    Has(s.ready, y) || Has(s.wait, y)
  }

  /** The wakeup thread holds nothing, z is ready, and y is not ahead of it. */
  predicate Poised(pol: Policy, s: State, z: nat, y: nat) {
    && Calm(pol, s) && Waking(s.wpc) && z != y && HasWork(s, z) && HasWork(s, y)
    && NotAhead(RingOf(s), y, z) && Has(s.ready, z) && Waits(s, y)
  }

  predicate HeadIs(s: State, z: nat) {
    s.spc.SDeq? && s.ready != [] && s.ready[0].pid == z
  }

  /** Nothing a process is about to do changes. */
  predicate SameStand(s: State, t: State, x: nat) {
    x < |s.procs| && |t.procs| == |s.procs|
    && t.procs[x].line == s.procs[x].line && t.procs[x].cpuIndex == s.procs[x].cpuIndex
  }

  lemma HandIsElsewhere(pol: Policy, s: State, x: nat)
    requires Sound(pol, s) && Waits(s, x)
    ensures RingOf(s).Distinct()
    ensures HandBefore(s.spc) != [x] && HandAfter(s.spc) != [x] && WPid(s.wpc) != [x]
  {
    hide OnePlace, Counter, Tokens, PcFits, QueuesOk, ProcsOk, SchedulerStage, WakeupStage, KeyFacts, SrtfInv;
    RingDistinct(s, x);
    OnlyPlace(RingOf(s), x);
  }

  lemma SchedulerMoves(pol: Policy, s: State)
    requires Sound(pol, s)
    ensures Possible(RingOf(s), SchedulerMove(pol, s))
    ensures RingOf(SchedulerStep(pol, s)) == Apply(RingOf(s), SchedulerMove(pol, s))
  {
    hide OnePlace, Counter, Tokens, PcFits, QueuesOk, ProcsOk, WakeupStage, KeyFacts, SrtfInv, ChargeBurst, HandOver,
         Possible, Apply;
    if Polling(s.spc) {
      PollMoves(pol, s);
    } else if Charging(s.spc) {
      ChargeMoves(pol, s);
    } else {
      HandOverMoves(pol, s);
    }
  }

  lemma PollMoves(pol: Policy, s: State)
    requires Polling(s.spc)
    ensures Possible(RingOf(s), SchedulerMove(pol, s)) && RingOf(Poll(s)) == Apply(RingOf(s), SchedulerMove(pol, s))
  {
  }

  /** The scheduler changes the burst of nobody but the process in its hand. */
  lemma StandsStill(pol: Policy, s: State, x: nat)
    requires Pointers(s) && SchedulerStage(s) && PcFits(pol, s) && x < |s.procs| && HandBefore(s.spc) != [x]
    ensures SameStand(s, SchedulerStep(pol, s), x)
  {
    hide ChargeBurst, HandOver, InRange, SchedulerStage, PcFits, OnlyChanges, SameBursts;
    if Charging(s.spc) {
      ChargeChanges(pol, s);
      assert OnlyChanges(s.procs, ChargeBurst(pol, s).procs, s.spc.pid);
      ApartStands(s, ChargeBurst(pol, s), s.spc.pid, x);
    } else if !Polling(s.spc) {
      BurstsHandOver(pol, s);
      BurstStands(s, HandOver(pol, s), x);
    }
  }

  lemma ApartStands(s: State, t: State, z: nat, x: nat)
    requires OnlyChanges(s.procs, t.procs, z) && x != z && x < |s.procs|
    ensures SameStand(s, t, x)
  {
  }

  lemma BurstStands(s: State, t: State, x: nat)
    requires SameBursts(s.procs, t.procs) && x < |s.procs|
    ensures SameStand(s, t, x)
  {
    assert SameBurst(s.procs[x], t.procs[x]);
  }

  lemma SchedulerStays(pol: Policy, s: State, x: nat, y: nat)
    requires Sound(pol, s) && HasWork(s, x) && HasWork(s, y) && Waits(s, x) && Waits(s, y)
    ensures BothStay(RingOf(s), SchedulerMove(pol, s), y, x)
  {
    HandIsElsewhere(pol, s, x);
    HandIsElsewhere(pol, s, y);
    hide KeyFacts, SrtfInv, Waits, ChargeBurst;
    if Charging(s.spc) {
      hide Inv;
      ChargeHand(s);
      assert OnePlace(s) && ProcsOk(s.procs) by { SoundParts(pol, s); }
      ChargeStays(pol, s, x, y);
    } else {
      hide Inv;
      assert Inv(pol, s);
      HandOverStays(pol, s, x, y);
    }
  }

  lemma SoundParts(pol: Policy, s: State)
    requires Sound(pol, s)
    ensures OnePlace(s) && ProcsOk(s.procs)
  {
  }

  lemma ChargeHand(s: State)
    requires Charging(s.spc)
    ensures HandBefore(s.spc) == [s.spc.pid]
  {
  }

  /** No process in a queue is put into one by the scheduler. */
  lemma WaitersArePutRight(pol: Policy, s: State, y: nat, x: nat)
    requires HandAfter(s.spc) != [y] && HandBefore(s.spc) != [x]
    ensures PutsRight(RingOf(s), SchedulerMove(pol, s), y, x)
  {
    hide ChargeBurst;
  }

  lemma PoisedStep(pol: Policy, s: State, z: nat, y: nat)
    requires Sound(pol, s) && Poised(pol, s, z, y) && !HeadIs(s, z)
    ensures var t := SchedulerStep(pol, s);
            && Poised(pol, t, z, y) && SameStand(s, t, z) && SameStand(s, t, y)
            && (Has(s.ready, y) ==> Has(t.ready, y))
  {
    hide Inv, KeyFacts, SrtfInv, Calm, SchedulerStep, NotAhead, Has, SchedulerMove, Possible, Apply, BothStay,
         PutsRight;
    var t, r, m := SchedulerStep(pol, s), RingOf(s), SchedulerMove(pol, s);
    CalmScheduler(pol, s);
    SchedulerMoves(pol, s);
    HandIsElsewhere(pol, s, z);
    HandIsElsewhere(pol, s, y);
    assert Pointers(s) && SchedulerStage(s) && PcFits(pol, s) && Sorted(s.ready) && Sorted(s.wait) by {
      SoundQueues(pol, s);
    }
    StandsStill(pol, s, z);
    StandsStill(pol, s, y);
    SchedulerStays(pol, s, z, y);
    WaitersArePutRight(pol, s, y, z);
    StaysBehind(r, m, y, z);
    QuietWpc(pol, s);
    WaitersStay(pol, s, z, y);
  }

  lemma SoundQueues(pol: Policy, s: State)
    requires Sound(pol, s)
    ensures Pointers(s) && SchedulerStage(s) && PcFits(pol, s) && Sorted(s.ready) && Sorted(s.wait)
  {
  }

  lemma QuietWpc(pol: Policy, s: State)
    ensures SchedulerStep(pol, s).wpc == s.wpc
  {
    hide HeadIsShorter, At, Replace, ShouldTerminate, Enqueue;
  }

  /** Whoever is in a queue stays there, except the head when it is dequeued; and y never gets that far. */
  lemma WaitersStay(pol: Policy, s: State, z: nat, y: nat)
    requires Sound(pol, s) && z != y && NotAhead(RingOf(s), y, z) && Has(s.ready, z) && Waits(s, y) && !HeadIs(s, z)
    requires Calm(pol, s)
    requires Possible(RingOf(s), SchedulerMove(pol, s))
    requires RingOf(SchedulerStep(pol, s)) == Apply(RingOf(s), SchedulerMove(pol, s))
    ensures var t := SchedulerStep(pol, s); Has(t.ready, z) && Waits(t, y) && (Has(s.ready, y) ==> Has(t.ready, y))
  {
    var t, m := SchedulerStep(pol, s), SchedulerMove(pol, s);
    assert t.ready == Apply(RingOf(s), m).ready && t.wait == Apply(RingOf(s), m).wait;
    hide Inv, KeyFacts, SrtfInv, SchedulerStep, Has, Insert, NotAhead;
    if m.TakeReady? {
      assert s.spc.SDeq? by { hide ChargeBurst, NeverCut; }
      HandIsElsewhere(pol, s, z);
      OnlyPlace(RingOf(s), z);
      OnlyPlace(RingOf(s), y);
      HasTail(s.ready, z);
      HasTail(s.ready, y);
      if s.ready[0].pid == y {
        TrailsOf(RingOf(s), y, z);
        HeadHas(s.ready, y, z);
      }
    } else if m.PutWait? {
      HasInsert(s.wait, Node(RingOf(s).after[0], m.key), y);
    }
  }

  lemma TrailsOf(r: Ring, y: nat, z: nat)
    requires NotAhead(r, y, z)
    ensures Trails(r.ready, y, z)
  {
  }

  lemma HeadHas(q: seq<Node>, y: nat, z: nat)
    requires q != [] && Trails(q, y, z) && q[0].pid == y && z != y
    ensures !Has(q, z)
  {
    NeverFirst(q, y, z);
  }

  /** While somebody is ready and the wakeup thread holds nothing, the scheduler has work. */
  lemma PoisedWorks(pol: Policy, s: State, z: nat)
    requires Sound(pol, s) && Waking(s.wpc) && HasWork(s, z) && Has(s.ready, z)
    ensures SchedulerEnabled(s)
  {
    hide OnePlace, PcFits, QueuesOk, SchedulerStage, WakeupStage, KeyFacts, SrtfInv;
    assert ProcOk(s.procs[z]) && s.procs[z].status != Terminated;
    SomeoneLives(s.procs, z);
  }

  lemma SomeoneLives(ps: seq<Proc>, z: nat)
    requires z < |ps| && ps[z].status != Terminated
    ensures Dead(ps) < |ps|
  {
    DeadBound(ps);
  }

  /** The scheduler alone brings z to the head of the queue and itself to the dequeue. */
  lemma {:induction false} HuntHead(pol: Policy, w: seq<Line>, clock: int, a: seq<Thread>, z: nat, y: nat)
      returns (b: seq<Thread>)
    requires Ranked(pol, w) && Poised(pol, Run(pol, w, clock, a), z, y)
    ensures var s, t := Run(pol, w, clock, a), Run(pol, w, clock, b);
            && Poised(pol, t, z, y) && HeadIs(t, z) && SameStand(s, t, z) && SameStand(s, t, y)
            && (Has(s.ready, y) ==> Has(t.ready, y))
    decreases Measure(Debt(w), Run(pol, w, clock, a)), SchedulerDistance(Run(pol, w, clock, a))
  {
    hide Run, Sound, Poised, Steady, Measure, Debt, SchedulerStep, Step, SchedulerDistance, SchedulerEnabled, Has;
    var s := Run(pol, w, clock, a);
    b := a;
    if HeadIs(s, z) {
      PoisedStands(pol, s, z, y);
    } else {
      RunSound(pol, w, clock, a);
      RunSteady(pol, w, clock, a);
      RunSnoc(pol, w, clock, a, SchedulerThread);
      StepOfScheduler(pol, s);
      PoisedStep(pol, s, z, y);
      PoisedEnabled(pol, s, z, y);
      SchedulerCloser(pol, Debt(w), s);
      MeasureBound(pol, Debt(w), s);
      b := HuntHead(pol, w, clock, a + [SchedulerThread], z, y);
    }
  }

  lemma StepOfScheduler(pol: Policy, s: State)
    ensures Step(pol, SchedulerThread, s) == SchedulerStep(pol, s)
  {
  }

  lemma StepOfWakeup(pol: Policy, s: State)
    ensures Step(pol, WakeupThread, s) == WakeupStep(pol, s)
  {
  }

  lemma PoisedStands(pol: Policy, s: State, z: nat, y: nat)
    requires Poised(pol, s, z, y)
    ensures SameStand(s, s, z) && SameStand(s, s, y)
  {
  }

  lemma PoisedEnabled(pol: Policy, s: State, z: nat, y: nat)
    requires Sound(pol, s) && Poised(pol, s, z, y)
    ensures SchedulerEnabled(s)
  {
    hide Sound, SchedulerEnabled;
    PoisedWorks(pol, s, z);
  }

  // ----- The burst of the process dispatched -----

  /** z runs its burst, undisturbed, and y waits. */
  predicate Serving(pol: Policy, s: State, z: nat, y: nat) {
    && Calm(pol, s) && Waking(s.wpc) && z != y && HasWork(s, z) && HasWork(s, y) && Waits(s, y)
    && Charging(s.spc) && s.spc.pid == z
  }

  /** z has finished its burst and is about to be put to sleep. */
  predicate Served(pol: Policy, s: State, z: nat, y: nat) {
    && Calm(pol, s) && Waking(s.wpc) && z != y && HasWork(s, y) && Waits(s, y) && s.spc == SPut(z)
  }

  lemma DispatchesHead(pol: Policy, s: State, z: nat, y: nat)
    requires Sound(pol, s) && Poised(pol, s, z, y) && HeadIs(s, z)
    ensures var t := SchedulerStep(pol, s);
            Serving(pol, t, z, y) && t.spc == SStart(z) && SameStand(s, t, z) && SameStand(s, t, y)
            && t.wait == s.wait && t.wpc == s.wpc && t.ready == s.ready[1..]
  {
    hide Sound, Calm, Has, NotAhead, SchedulerStep;
    CalmScheduler(pol, s);
    HandIsElsewhere(pol, s, y);
    OnlyPlace(RingOf(s), y);
    HasTail(s.ready, y);
    HeadDispatched(pol, s);
    SoundPolling(pol, s);
    hide Pointers, SchedulerStage, PcFits;
    StandsStill(pol, s, z);
    StandsStill(pol, s, y);
  }

  lemma SoundPolling(pol: Policy, s: State)
    requires Sound(pol, s)
    ensures Pointers(s) && SchedulerStage(s) && PcFits(pol, s)
  {
  }

  lemma HeadDispatched(pol: Policy, s: State)
    requires Sound(pol, s) && s.spc.SDeq? && s.ready != [] && HasWork(s, s.ready[0].pid)
    ensures var t := SchedulerStep(pol, s);
            t.spc == SStart(s.ready[0].pid) && t.wait == s.wait && t.wpc == s.wpc && t.ready == s.ready[1..]
  {
    hide OnePlace, Counter, Tokens, SchedulerStage, WakeupStage, KeyFacts, SrtfInv, ShouldTerminate;
    TerminateOnCpu(Handled(At(s, s.ready[0].pid)));
  }

  lemma ServingStep(pol: Policy, s: State, z: nat, y: nat)
    requires Sound(pol, s) && Serving(pol, s, z, y)
    ensures var t := SchedulerStep(pol, s);
            && SameStand(s, t, y) && t.wait == s.wait && t.ready == s.ready && t.wpc == s.wpc
            && (if t.spc.SPut? then
                  Served(pol, t, z, y) && |t.procs| == |s.procs| && t.procs[z].line == s.procs[z].line
                  && t.procs[z].cpuIndex == s.procs[z].cpuIndex + 1
                else Serving(pol, t, z, y) && SameStand(s, t, z))
  {
    hide Sound, ChargeBurst, OnlyChanges, Pristine, Has, Baseline, NeverCut;
    var t := SchedulerStep(pol, s);
    CalmScheduler(pol, s);
    HandIsElsewhere(pol, s, y);
    SoundPolling(pol, s);
    hide Pointers, SchedulerStage, PcFits;
    assert t == ChargeBurst(pol, s);
    ChargeChanges(pol, s);
    ChargeShape(pol, s);
    PristineCharge(pol, s);
    ApartStands(s, t, z, y);
  }

  lemma {:induction false} Serve(pol: Policy, w: seq<Line>, clock: int, a: seq<Thread>, z: nat, y: nat)
      returns (b: seq<Thread>)
    requires Ranked(pol, w) && Serving(pol, Run(pol, w, clock, a), z, y)
    ensures var s, t := Run(pol, w, clock, a), Run(pol, w, clock, b);
            && Served(pol, t, z, y) && SameStand(s, t, y)
            && |t.procs| == |s.procs| && z < |s.procs| && t.procs[z].line == s.procs[z].line
            && t.procs[z].cpuIndex == s.procs[z].cpuIndex + 1
    decreases Measure(Debt(w), Run(pol, w, clock, a))
  {
    hide Run, Sound, Serving, Served, Steady, Measure, Debt, SchedulerStep, Step;
    var s := Run(pol, w, clock, a);
    RunSound(pol, w, clock, a);
    RunSteady(pol, w, clock, a);
    RunSnoc(pol, w, clock, a, SchedulerThread);
    StepOfScheduler(pol, s);
    ServingStep(pol, s, z, y);
    ServingLowers(pol, Debt(w), s, z, y);
    MeasureBound(pol, Debt(w), s);
    b := a + [SchedulerThread];
    if !Run(pol, w, clock, b).spc.SPut? {
      b := Serve(pol, w, clock, b, z, y);
    }
  }

  lemma ServingLowers(pol: Policy, debt: nat, s: State, z: nat, y: nat)
    requires Steady(pol, debt, s) && Serving(pol, s, z, y)
    ensures Measure(debt, SchedulerStep(pol, s)) < Measure(debt, s)
    ensures z < |s.procs|
  {
    hide Steady, Measure, SchedulerStep;
    LowersScheduler(pol, debt, s);
  }

  // ----- Letting the wakeup thread empty the wait queue -----

  /** The scheduler stands still at a place where it holds no token and polls nothing. */
  predicate Parked(s: State) {
    (s.spc.SPut? || s.spc.SLog? || s.spc.STest?) && !s.wpc.WExit?
  }

  predicate Drained(s: State) {
    Waking(s.wpc) && s.waitCount == 0
  }

  /** What a step of the wakeup thread keeps of the rest. */
  lemma DrainStep(pol: Policy, s: State)
    requires Sound(pol, s) && Parked(s)
    ensures var t := WakeupStep(pol, s);
            && t.spc == s.spc && SameBursts(s.procs, t.procs)
            && Possible(RingOf(s), WakeupMove(s)) && RingOf(t) == Apply(RingOf(s), WakeupMove(s))
  {
    hide WakeupStep, Inv, KeyFacts, SrtfInv, Apply, Possible, SameBursts;
    BurstsWakeup(pol, s);
    WakeupQuiet(pol, s);
    WakeupMoves(pol, s);
  }

  lemma StaysParked(pol: Policy, s: State, x: nat)
    requires Sound(pol, s) && Parked(s) && HasWork(s, x)
    ensures Parked(WakeupStep(pol, s))
    ensures !Drained(s) ==> WakeupEnabled(s)
  {
    hide OnePlace, PcFits, QueuesOk, SchedulerStage, KeyFacts, SrtfInv, ShouldTerminate, Enqueue, At, Replace;
    assert ProcOk(s.procs[x]) && s.procs[x].status != Terminated;
    SomeoneLives(s.procs, x);
  }

  /** u stays behind v if its key is no smaller. */
  lemma DrainBehind(pol: Policy, s: State, u: nat, v: nat)
    requires Sound(pol, s) && Parked(s) && HasWork(s, u) && HasWork(s, v) && u != v
    requires NotAhead(RingOf(s), u, v) && Now(pol, s, u) >= Now(pol, s, v)
    ensures NotAhead(RingOf(WakeupStep(pol, s)), u, v)
  {
    hide WakeupStep, Inv, KeyFacts, SrtfInv, Apply, Possible, SameBursts, NotAhead, BothStay, PutsRight, WakeupMove;
    DrainStep(pol, s);
    SoundQueues(pol, s);
    assert RingOf(s).Distinct() by { hide RingOf; SoundDistinct(pol, s); }
    WakeupStays(pol, s, v, u);
    WakeupPutsRight(pol, s, v, u);
    StaysBehind(RingOf(s), WakeupMove(s), u, v);
  }

  lemma SoundDistinct(pol: Policy, s: State)
    requires Sound(pol, s)
    ensures RingOf(s).Distinct()
  {
    hide OnePlace, Counter, Tokens, KeyFacts, SrtfInv;
    RingDistinct(s, 0);
  }

  /** The wakeup thread alone empties the wait queue; u and v are any two processes of interest. */
  lemma {:induction false} Drain(pol: Policy, w: seq<Line>, clock: int, a: seq<Thread>, u: nat, v: nat)
      returns (b: seq<Thread>)
    requires Ranked(pol, w) && Parked(Run(pol, w, clock, a)) && u != v
    requires HasWork(Run(pol, w, clock, a), u) && HasWork(Run(pol, w, clock, a), v)
    ensures var s, t := Run(pol, w, clock, a), Run(pol, w, clock, b);
            && Parked(t) && Drained(t) && t.spc == s.spc && SameBursts(s.procs, t.procs)
            && (Calm(pol, s) && !LoopPc(s.spc) ==> Calm(pol, t))
            && (NotAhead(RingOf(s), u, v) && Now(pol, s, u) >= Now(pol, s, v) ==> NotAhead(RingOf(t), u, v))
    decreases Measure(Debt(w), Run(pol, w, clock, a)), WakeupDistance(Run(pol, w, clock, a))
  {
    hide Run, Sound, Parked, Drained, Steady, Measure, Debt, WakeupStep, Step, WakeupDistance, WakeupEnabled, Calm,
         SameBursts, NotAhead, RingOf, Apply, Possible, WakeupMove, Rank;
    var s := Run(pol, w, clock, a);
    b := a;
    if Drained(s) {
      SameBurstsReflexive(s.procs);
    } else {
      RunSound(pol, w, clock, a);
      RunSteady(pol, w, clock, a);
      RunSnoc(pol, w, clock, a, WakeupThread);
      StepOfWakeup(pol, s);
      DrainStep(pol, s);
      StaysParked(pol, s, u);
      WakeupCloser(pol, Debt(w), s);
      MeasureBound(pol, Debt(w), s);
      var t := WakeupStep(pol, s);
      BurstStands(s, t, u);
      BurstStands(s, t, v);
      if Calm(pol, s) && !LoopPc(s.spc) {
        CalmWakeup(pol, s);
      }
      if NotAhead(RingOf(s), u, v) && Now(pol, s, u) >= Now(pol, s, v) {
        DrainBehind(pol, s, u, v);
      }
      b := Drain(pol, w, clock, a + [WakeupThread], u, v);
      SameBurstsChain(s.procs, t.procs, Run(pol, w, clock, b).procs);
    }
  }

  lemma SameBurstsChain(a: seq<Proc>, b: seq<Proc>, c: seq<Proc>)
    requires SameBursts(a, b) && SameBursts(b, c)
    ensures SameBursts(a, c)
  {
  }

  /** With the wait queue empty and nothing in the wakeup thread's hand, all but the running process are ready. */
  lemma AllReady(pol: Policy, s: State, x: nat)
    requires Sound(pol, s) && Parked(s) && Drained(s)
    requires HasWork(s, x) && HandBefore(s.spc) != [x] && HandAfter(s.spc) != [x]
    ensures s.wait == [] && Has(s.ready, x)
  {
    hide Counter, PcFits, QueuesOk, SchedulerStage, WakeupStage, KeyFacts, SrtfInv, OnePlace;
    RingDistinct(s, x);
    HasIn(s.ready, x);
    assert multiset(HandBefore(s.spc))[x] == 0 && multiset(HandAfter(s.spc))[x] == 0;
  }

  // ----- One turn -----

  /** z has just been put to sleep, alone in the wait queue, and y is ready. */
  predicate Asleep(pol: Policy, s: State, z: nat, y: nat) {
    && Calm(pol, s) && Waking(s.wpc) && z != y && s.spc == SLog(z) && HasWork(s, z) && HasWork(s, y)
    && |s.wait| == 1 && s.wait[0].pid == z && Has(s.ready, y)
  }

  lemma PutsToSleep(pol: Policy, s: State, z: nat, y: nat)
    requires Sound(pol, s) && Served(pol, s, z, y) && s.wait == [] && Has(s.ready, y) && HasWork(s, z)
    ensures var t := SchedulerStep(pol, s);
            var u := SchedulerStep(pol, t);
            t.spc == SPost(z) && SameStand(s, u, z) && SameStand(s, u, y)
            && (Calm(pol, u) ==> Asleep(pol, u, z, y))
  {
    hide Calm, Inv, KeyFacts, SrtfInv;
  }

  /** From the end of z's burst to its sleep, with the wait queue emptied in between. */
  lemma Sleeps(pol: Policy, w: seq<Line>, clock: int, a: seq<Thread>, z: nat, y: nat) returns (b: seq<Thread>)
    requires Ranked(pol, w) && Served(pol, Run(pol, w, clock, a), z, y) && HasWork(Run(pol, w, clock, a), z)
    ensures var s, t := Run(pol, w, clock, a), Run(pol, w, clock, b);
            Asleep(pol, t, z, y) && SameStand(s, t, z) && SameStand(s, t, y)
  {
    hide Run, Sound, SchedulerStep, Step, Calm, SameBursts, NotAhead, RingOf, Rank, Has, Waits;
    var s := Run(pol, w, clock, a);
    assert Parked(s);
    b := Drain(pol, w, clock, a, z, y);
    var t := Run(pol, w, clock, b);
    BurstStands(s, t, z);
    BurstStands(s, t, y);
    RunSound(pol, w, clock, b);
    AllReady(pol, t, y);
    WaitsIfReady(t, y);
    PutsToSleep(pol, t, z, y);
    CalmScheduler(pol, t);
    RunSnoc(pol, w, clock, b, SchedulerThread);
    StepOfScheduler(pol, t);
    b := b + [SchedulerThread];
    RunSound(pol, w, clock, b);
    CalmScheduler(pol, Run(pol, w, clock, b));
    RunSnoc(pol, w, clock, b, SchedulerThread);
    StepOfScheduler(pol, Run(pol, w, clock, b));
    b := b + [SchedulerThread];
  }

  lemma WaitsIfReady(s: State, y: nat)
    requires Has(s.ready, y)
    ensures Waits(s, y)
  {
  }

  /** z is served one burst before y moves. */
  lemma Turn(pol: Policy, w: seq<Line>, clock: int, a: seq<Thread>, z: nat, y: nat) returns (b: seq<Thread>)
    requires Ranked(pol, w) && Poised(pol, Run(pol, w, clock, a), z, y)
    requires HasWork(Run(pol, w, clock, a), z)
    requires var p := Run(pol, w, clock, a).procs[z]; p.cpuIndex + 1 < |p.line.cpu|
    ensures var s, t := Run(pol, w, clock, a), Run(pol, w, clock, b);
            && Asleep(pol, t, z, y) && SameStand(s, t, y)
            && |t.procs| == |s.procs| && z < |s.procs| && t.procs[z].line == s.procs[z].line
            && t.procs[z].cpuIndex == s.procs[z].cpuIndex + 1
  {
    hide Run, Sound, SchedulerStep, Step, Poised, Serving, Served, Asleep, HeadIs;
    var b1 := HuntHead(pol, w, clock, a, z, y);
    RunSound(pol, w, clock, b1);
    DispatchesHead(pol, Run(pol, w, clock, b1), z, y);
    RunSnoc(pol, w, clock, b1, SchedulerThread);
    StepOfScheduler(pol, Run(pol, w, clock, b1));
    var b2 := b1 + [SchedulerThread];
    var b3 := Serve(pol, w, clock, b2, z, y);
    b := Sleeps(pol, w, clock, b3, z, y);
  }

  /** Taking turns: after z it is y's turn, whatever the keys. */
  lemma AsleepPoises(pol: Policy, s: State, z: nat, y: nat)
    requires Sound(pol, s) && Asleep(pol, s, z, y)
    ensures Poised(pol, s, y, z)
  {
    hide Calm, Inv, KeyFacts, SrtfInv;
    assert Has(s.wait, z);
    SoundDistinct(pol, s);
    OnlyPlace(RingOf(s), z);
    OnlyPlace(RingOf(s), y);
  }

  /** The key of a ready process nobody has preempted is the rank of its burst. */
  lemma ReadyKey(pol: Policy, s: State, x: nat, i: nat)
    requires Sound(pol, s) && NeverCut(s.procs) && i < |s.ready| && s.ready[i].pid == x && HasWork(s, x)
    ensures s.ready[i].key == Now(pol, s, x)
  {
    hide Counter, Tokens, PcFits, QueuesOk, SchedulerStage, WakeupStage, SrtfInv, OnePlace, WaitKeys, Uncut, Sorted,
         Rank;
    NotOnLoop(s, x, i);
    assert RankOk(pol, s.procs[x]);
  }

  lemma KeyTrails(pol: Policy, s: State, y: nat, z: nat)
    requires Sound(pol, s) && NeverCut(s.procs) && HasWork(s, y) && HasWork(s, z) && Now(pol, s, z) < Now(pol, s, y)
    ensures Trails(s.ready, y, z)
  {
    assert Sorted(s.ready) by { SoundQueues(pol, s); }
    hide Sound, Rank, NeverCut;
    forall i, j | 0 <= i < j < |s.ready| ensures !(s.ready[i].pid == y && s.ready[j].pid == z) {
      if s.ready[i].pid == y && s.ready[j].pid == z {
        ReadyKey(pol, s, y, i);
        ReadyKey(pol, s, z, j);
      }
    }
  }

  lemma BothReadyPoised(pol: Policy, s: State, z: nat, y: nat)
    requires Sound(pol, s) && Calm(pol, s) && Waking(s.wpc) && s.spc.SLog? && s.wait == [] && z != y
    requires HasWork(s, z) && HasWork(s, y) && Has(s.ready, z) && Has(s.ready, y) && Trails(s.ready, y, z)
    ensures Poised(pol, s, z, y)
  {
    hide Calm, Inv, KeyFacts, SrtfInv, Sound;
    WaitsIfReady(s, y);
  }

  /** Going twice in a row: z comes back and, with the smaller key, is queued before y. */
  lemma ComesBack(pol: Policy, w: seq<Line>, clock: int, a: seq<Thread>, z: nat, y: nat) returns (b: seq<Thread>)
    requires Ranked(pol, w) && Asleep(pol, Run(pol, w, clock, a), z, y)
    requires var s := Run(pol, w, clock, a); HasWork(s, z) && HasWork(s, y) && Now(pol, s, z) < Now(pol, s, y)
    ensures var s, t := Run(pol, w, clock, a), Run(pol, w, clock, b);
            Poised(pol, t, z, y) && SameStand(s, t, z) && SameStand(s, t, y) && Has(t.ready, y)
  {
    hide Run, Sound, SameBursts, NotAhead, RingOf, Rank, Has, Poised, Trails, NeverCut, Baseline;
    var s := Run(pol, w, clock, a);
    b := Drain(pol, w, clock, a, z, y);
    var t := Run(pol, w, clock, b);
    BurstStands(s, t, z);
    BurstStands(s, t, y);
    RunSound(pol, w, clock, b);
    AllReady(pol, t, z);
    AllReady(pol, t, y);
    KeyTrails(pol, t, y, z);
    BothReadyPoised(pol, t, z, y);
  }

  // ----- Any number of turns -----

  predicate Stands(w: seq<Line>, s: State, x: nat, a: nat) {
    x < |w| && x < |s.procs| && s.procs[x].line == w[x] && s.procs[x].cpuIndex == a
  }

  ghost predicate MeetAt(pol: Policy, w: seq<Line>, x: nat, y: nat, a: nat, b: nat, second: bool) {
    && x < |w| && y < |w| && x != y && a < |w[x].cpu| && b < |w[y].cpu|
    && Meets(Rank(pol, w[x]), Rank(pol, w[y]), x < y, a, b, second)
  }

  lemma MeetAtTurned(pol: Policy, w: seq<Line>, x: nat, y: nat, a: nat, b: nat, second: bool)
    ensures MeetAt(pol, w, x, y, a, b, second) == MeetAt(pol, w, y, x, b, a, !second)
  {
    hide Meets, Rank;
    if x < |w| && y < |w| && x != y && a < |w[x].cpu| && b < |w[y].cpu| {
      MeetsTurned(Rank(pol, w[x]), Rank(pol, w[y]), x < y, a, b, second);
    }
  }

  /** At the start whoever leads is the one to go. */
  lemma StartPoises(pol: Policy, w: seq<Line>, clock: int, z: nat, y: nat)
    requires Ranked(pol, w) && MeetAt(pol, w, z, y, 0, 0, true)
    ensures var s := Run(pol, w, clock, []);
            Poised(pol, s, z, y) && Stands(w, s, z, 0) && Stands(w, s, y, 0)
  {
    RunNothing(pol, w, clock);
    var s := Init(pol, w, clock);
    hide Run, Arrived, Trails, NotAhead, Has;
    ArrivedHas(pol, s.procs, z);
    ArrivedHas(pol, s.procs, y);
    StartStands(pol, w, clock, z);
    StartStands(pol, w, clock, y);
    LeaderIsFirst(pol, w, z, y);
    ArrivedOrder(pol, s.procs, |s.procs|, z, y);
    NoneWaiting(s, z, y);
    CalmStart(pol, w, clock);
    hide Init, Calm, NewProcs;
  }

  lemma CalmStart(pol: Policy, w: seq<Line>, clock: int)
    requires Admissible(pol, w)
    ensures Calm(pol, Init(pol, w, clock))
  {
    hide Arrived;
  }

  lemma StartStands(pol: Policy, w: seq<Line>, clock: int, x: nat)
    requires Ranked(pol, w) && x < |w|
    ensures var s := Init(pol, w, clock);
            HasWork(s, x) && Stands(w, s, x, 0) && s.procs[x].priority == w[x].cpu[0]
  {
    hide Arrived;
  }

  lemma LeaderIsFirst(pol: Policy, w: seq<Line>, z: nat, y: nat)
    requires MeetAt(pol, w, z, y, 0, 0, true)
    ensures w[z].cpu[0] < w[y].cpu[0] || (w[z].cpu[0] == w[y].cpu[0] && z < y)
  {
  }

  lemma ArrivedHas(pol: Policy, ps: seq<Proc>, z: nat)
    requires z < |ps|
    ensures Has(Arrived(pol, ps, |ps|), z)
  {
    hide Arrived;
    ArrivedPids(pol, ps, |ps|);
    HasIn(Arrived(pol, ps, |ps|), z);
  }

  lemma Standing(w: seq<Line>, s: State, t: State, x: nat, a: nat)
    requires Stands(w, s, x, a) && SameStand(s, t, x)
    ensures Stands(w, t, x, a)
  {
  }

  lemma WorksStanding(pol: Policy, w: seq<Line>, s: State, x: nat, a: nat)
    requires Stands(w, s, x, a) && a < |w[x].cpu|
    ensures HasWork(s, x) && Now(pol, s, x) == Rank(pol, w[x])[a]
  {
  }

  /** Every meeting the pairwise order allows with y as the last to finish a burst is reached with y
      alone asleep and x ready. */
  lemma {:induction false} Arrange(pol: Policy, w: seq<Line>, clock: int, x: nat, y: nat, a: nat, b: nat)
      returns (schedule: seq<Thread>)
    requires Ranked(pol, w) && MeetAt(pol, w, x, y, a, b, true) && a + b > 0
    ensures var s := Run(pol, w, clock, schedule);
            Asleep(pol, s, y, x) && Stands(w, s, x, a) && Stands(w, s, y, b)
    decreases a + b
  {
    hide Run, Sound, SchedulerStep, Step, Poised, Asleep, Rank;
    var before: seq<Thread>;
    if MeetAt(pol, w, x, y, a, b - 1, false) {
      MeetAtTurned(pol, w, x, y, a, b - 1, false);
      if a + b == 1 {
        StartPoises(pol, w, clock, y, x);
        before := [];
      } else {
        before := Arrange(pol, w, clock, y, x, b - 1, a);
        RunSound(pol, w, clock, before);
        AsleepPoises(pol, Run(pol, w, clock, before), x, y);
      }
    } else if a + b == 1 {
      NoSecondTurn(pol, w, x, y);
      assert false;
    } else {
      var first := Arrange(pol, w, clock, x, y, a, b - 1);
      WorksStanding(pol, w, Run(pol, w, clock, first), x, a);
      WorksStanding(pol, w, Run(pol, w, clock, first), y, b - 1);
      before := ComesBack(pol, w, clock, first, y, x);
      Standing(w, Run(pol, w, clock, first), Run(pol, w, clock, before), x, a);
      Standing(w, Run(pol, w, clock, first), Run(pol, w, clock, before), y, b - 1);
    }
    WorksStanding(pol, w, Run(pol, w, clock, before), y, b - 1);
    schedule := Turn(pol, w, clock, before, y, x);
    Standing(w, Run(pol, w, clock, before), Run(pol, w, clock, schedule), x, a);
  }

  /** Whoever leads at the start does not let the other go first. */
  lemma NoSecondTurn(pol: Policy, w: seq<Line>, x: nat, y: nat)
    requires MeetAt(pol, w, x, y, 0, 1, true)
    ensures MeetAt(pol, w, x, y, 0, 0, false)
  {
  }
}
