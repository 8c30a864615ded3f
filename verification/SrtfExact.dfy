// Exactly when SRTF can preempt a process, and so when it can charge more than the bursts: a
// condition on the burst lists of two processes, whatever the others do.
module SrtfExact {
  import opened Workload
  import opened QueueSpec
  import opened Protocol
  import opened Safety
  import opened Ledger
  import opened Srtf
  import opened SrtfResults
  import opened SrtfLog
  import opened Progress
  import opened Liveness
  import opened Steps
  import opened QueueKeys
  import opened Pairwise
  import opened PairwiseSafety
  import opened PairwiseRuns

  /** Process q, coming back before its burst j, can find p at its burst k with at least two ticks
      more to run, one of which p spends before it is tested. */
  predicate Threatens(w: seq<Line>, p: nat, q: nat, k: nat, j: nat) {
    && p < |w| && q < |w| && p != q && k < |w[p].cpu| && j < |w[q].cpu|
    && Meets(w[p].cpu, w[q].cpu, p < q, k, j, true) && w[q].cpu[j] + 2 <= w[p].cpu[k]
  }

  predicate Threatened(w: seq<Line>, p: nat)
    requires p < |w|
  {
    exists q, k, j | 0 <= q < |w| && 0 <= k < |w[p].cpu| && 0 <= j < |w[q].cpu| :: Threatens(w, p, q, k, j)
  }

  /** A process that begins below another's burst and later has one two ticks below it threatens it;
      and every threat comes from a later burst. */
  lemma SimpleThreats(w: seq<Line>, p: nat)
    requires p < |w| && forall x | 0 <= x < |w| :: |w[x].cpu| >= 1
    ensures (exists q | 0 <= q < |w| && q != p && |w[q].cpu| >= 2 ::
               w[q].cpu[0] < w[p].cpu[0] && w[q].cpu[1] + 2 <= w[p].cpu[0]) ==> Threatened(w, p)
    ensures Threatened(w, p) ==>
              exists q, j, k | 0 <= q < |w| && 1 <= j < |w[q].cpu| && 0 <= k < |w[p].cpu| ::
                q != p && w[q].cpu[j] + 2 <= w[p].cpu[k]
  {
    forall q | 0 <= q < |w| && q != p && |w[q].cpu| >= 2 && w[q].cpu[0] < w[p].cpu[0] && w[q].cpu[1] + 2 <= w[p].cpu[0]
      ensures Threatened(w, p)
    {
      assert Meets(w[p].cpu, w[q].cpu, p < q, 0, 0, false);
      assert Threatens(w, p, q, 0, 1);
    }
    if Threatened(w, p) {
      var q, k, j :| 0 <= q < |w| && 0 <= k < |w[p].cpu| && 0 <= j < |w[q].cpu| && Threatens(w, p, q, k, j);
      assert q != p && w[q].cpu[j] + 2 <= w[p].cpu[k];
    }
  }

  // ----- Who can beat the running process -----

  /** While a process runs, whatever stands below what it started from has come in since, with its
      whole burst ahead. */
  predicate News(s: State) {
    LoopPc(s.spc) ==>
      forall i | 0 <= i < |s.ready| ::
        s.ready[i].key >= Baseline(s) || At(s, s.ready[i].pid).h.burst.preemptions == 0
  }

  lemma NewsCharge(resume: bool, s: State)
    requires Pointers(s) && PcFits(Srtf(resume), s) && SchedulerStage(s) && OnePlace(s) && Charging(s.spc) && News(s)
    ensures News(ChargeBurst(Srtf(resume), s))
  {
    hide OnePlace, ChargeBurst, InRange, OnlyChanges, Pointers, PcFits, SchedulerStage;
    OnlyInHand(s, s.spc.pid);
    ChargeChanges(Srtf(resume), s);
    BaselineKept(resume, s);
    NewsApart(s, ChargeBurst(Srtf(resume), s), s.spc.pid);
  }

  lemma BaselineKept(resume: bool, s: State)
    requires Pointers(s) && PcFits(Srtf(resume), s) && SchedulerStage(s) && Charging(s.spc)
    ensures var t := ChargeBurst(Srtf(resume), s); LoopPc(t.spc) ==> LoopPc(s.spc) && Baseline(t) == Baseline(s)
  {
    hide InRange, HeadIsShorter;
  }

  lemma NewsApart(s: State, t: State, z: nat)
    requires News(s) && OnlyChanges(s.procs, t.procs, z) && t.ready == s.ready
    requires forall i | 0 <= i < |s.ready| :: s.ready[i].pid != z
    requires LoopPc(t.spc) ==> LoopPc(s.spc) && Baseline(t) == Baseline(s)
    ensures News(t)
  {
    hide Baseline;
  }

  lemma NewsHandOver(resume: bool, s: State)
    requires Sound(Srtf(resume), s) && !Charging(s.spc) && !Polling(s.spc)
    ensures News(HandOver(Srtf(resume), s))
  {
    hide Sound, HandOver, News;
    SoundCharge(resume, s);
    if (s.spc.SDeq? || s.spc.SSwapDeq?) && s.ready != [] {
      HeadIsLeast(resume, s);
      NewsDequeue(resume, s);
    } else {
      NewsMove(resume, s);
    }
  }

  lemma NewsDequeue(resume: bool, s: State)
    requires (s.spc.SDeq? || s.spc.SSwapDeq?) && s.ready != [] && s.ready[0].pid < |s.procs|
    requires s.ready[0].key == At(s, s.ready[0].pid).remaining
    requires forall i | 0 <= i < |s.ready| :: s.ready[i].key >= s.ready[0].key
    ensures News(HandOver(Srtf(resume), s))
  {
    hide ShouldTerminate;
  }

  lemma NewsMove(resume: bool, s: State)
    requires !Charging(s.spc) && !Polling(s.spc) && PcFits(Srtf(resume), s)
    requires s.spc.SDeq? || s.spc.SSwapDeq? ==> s.ready == []
    ensures News(HandOver(Srtf(resume), s))
  {
    hide ShouldTerminate, Enqueue, At, Replace, Dispatch, Baseline;
  }

  lemma NewsWakeup(resume: bool, s: State)
    requires News(s) && Uncut(s)
    ensures News(WakeupStep(Srtf(resume), s))
  {
    hide WakeupStep, SameBursts, Uncut, News;
    var t := WakeupStep(Srtf(resume), s);
    BurstsWakeup(Srtf(resume), s);
    WakeupQuiet(Srtf(resume), s);
    BaselineSame(s, t);
    if s.wpc.WPut? {
      assert At(s, s.wpc.pid).h.burst.preemptions == 0 by { UncutPut(s); }
      NewsInsert(s, t, Node(s.wpc.pid, At(s, s.wpc.pid).priority));
    } else {
      NewsSame(s, t);
    }
  }

  lemma UncutPut(s: State)
    requires Uncut(s) && s.wpc.WPut?
    ensures At(s, s.wpc.pid).h.burst.preemptions == 0
  {
  }

  lemma BaselineSame(s: State, t: State)
    requires SameBursts(s.procs, t.procs) && t.spc == s.spc
    ensures Baseline(t) == Baseline(s)
  {
    if LoopPc(s.spc) && s.spc.pid < |s.procs| {
      assert SameBurst(s.procs[s.spc.pid], t.procs[s.spc.pid]);
    }
  }

  lemma PreemptionsSame(s: State, t: State, x: nat)
    requires SameBursts(s.procs, t.procs)
    ensures At(t, x).h.burst.preemptions == At(s, x).h.burst.preemptions
  {
    if x < |s.procs| {
      assert SameBurst(s.procs[x], t.procs[x]);
    }
  }

  lemma NewsSame(s: State, t: State)
    requires News(s) && SameBursts(s.procs, t.procs) && t.spc == s.spc && t.ready == s.ready
    requires Baseline(t) == Baseline(s)
    ensures News(t)
  {
    hide SameBursts, Baseline, At;
    forall i | 0 <= i < |t.ready|
      ensures At(t, t.ready[i].pid).h.burst.preemptions == At(s, s.ready[i].pid).h.burst.preemptions
    {
      PreemptionsSame(s, t, t.ready[i].pid);
    }
  }

  lemma NewsInsert(s: State, t: State, node: Node)
    requires News(s) && SameBursts(s.procs, t.procs) && t.spc == s.spc && Baseline(t) == Baseline(s)
    requires t.ready == Insert(s.ready, node) && At(s, node.pid).h.burst.preemptions == 0
    ensures News(t)
  {
    hide SameBursts, Baseline, At, Insert;
    InsertMembers(s.ready, node);
    forall i | 0 <= i < |t.ready| && LoopPc(t.spc)
      ensures t.ready[i].key >= Baseline(t) || At(t, t.ready[i].pid).h.burst.preemptions == 0
    {
      assert t.ready[i] in t.ready;
      PreemptionsSame(s, t, t.ready[i].pid);
    }
  }

  lemma {:induction false} RunNews(resume: bool, w: seq<Line>, clock: int, schedule: seq<Thread>)
    requires Ranked(Srtf(resume), w)
    ensures News(Run(Srtf(resume), w, clock, schedule))
    decreases |schedule|
  {
    hide Poll, ChargeBurst, HandOver, WakeupStep, News, Sound;
    if schedule == [] {
      assert News(Init(Srtf(resume), w, clock)) by { NewsIdle(Init(Srtf(resume), w, clock)); }
    } else {
      var n := |schedule| - 1;
      var s := Run(Srtf(resume), w, clock, schedule[..n]);
      RunNews(resume, w, clock, schedule[..n]);
      RunSound(Srtf(resume), w, clock, schedule[..n]);
      if schedule[n] == WakeupThread {
        assert Uncut(s) by { SoundUncut(resume, s); }
        NewsWakeup(resume, s);
      } else if Polling(s.spc) {
        NewsPoll(s);
      } else if Charging(s.spc) {
        SoundCharge(resume, s);
        NewsCharge(resume, s);
      } else {
        NewsHandOver(resume, s);
      }
    }
  }

  lemma NewsIdle(s: State)
    requires s.spc.SCheck?
    ensures News(s)
  {
  }

  lemma NewsPoll(s: State)
    requires Polling(s.spc)
    ensures News(Poll(s))
  {
  }

  lemma SoundUncut(resume: bool, s: State)
    requires Sound(Srtf(resume), s)
    ensures Uncut(s)
  {
  }

  lemma SoundCharge(resume: bool, s: State)
    requires Sound(Srtf(resume), s)
    ensures Pointers(s) && PcFits(Srtf(resume), s) && SchedulerStage(s) && OnePlace(s)
  {
  }

  // ----- A preemption is a threat come true -----

  lemma BeatenByFresh(resume: bool, s: State)
    requires Sound(Srtf(resume), s) && News(s) && s.spc.STest? && HeadIsShorter(s, s.spc.pid)
    requires s.spc.pid < |s.procs| && Pristine(s.procs[s.spc.pid])
    ensures var p, q := s.spc.pid, s.ready[0].pid;
            && p != q && HasWork(s, p) && HasWork(s, q)
            && s.procs[q].h.burst.preemptions == 0 && s.ready[0].key == Now(Srtf(resume), s, q)
            && Now(Srtf(resume), s, q) + 2 <= Now(Srtf(resume), s, p)
            && !NotAhead(RingOf(s), p, q)
  {
    var p, q := s.spc.pid, s.ready[0].pid;
    HeadIsLeast(resume, s);
    hide Counter, Tokens, PcFits, QueuesOk, SchedulerStage, WakeupStage, ProcsOk, OnePlace, WaitKeys, Uncut, Shorter,
         Nesting, DoneOk, AllCpuEnded;
    OnlyInHand(s, p);
    OnlyPlaceOfHead(s);
    assert RankOk(Srtf(resume), s.procs[q]);
    ReadyWorks(resume, s);
  }

  lemma ReadyWorks(resume: bool, s: State)
    requires Sound(Srtf(resume), s) && s.ready != []
    ensures HasWork(s, s.ready[0].pid)
  {
    hide OnePlace, Counter, Tokens, PcFits, SchedulerStage, WakeupStage, AtRest, KeyFacts, Done, MidBurst, Shorter,
         Nesting;
    ReadyAtRest(s, 0);
  }

  lemma OnlyPlaceOfHead(s: State)
    requires OnePlace(s) && HandBefore(s.spc) != [] && s.ready != []
    ensures var r := RingOf(s); r.Stage(s.ready[0].pid) == 3 && r.Stage(s.spc.pid) == 4
  {
    RingDistinct(s, 0);
    assert Has(s.ready, s.ready[0].pid);
    OnlyPlace(RingOf(s), s.ready[0].pid);
    OnlyPlace(RingOf(s), s.spc.pid);
  }

  /** A process about to be preempted for the first time is threatened by the head of the queue, who
      has just come back with his burst untouched. */
  lemma ThreatAtTest(resume: bool, w: seq<Line>, clock: int, schedule: seq<Thread>, p: nat)
    requires Ranked(Srtf(resume), w) && p < |w|
    requires var s := Run(Srtf(resume), w, clock, schedule);
             s.spc.STest? && s.spc.pid == p && HeadIsShorter(s, p) && p < |s.procs| && Pristine(s.procs[p])
    ensures var s := Run(Srtf(resume), w, clock, schedule);
            && s.ready != [] && s.ready[0].pid < |w| == |s.procs|
            && var q := s.ready[0].pid;
               && s.procs[q].h.burst.preemptions == 0 && s.procs[q].cpuIndex < |w[q].cpu|
               && s.ready[0].key == w[q].cpu[s.procs[q].cpuIndex]
               && Threatens(w, p, q, s.procs[p].cpuIndex, s.procs[q].cpuIndex)
    ensures Threatened(w, p)
  {
    hide Run, Sound, News, NotAhead, Meets, Pristine, HeadIsShorter;
    var s := Run(Srtf(resume), w, clock, schedule);
    assert s.ready != [] by { ShorterReady(s, p); }
    var q := s.ready[0].pid;
    RunSound(Srtf(resume), w, clock, schedule);
    RunNews(resume, w, clock, schedule);
    RunLines(Srtf(resume), w, clock, schedule);
    BeatenByFresh(resume, s);
    RunPairs(Srtf(resume), w, clock, schedule, p, q);
    assert Threatens(w, p, q, s.procs[p].cpuIndex, s.procs[q].cpuIndex);
  }

  lemma ShorterReady(s: State, p: nat)
    requires HeadIsShorter(s, p)
    ensures s.ready != []
  {
  }

  /** Whoever was preempted, or is about to be, was threatened. */
  predicate Warned(w: seq<Line>, s: State) {
    |s.procs| == |w| &&
    forall p | 0 <= p < |w| :: (!Pristine(s.procs[p]) || s.spc == SSwapEnd(p)) ==> Threatened(w, p)
  }

  lemma WarnedCharge(resume: bool, w: seq<Line>, s: State)
    requires Pointers(s) && PcFits(Srtf(resume), s) && SchedulerStage(s) && Charging(s.spc) && Warned(w, s)
    requires s.spc.STest? && HeadIsShorter(s, s.spc.pid) && Pristine(At(s, s.spc.pid)) ==>
               s.spc.pid < |w| && Threatened(w, s.spc.pid)
    ensures Warned(w, ChargeBurst(Srtf(resume), s))
  {
    hide ChargeBurst, InRange, OnlyChanges, Pointers, PcFits, SchedulerStage, Pristine, Threatened, HeadIsShorter;
    var t, z := ChargeBurst(Srtf(resume), s), s.spc.pid;
    ChargeChanges(Srtf(resume), s);
    FirstCut(resume, s);
    CutApart(s, t, z);
    forall p | 0 <= p < |w| && (!Pristine(t.procs[p]) || t.spc == SSwapEnd(p)) ensures Threatened(w, p) {
    }
  }

  lemma CutApart(s: State, t: State, z: nat)
    requires OnlyChanges(s.procs, t.procs, z)
    ensures |t.procs| == |s.procs| && forall p | 0 <= p < |s.procs| && p != z :: t.procs[p] == s.procs[p]
  {
  }

  lemma FirstCut(resume: bool, s: State)
    requires Pointers(s) && PcFits(Srtf(resume), s) && SchedulerStage(s) && Charging(s.spc)
    ensures var t, z := ChargeBurst(Srtf(resume), s), s.spc.pid;
            && z < |s.procs| == |t.procs|
            && (Pristine(s.procs[z]) && !s.spc.SSwapEnd? ==> Pristine(t.procs[z]))
            && (t.spc.SSwapEnd? ==> t.spc.pid == z && s.spc.STest? && HeadIsShorter(s, z) && t.procs[z] == s.procs[z])
  {
    hide InRange, HeadIsShorter, Preemptions;
    var p := s.procs[s.spc.pid];
    PreemptionsSnoc(p.h.done, p.h.burst);
  }

  lemma WarnedSame(w: seq<Line>, s: State, t: State)
    requires Warned(w, s) && SameBursts(s.procs, t.procs) && (t.spc.SSwapEnd? ==> t.spc == s.spc)
    ensures Warned(w, t)
  {
    hide Pristine, Threatened, SameBursts;
    forall p | 0 <= p < |w| ensures |t.procs| == |s.procs| && (Pristine(t.procs[p]) <==> Pristine(s.procs[p])) {
      PristineSame(s.procs, t.procs, p);
    }
    PristineSame(s.procs, t.procs, 0);
  }

  lemma {:induction false} RunWarned(resume: bool, w: seq<Line>, clock: int, schedule: seq<Thread>)
    requires Ranked(Srtf(resume), w)
    ensures Warned(w, Run(Srtf(resume), w, clock, schedule))
    decreases |schedule|
  {
    var pol := Srtf(resume);
    hide Poll, ChargeBurst, HandOver, WakeupStep, Warned, Sound, Init, HeadIsShorter, Pristine, Threatened, SameBursts;
    if schedule == [] {
      WarnedInit(resume, w, clock);
    } else {
      var n := |schedule| - 1;
      var s := Run(pol, w, clock, schedule[..n]);
      RunWarned(resume, w, clock, schedule[..n]);
      if schedule[n] == WakeupThread {
        BurstsWakeup(pol, s);
        WakeupQuiet(pol, s);
        WarnedSame(w, s, WakeupStep(pol, s));
      } else if Polling(s.spc) {
        WarnedPoll(w, s);
      } else if Charging(s.spc) {
        RunSound(pol, w, clock, schedule[..n]);
        SoundCharge(resume, s);
        RunLines(pol, w, clock, schedule[..n]);
        if s.spc.STest? && HeadIsShorter(s, s.spc.pid) && Pristine(At(s, s.spc.pid)) {
          InRangeHand(s);
          ThreatAtTest(resume, w, clock, schedule[..n], s.spc.pid);
        }
        WarnedCharge(resume, w, s);
      } else {
        BurstsHandOver(pol, s);
        assert !HandOver(pol, s).spc.SSwapEnd? by { NoCutBegins(pol, s); }
        WarnedSame(w, s, HandOver(pol, s));
      }
    }
  }

  lemma InRangeHand(s: State)
    requires Pointers(s) && Charging(s.spc)
    ensures s.spc.pid < |s.procs| && At(s, s.spc.pid) == s.procs[s.spc.pid]
  {
  }

  lemma NoCutBegins(pol: Policy, s: State)
    requires !Charging(s.spc) && !Polling(s.spc)
    ensures !HandOver(pol, s).spc.SSwapEnd?
  {
    hide ShouldTerminate, Enqueue, At, Replace;
  }

  lemma WarnedPoll(w: seq<Line>, s: State)
    requires Warned(w, s) && Polling(s.spc)
    ensures Warned(w, Poll(s))
  {
    hide Pristine, Threatened;
  }

  lemma WarnedInit(resume: bool, w: seq<Line>, clock: int)
    requires Admissible(Srtf(resume), w)
    ensures Warned(w, Init(Srtf(resume), w, clock))
  {
    hide Threatened, Arrived;
  }

  // ----- Every threat comes true in some run -----

  /** Preemptions are never forgotten. */
  lemma ScarStays(pol: Policy, s: State, t: Thread, p: nat)
    requires Pointers(s) && PcFits(pol, s) && SchedulerStage(s) && p < |s.procs|
    ensures var u := Step(pol, t, s); |u.procs| == |s.procs| && Scars(u.procs[p]) >= Scars(s.procs[p])
  {
    hide ChargeBurst, HandOver, WakeupStep, Scars, Pristine, Pointers, PcFits, SchedulerStage, SameBursts, OnlyChanges;
    if t == WakeupThread {
      BurstsWakeup(pol, s);
      PristineSame(s.procs, WakeupStep(pol, s).procs, p);
    } else if Charging(s.spc) {
      ChargeChanges(pol, s);
      PristineCharge(pol, s);
      CutApart(s, ChargeBurst(pol, s), s.spc.pid);
    } else if !Polling(s.spc) {
      BurstsHandOver(pol, s);
      PristineSame(s.procs, HandOver(pol, s).procs, p);
    }
  }

  lemma {:induction false} ScarLasts(pol: Policy, w: seq<Line>, clock: int, a: seq<Thread>, b: seq<Thread>, p: nat)
    requires Supported(pol, w) && p < |w| && a <= b && |Run(pol, w, clock, a).procs| == |w|
    ensures |Run(pol, w, clock, b).procs| == |w|
    ensures Scars(Run(pol, w, clock, b).procs[p]) >= Scars(Run(pol, w, clock, a).procs[p])
    ensures Pristine(Run(pol, w, clock, b).procs[p]) ==> Pristine(Run(pol, w, clock, a).procs[p])
    decreases |b|
  {
    hide Run, Step, Scars, OnePlace, Counter, Tokens, ProcsOk, QueuesOk, WakeupStage, SchedulerStage, PcFits,
         Pointers;
    if a == b {
    } else {
      var n := |b| - 1;
      assert a <= b[..n];
      ScarLasts(pol, w, clock, a, b[..n], p);
      RunInv(pol, w, clock, b[..n]);
      RunSnoc(pol, w, clock, b[..n], b[n]);
      assert b[..n] + [b[n]] == b;
      ScarStays(pol, Run(pol, w, clock, b[..n]), b[n], p);
    }
  }

  /** The first two steps of a fresh burst: into the loop and one tick. */
  lemma FirstTick(pol: Policy, s: State, p: nat, y: nat)
    requires Sound(pol, s) && pol.Srtf? && Serving(pol, s, p, y) && s.spc == SStart(p) && Now(pol, s, p) >= 1
    ensures var t := SchedulerStep(pol, s);
            var u := SchedulerStep(pol, t);
            && t.spc == STick(p, 0, Now(pol, s, p)) && u.spc == STest(p, 1, Now(pol, s, p)) && u.wpc == s.wpc
            && At(u, p).remaining == Now(pol, s, p) - 1 && SameStand(s, u, p) && SameStand(s, u, y)
            && NeverCut(u.procs) && NeverCut(t.procs)
  {
    ServingFresh(pol, s, p, y);
    hide Sound, SchedulerStep, NeverCut, Rank, Serving, SameStand;
    TickOfFresh(pol, s, p, y);
  }

  lemma TickOfFresh(pol: Policy, s: State, p: nat, y: nat)
    requires pol.Srtf? && s.spc == SStart(p) && HasWork(s, p) && s.procs[p].remaining == Now(pol, s, p) >= 1
    requires y < |s.procs| && NeverCut(s.procs)
    ensures var t := SchedulerStep(pol, s);
            var u := SchedulerStep(pol, t);
            && t.spc == STick(p, 0, Now(pol, s, p)) && u.spc == STest(p, 1, Now(pol, s, p)) && u.wpc == s.wpc
            && At(u, p).remaining == Now(pol, s, p) - 1 && SameStand(s, u, p) && SameStand(s, u, y)
            && NeverCut(u.procs) && NeverCut(t.procs)
  {
    hide SchedulerStep, NeverCut, Rank;
    var t := IntoLoop(pol, s, p);
    TickOnce(pol, t, p, Now(pol, s, p));
    assert SameStand(t, SchedulerStep(pol, t), p) && SameStand(t, SchedulerStep(pol, t), y);
  }

  lemma ServingFresh(pol: Policy, s: State, p: nat, y: nat)
    requires Sound(pol, s) && pol.Srtf? && Serving(pol, s, p, y) && s.spc == SStart(p)
    ensures HasWork(s, p) && s.procs[p].remaining == Now(pol, s, p) && y < |s.procs| && NeverCut(s.procs)
  {
    hide Sound, NeverCut, Rank, Waits, Baseline;
    FreshBurst(pol, s, p);
  }

  lemma IntoLoop(pol: Policy, s: State, p: nat) returns (t: State)
    requires pol.Srtf? && s.spc == SStart(p) && HasWork(s, p) && s.procs[p].remaining == Now(pol, s, p)
    ensures t == SchedulerStep(pol, s) == s.(start := s.clock, spc := STick(p, 0, Now(pol, s, p)))
  {
    AtSliceStart(pol, s, p);
    StepOfScheduler(pol, s);
    t := SchedulerStep(pol, s);
  }

  lemma TickOnce(pol: Policy, t: State, p: nat, procTime: int)
    requires pol.Srtf? && t.spc == STick(p, 0, procTime) && procTime >= 1 && p < |t.procs| && NeverCut(t.procs)
    ensures var u := SchedulerStep(pol, t);
            && u.spc == STest(p, 1, procTime) && u.wpc == t.wpc && |u.procs| == |t.procs|
            && At(u, p).remaining == At(t, p).remaining - 1 && NeverCut(u.procs)
            && forall x | 0 <= x < |t.procs| :: SameStand(t, u, x)
  {
    AtTick(pol, t, p, 0, procTime);
    StepOfScheduler(pol, t);
    hide SchedulerStep, Step, Refill;
  }

  lemma FreshBurst(pol: Policy, s: State, p: nat)
    requires Sound(pol, s) && pol.Srtf? && NeverCut(s.procs) && s.spc == SStart(p) && HasWork(s, p)
    ensures s.procs[p].remaining == Now(pol, s, p)
  {
    hide OnePlace, Counter, Tokens, PcFits, QueuesOk, ProcsOk, SchedulerStage, WakeupStage, KeyFacts, Keys, Shorter,
         Nesting, DoneOk, MidBurst, AllCpuEnded;
    assert AtRest(s.procs[p]);
  }

  /** With q back and well below, the test succeeds and the next two steps preempt p. */
  lemma Preempted(pol: Policy, s: State, p: nat, q: nat)
    requires Sound(pol, s) && pol.Srtf? && s.spc.STest? && s.spc.pid == p && HasWork(s, p) && HasWork(s, q)
    requires Has(s.ready, q) && NeverCut(s.procs) && Now(pol, s, q) < At(s, p).remaining
    ensures var t := SchedulerStep(pol, s);
            var u := SchedulerStep(pol, t);
            p < |u.procs| && |u.procs| == |s.procs| && !Pristine(u.procs[p])
  {
    var m :| 0 <= m < |s.ready| && s.ready[m].pid == q;
    ReadyKey(pol, s, q, m);
    HeadIsLeast(pol.resume, s);
    assert HeadIsShorter(s, p);
    hide Sound, NeverCut, Rank;
    AtTest(pol, s, p, s.spc.time, s.spc.procTime);
    StepOfScheduler(pol, s);
    var t := SchedulerStep(pol, s);
    AtSwapEnd(pol, t, p);
    StepOfScheduler(pol, t);
  }

  lemma SrtfNow(pol: Policy, w: seq<Line>, s: State, x: nat, a: nat)
    requires pol.Srtf? && Stands(w, s, x, a) && a < |w[x].cpu|
    ensures HasWork(s, x) && Now(pol, s, x) == w[x].cpu[a]
  {
  }

  /** Two scheduler steps in a row. */
  lemma TwoSteps(pol: Policy, w: seq<Line>, clock: int, a: seq<Thread>)
    requires Admissible(pol, w)
    ensures Run(pol, w, clock, a + [SchedulerThread]) == SchedulerStep(pol, Run(pol, w, clock, a))
    ensures Run(pol, w, clock, a + [SchedulerThread] + [SchedulerThread])
         == SchedulerStep(pol, SchedulerStep(pol, Run(pol, w, clock, a)))
  {
    hide Run, SchedulerStep, Step;
    RunSnoc(pol, w, clock, a, SchedulerThread);
    RunSnoc(pol, w, clock, a + [SchedulerThread], SchedulerThread);
    StepOfScheduler(pol, Run(pol, w, clock, a));
    StepOfScheduler(pol, SchedulerStep(pol, Run(pol, w, clock, a)));
  }

  /** From p at the head of the queue with q asleep to p's preemption. */
  lemma CarryOut(pol: Policy, w: seq<Line>, clock: int, a: seq<Thread>, p: nat, q: nat, k: nat, j: nat)
      returns (b: seq<Thread>)
    requires Ranked(pol, w) && pol.Srtf? && Threatens(w, p, q, k, j)
    requires var s := Run(pol, w, clock, a);
             Poised(pol, s, p, q) && HeadIs(s, p) && Stands(w, s, p, k) && Stands(w, s, q, j)
    ensures |Run(pol, w, clock, b).procs| == |w| && !Pristine(Run(pol, w, clock, b).procs[p])
  {
    hide Run, Sound, SchedulerStep, Step, Poised, HeadIs, NotAhead, RingOf, Rank, Has, SameBursts, NeverCut,
         Pristine, Meets, Waits, Serving;
    var s := Run(pol, w, clock, a);
    RunSound(pol, w, clock, a);
    DispatchesHead(pol, s, p, q);
    TwoSteps(pol, w, clock, a);
    var a1 := a + [SchedulerThread];
    var s1 := Run(pol, w, clock, a1);
    Standing(w, s, s1, p, k);
    Standing(w, s, s1, q, j);
    SrtfNow(pol, w, s1, p, k);
    RunSound(pol, w, clock, a1);
    FirstTick(pol, s1, p, q);
    ServingQuiet(pol, s1, p, q);
    TwoSteps(pol, w, clock, a1);
    var a2 := a1 + [SchedulerThread] + [SchedulerThread];
    var s2 := Run(pol, w, clock, a2);
    Standing(w, s1, s2, p, k);
    Standing(w, s1, s2, q, j);
    SrtfNow(pol, w, s2, p, k);
    SrtfNow(pol, w, s2, q, j);
    var a3 := Drain(pol, w, clock, a2, q, p);
    var s3 := Run(pol, w, clock, a3);
    BurstStands(s2, s3, p);
    BurstStands(s2, s3, q);
    Standing(w, s2, s3, p, k);
    Standing(w, s2, s3, q, j);
    SrtfNow(pol, w, s3, p, k);
    SrtfNow(pol, w, s3, q, j);
    NeverCutSame(s2.procs, s3.procs);
    SameRemaining(s2, s3, p);
    RunSound(pol, w, clock, a3);
    AllReady(pol, s3, q);
    Preempted(pol, s3, p, q);
    TwoSteps(pol, w, clock, a3);
    b := a3 + [SchedulerThread] + [SchedulerThread];
    RunLines(pol, w, clock, b);
  }

  lemma ServingQuiet(pol: Policy, s: State, p: nat, q: nat)
    requires Serving(pol, s, p, q)
    ensures Waking(s.wpc)
  {
  }

  lemma SameRemaining(s: State, t: State, p: nat)
    requires SameBursts(s.procs, t.procs)
    ensures At(t, p).remaining == At(s, p).remaining
  {
    if p < |s.procs| {
      assert SameBurst(s.procs[p], t.procs[p]);
    }
  }

  /** A threatened process is preempted in some run. */
  lemma ThreatComesTrue(pol: Policy, w: seq<Line>, clock: int, p: nat) returns (b: seq<Thread>)
    requires Ranked(pol, w) && pol.Srtf? && p < |w| && Threatened(w, p)
    ensures |Run(pol, w, clock, b).procs| == |w| && !Pristine(Run(pol, w, clock, b).procs[p])
  {
    hide Run, Sound, Poised, HeadIs, Asleep, Pristine;
    var q, k, j :| 0 <= q < |w| && 0 <= k < |w[p].cpu| && 0 <= j < |w[q].cpu| && Threatens(w, p, q, k, j);
    assert MeetAt(pol, w, p, q, k, j, true);
    var a := Arrange(pol, w, clock, p, q, k, j);
    RunSound(pol, w, clock, a);
    AsleepPoises(pol, Run(pol, w, clock, a), q, p);
    var c := HuntHead(pol, w, clock, a, p, q);
    Standing(w, Run(pol, w, clock, a), Run(pol, w, clock, c), p, k);
    Standing(w, Run(pol, w, clock, a), Run(pol, w, clock, c), q, j);
    b := CarryOut(pol, w, clock, c, p, q, k, j);
  }

  predicate CutIn(pol: Policy, w: seq<Line>, clock: int, schedule: seq<Thread>, p: nat)
    requires Admissible(pol, w)
  {
    var s := Run(pol, w, clock, schedule);
    p < |s.procs| && !Pristine(s.procs[p])
  }

  /** A process is preempted in some run if and only if a line of the workload threatens it. */
  lemma PreemptedIffThreatened(resume: bool, w: seq<Line>, clock: int, p: nat)
    requires Ranked(Srtf(resume), w) && p < |w|
    ensures (exists schedule :: CutIn(Srtf(resume), w, clock, schedule, p)) <==> Threatened(w, p)
  {
    hide Run, Pristine, Threatened;
    if Threatened(w, p) {
      var b := ThreatComesTrue(Srtf(resume), w, clock, p);
      assert CutIn(Srtf(resume), w, clock, b, p);
    }
    forall schedule | CutIn(Srtf(resume), w, clock, schedule, p) ensures Threatened(w, p) {
      RunWarned(resume, w, clock, schedule);
    }
  }

  /** As written SRTF gives a process the turnaround of its bursts in every complete run if and only
      if no line of the workload threatens it. */
  lemma TurnaroundRightIffUnthreatened(w: seq<Line>, clock: int, p: nat)
    requires Ranked(Srtf(false), w) && p < |w|
    ensures (forall schedule | Joined(Run(Srtf(false), w, clock, schedule)) ::
               PaysItsBursts(w, Run(Srtf(false), w, clock, schedule), p))
            <==> !Threatened(w, p)
  {
    hide Run, Pristine, Threatened, Joined, PaysItsBursts;
    if Threatened(w, p) {
      var a := ThreatComesTrue(Srtf(false), w, clock, p);
      var b := Completes(Srtf(false), w, clock, a);
      ScarLasts(Srtf(false), w, clock, a, b, p);
      PaysIffPristine(w, clock, b, p);
    } else {
      forall schedule | Joined(Run(Srtf(false), w, clock, schedule))
        ensures PaysItsBursts(w, Run(Srtf(false), w, clock, schedule), p)
      {
        RunWarned(false, w, clock, schedule);
        PaysIffPristine(w, clock, schedule, p);
      }
    }
  }

  predicate PaysItsBursts(w: seq<Line>, s: State, p: nat) {
    p < |w| && p < |s.procs| && s.procs[p].turnaround == Sum(w[p].cpu) + Sum(w[p].io)
  }

  lemma PaysIffPristine(w: seq<Line>, clock: int, schedule: seq<Thread>, p: nat)
    requires Ranked(Srtf(false), w) && p < |w| && Joined(Run(Srtf(false), w, clock, schedule))
    ensures var s := Run(Srtf(false), w, clock, schedule);
            |s.procs| == |w| && (PaysItsBursts(w, s, p) <==> Pristine(s.procs[p]))
  {
    hide Run, Preemptions, Sum, Pristine;
    TurnaroundUnderSrtf(false, w, clock, schedule, p);
    PristineAtEnd(Srtf(false), w, clock, schedule, p);
  }

  lemma {:induction false} TotalIsPositive(ps: seq<Proc>, p: nat)
    requires p < |ps|
    ensures TotalPreemptions(ps) >= Preemptions(ps[p].h.done)
  {
    if p < |ps| - 1 {
      TotalIsPositive(ps[..|ps| - 1], p);
    }
  }

  lemma {:induction false} TotalIsZero(ps: seq<Proc>)
    requires forall p | 0 <= p < |ps| :: Pristine(ps[p])
    ensures TotalPreemptions(ps) == 0
  {
    if ps != [] {
      TotalIsZero(ps[..|ps| - 1]);
    }
  }

  /** In the end all preemptions are those of finished bursts. */
  lemma PristineAtEnd(pol: Policy, w: seq<Line>, clock: int, schedule: seq<Thread>, p: nat)
    requires Supported(pol, w) && p < |w| && Joined(Run(pol, w, clock, schedule))
    ensures var s := Run(pol, w, clock, schedule);
            |s.procs| == |w| && (Pristine(s.procs[p]) <==> Preemptions(s.procs[p].h.done) == 0)
  {
    hide Run, Preemptions, OnePlace, Counter, ChargedAll;
    RunBalanced(pol, w, clock, schedule);
    RunLines(pol, w, clock, schedule);
    CleanFinish(pol, w, clock, schedule);
    assert Booked(Run(pol, w, clock, schedule), p);
  }

  /** Whoever was preempted leaves two lines more in the log than the bursts. */
  lemma ScarShowsInLog(resume: bool, w: seq<Line>, clock: int, schedule: seq<Thread>, p: nat)
    requires Ranked(Srtf(resume), w) && p < |w| && Joined(Run(Srtf(resume), w, clock, schedule))
    requires |Run(Srtf(resume), w, clock, schedule).procs| == |w|
    requires !Pristine(Run(Srtf(resume), w, clock, schedule).procs[p])
    ensures |Run(Srtf(resume), w, clock, schedule).log| >= Bursts(w) + 2
  {
    hide Run, Pristine, Joined, Preemptions, TotalPreemptions, Bursts;
    PristineAtEnd(Srtf(resume), w, clock, schedule, p);
    LogLength(resume, w, clock, schedule);
    TotalIsPositive(Run(Srtf(resume), w, clock, schedule).procs, p);
  }

  /** Every complete run logs as many lines as there are bursts, none of them a cut slice or a repeat,
      if and only if no line of the workload threatens another. */
  lemma LogExactIffUnthreatened(resume: bool, w: seq<Line>, clock: int)
    requires Ranked(Srtf(resume), w)
    ensures (forall schedule | Joined(Run(Srtf(resume), w, clock, schedule)) ::
               |Run(Srtf(resume), w, clock, schedule).log| == Bursts(w))
            <==> (forall p | 0 <= p < |w| :: !Threatened(w, p))
  {
    hide Run, Pristine, Threatened, Joined, TotalPreemptions, Bursts;
    forall p | 0 <= p < |w| && Threatened(w, p)
      ensures exists schedule :: Joined(Run(Srtf(resume), w, clock, schedule))
                && |Run(Srtf(resume), w, clock, schedule).log| != Bursts(w)
    {
      var a := ThreatComesTrue(Srtf(resume), w, clock, p);
      var b := Completes(Srtf(resume), w, clock, a);
      ScarLasts(Srtf(resume), w, clock, a, b, p);
      ScarShowsInLog(resume, w, clock, b, p);
    }
    if forall p | 0 <= p < |w| :: !Threatened(w, p) {
      forall schedule | Joined(Run(Srtf(resume), w, clock, schedule))
        ensures |Run(Srtf(resume), w, clock, schedule).log| == Bursts(w)
      {
        RunWarned(resume, w, clock, schedule);
        TotalIsZero(Run(Srtf(resume), w, clock, schedule).procs);
        LogLength(resume, w, clock, schedule);
      }
    }
  }
}
