// The keys in the two queues of SJF and SRTF, against the bursts they stand for.
module QueueKeys {
  import opened Workload
  import opened QueueSpec
  import opened Protocol
  import opened Safety
  import opened Srtf
  import opened SjfKeys
  import opened NoPreemption

  /** The policies that keep their queues sorted, on the workloads their key theorems are about. */
  predicate Ranked(pol: Policy, w: seq<Line>) {
    pol.Keyed() && Admissible(pol, w) && (pol.Srtf? ==> CpuEndedWorkload(w))
  }

  /** The key a process queues with before each of its bursts: under SJF the first burst for ever,
      under SRTF the burst itself. */
  function Rank(pol: Policy, l: Line): (r: seq<int>)
    ensures |r| == |l.cpu|
  {
    if pol.Srtf? then l.cpu else seq(|l.cpu|, i requires 0 <= i < |l.cpu| => l.cpu[0])
  }

  /** The key is the rank of the current burst, or below it by what was run before a preemption. */
  predicate RankOk(pol: Policy, p: Proc) {
    p.cpuIndex < |p.line.cpu| ==>
      var r := Rank(pol, p.line)[p.cpuIndex];
      && p.priority <= r - p.h.burst.preemptions
      && (p.h.burst.preemptions == 0 ==> p.priority == r)
  }

  /** Only a process that is ready or running can have been preempted in its current burst. */
  predicate Uncut(s: State) {
    && (s.spc.SSwapPut? ==> At(s, s.spc.pid).h.burst.preemptions >= 1)
    && (forall i | 0 <= i < |s.procs| && s.procs[i].status == Sleep :: s.procs[i].h.burst.preemptions == 0)
    && (s.wpc.WPut? ==> At(s, s.wpc.pid).h.burst.preemptions == 0)
  }

  predicate WaitKeys(s: State) {
    Sorted(s.wait) && forall i | 0 <= i < |s.wait| :: s.wait[i].key == At(s, s.wait[i].pid).priority
  }

  /** Off the CPU every process has the key of its rank. */
  predicate Ranks(pol: Policy, s: State) {
    forall i | 0 <= i < |s.procs| && OnLoop(s.spc) != [i] :: RankOk(pol, s.procs[i])
  }

  ghost predicate KeyFacts(pol: Policy, s: State) {
    Keys(s) && WaitKeys(s) && Uncut(s) && Ranks(pol, s)
  }

  // ----- The wait queue and the preemption marks -----

  lemma WaitKeysApart(s: State, t: State, pid: nat)
    requires OnePlace(s) && WaitKeys(s) && (HandBefore(s.spc) == [pid] || HandAfter(s.spc) == [pid])
    requires OnlyChanges(s.procs, t.procs, pid) && t.wait == s.wait
    ensures WaitKeys(t)
  {
    hide OnePlace;
    OnlyInHand(s, pid);
  }

  lemma WaitKeysSame(s: State, t: State)
    requires WaitKeys(s) && SameBursts(s.procs, t.procs)
    requires t.wait == s.wait || (s.wait != [] && t.wait == s.wait[1..])
    ensures WaitKeys(t)
  {
  }

  lemma WaitKeysInsert(s: State, t: State, pid: nat)
    requires WaitKeys(s) && SameBursts(s.procs, t.procs)
    requires t.wait == Insert(s.wait, Node(pid, At(s, pid).priority))
    ensures WaitKeys(t)
  {
    InsertKeepsSorted(s.wait, Node(pid, At(s, pid).priority));
    InsertMembers(s.wait, Node(pid, At(s, pid).priority));
    forall i | 0 <= i < |t.wait| ensures t.wait[i].key == At(t, t.wait[i].pid).priority {
      assert t.wait[i] in t.wait;
    }
  }

  lemma WaitKeysHandOver(pol: Policy, s: State)
    requires pol.Keyed() && WaitKeys(s) && !Polling(s.spc) && !Charging(s.spc) && !s.spc.SSwapPost?
    ensures WaitKeys(HandOver(pol, s))
  {
    hide ShouldTerminate, Insert, WaitKeys, SameBursts;
    var t := HandOver(pol, s);
    BurstsHandOver(pol, s);
    if s.spc.SPut? {
      WaitKeysInsert(s, t, s.spc.pid);
    } else {
      WaitKeysSame(s, t);
    }
  }

  lemma WaitKeysWakeup(pol: Policy, s: State)
    requires WaitKeys(s)
    ensures WaitKeys(WakeupStep(pol, s))
  {
    hide ShouldTerminate, Enqueue, WaitKeys, SameBursts;
    BurstsWakeup(pol, s);
    WaitKeysSame(s, WakeupStep(pol, s));
  }

  lemma UncutCharge(pol: Policy, s: State)
    requires Charging(s.spc) && Uncut(s) && Pointers(s) && SchedulerStage(s) && OnePlace(s) && PcFits(pol, s)
    ensures Uncut(ChargeBurst(pol, s))
  {
    hide OnePlace, InRange, HeadIsShorter, ProcOk, ChargeBurst, OnlyChanges, Pointers, SchedulerStage, PcFits;
    OnlyInHand(s, s.spc.pid);
    ChargeChanges(pol, s);
    UncutHand(pol, s);
    UncutApart(s, ChargeBurst(pol, s), s.spc.pid);
  }

  lemma UncutHand(pol: Policy, s: State)
    requires Charging(s.spc) && Pointers(s) && SchedulerStage(s) && PcFits(pol, s)
    ensures var t := ChargeBurst(pol, s);
            var q := At(t, s.spc.pid);
            && (q.status == Sleep ==> q.h.burst.preemptions == 0)
            && (t.spc.SSwapPut? ==> t.spc.pid == s.spc.pid && q.h.burst.preemptions >= 1)
  {
    hide InRange, HeadIsShorter;
  }

  lemma UncutApart(s: State, t: State, pid: nat)
    requires Uncut(s) && OnlyChanges(s.procs, t.procs, pid) && t.wpc == s.wpc && WPid(s.wpc) != [pid]
    requires At(t, pid).status == Sleep ==> At(t, pid).h.burst.preemptions == 0
    requires t.spc.SSwapPut? ==> t.spc.pid == pid && At(t, pid).h.burst.preemptions >= 1
    ensures Uncut(t)
  {
  }

  lemma UncutHandOver(pol: Policy, s: State)
    requires !Charging(s.spc) && !Polling(s.spc) && Uncut(s) && Pointers(s)
    ensures Uncut(HandOver(pol, s))
  {
    hide HandOver, SameBursts;
    BurstsHandOver(pol, s);
    SleepersStay(pol, s);
    UncutSame(s, HandOver(pol, s));
  }

  lemma SleepersStay(pol: Policy, s: State)
    requires !Charging(s.spc) && !Polling(s.spc)
    ensures var t := HandOver(pol, s);
            && !t.spc.SSwapPut? && t.wpc == s.wpc && |t.procs| == |s.procs|
            && forall i | 0 <= i < |s.procs| :: t.procs[i].status == Sleep ==> s.procs[i].status == Sleep
  {
    hide ShouldTerminate, Enqueue, Replace, Handled, Finish;
    match s.spc {
      case STermWrite(p) => SleeperReplaced(s.procs, p, Finish(At(s, p)));
      case SDeq => if s.ready != [] { SleeperReplaced(s.procs, s.ready[0].pid, Handled(At(s, s.ready[0].pid))); }
      case SSwapDeq(_) => if s.ready != [] { SleeperReplaced(s.procs, s.ready[0].pid, Handled(At(s, s.ready[0].pid))); }
      case _ =>
    }
  }

  lemma SleeperReplaced(ps: seq<Proc>, pid: nat, q: Proc)
    requires pid < |ps| ==> q == Finish(ps[pid]) || q == Handled(ps[pid])
    ensures forall i | 0 <= i < |ps| :: Replace(ps, pid, q)[i].status == Sleep ==> ps[i].status == Sleep
  {
  }

  lemma UncutSame(s: State, t: State)
    requires Uncut(s) && SameBursts(s.procs, t.procs) && !t.spc.SSwapPut? && t.wpc == s.wpc
    requires forall i | 0 <= i < |s.procs| :: t.procs[i].status == Sleep ==> s.procs[i].status == Sleep
    ensures Uncut(t)
  {
    hide SameBurst;
    forall i | 0 <= i < |s.procs| ensures t.procs[i].h.burst == s.procs[i].h.burst {
      SameHistory(s.procs[i], t.procs[i]);
    }
  }

  lemma SameHistory(p: Proc, q: Proc)
    requires SameBurst(p, q)
    ensures q.h.burst == p.h.burst
  {
  }

  lemma UncutWakeup(pol: Policy, s: State)
    requires Uncut(s) && Pointers(s) && WakeupStage(s)
    ensures Uncut(WakeupStep(pol, s))
  {
    hide ShouldTerminate, Enqueue, InRange;
  }

  // ----- Ranks, policy by policy -----

  lemma RanksOfSrtf(resume: bool, s: State)
    requires SrtfInv(resume, s)
    ensures Ranks(Srtf(resume), s)
  {
    hide OnLoop;
    forall i | 0 <= i < |s.procs| && OnLoop(s.spc) != [i] ensures RankOk(Srtf(resume), s.procs[i]) {
      assert AtRest(s.procs[i]);
    }
  }

  lemma RanksOfSjf(w: seq<Line>, s: State)
    requires FirstBursts(w, s.procs) && NeverCut(s.procs)
    requires |s.procs| == |w| && forall i | 0 <= i < |w| :: s.procs[i].line == w[i]
    ensures Ranks(Sjf, s)
  {
  }

  /** Nobody has been preempted in its current burst. */
  predicate NeverCut(ps: seq<Proc>) {
    forall i | 0 <= i < |ps| :: ps[i].h.burst.preemptions == 0
  }

  lemma NoneIsNeverCut(ps: seq<Proc>)
    requires NoneCut(ps)
    ensures NeverCut(ps)
  {
  }

  // ----- Every run -----

  predicate Tidy(s: State) {
    WaitKeys(s) && Uncut(s)
  }

  lemma TidyInit(pol: Policy, w: seq<Line>, clock: int)
    requires Admissible(pol, w)
    ensures Tidy(Init(pol, w, clock))
  {
  }

  lemma TidyCharge(pol: Policy, s: State)
    requires Inv(pol, s) && Tidy(s) && Charging(s.spc)
    ensures Tidy(ChargeBurst(pol, s))
  {
    hide OnePlace, Counter, Tokens, PcFits, QueuesOk, ProcsOk, ChargeBurst, WaitKeys, Uncut, OnlyChanges,
         SchedulerStage, Pointers, WakeupStage;
    ChargeChanges(pol, s);
    WaitKeysApart(s, ChargeBurst(pol, s), s.spc.pid);
    UncutCharge(pol, s);
  }

  lemma TidyPoll(s: State)
    requires Tidy(s) && Polling(s.spc)
    ensures Tidy(Poll(s))
  {
    hide Sorted;
  }

  lemma {:induction false} RunTidy(pol: Policy, w: seq<Line>, clock: int, schedule: seq<Thread>)
    requires Admissible(pol, w) && pol.Keyed()
    ensures Tidy(Run(pol, w, clock, schedule))
    decreases |schedule|
  {
    hide Poll, ChargeBurst, HandOver, WakeupStep, WaitKeys, Uncut, OnePlace, Counter, Tokens, QueuesOk, ProcsOk,
         SchedulerStage, WakeupStage, Init;
    if schedule == [] {
      TidyInit(pol, w, clock);
    } else {
      var n := |schedule| - 1;
      var s := Run(pol, w, clock, schedule[..n]);
      RunTidy(pol, w, clock, schedule[..n]);
      RunInv(pol, w, clock, schedule[..n]);
      if schedule[n] == WakeupThread {
        WaitKeysWakeup(pol, s);
        UncutWakeup(pol, s);
      } else if Polling(s.spc) {
        TidyPoll(s);
      } else if Charging(s.spc) {
        TidyCharge(pol, s);
      } else {
        WaitKeysHandOver(pol, s);
        UncutHandOver(pol, s);
      }
    }
  }

  /** In every run of the two sorted policies both queues are sorted by their processes' keys, and
      the keys are what the bursts say. */
  lemma RunKeyFacts(pol: Policy, w: seq<Line>, clock: int, schedule: seq<Thread>)
    requires Ranked(pol, w)
    ensures KeyFacts(pol, Run(pol, w, clock, schedule))
  {
    hide Run, Keys, WaitKeys, Uncut, Ranks, FirstBursts, SrtfInv, NoneCut, NeverCut;
    var s := Run(pol, w, clock, schedule);
    RunTidy(pol, w, clock, schedule);
    if pol.Sjf? {
      RunKeys(w, clock, schedule);
      RunNoneCut(pol, w, clock, schedule);
      NoneIsNeverCut(s.procs);
      RunLines(pol, w, clock, schedule);
      RanksOfSjf(w, s);
    } else {
      RunSrtf(pol.resume, w, clock, schedule);
      RanksOfSrtf(pol.resume, s);
      SrtfKeys(pol.resume, s);
    }
  }

  lemma SrtfKeys(resume: bool, s: State)
    requires SrtfInv(resume, s)
    ensures Keys(s)
  {
  }
}
