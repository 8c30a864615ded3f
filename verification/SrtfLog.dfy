// How long the SRTF log gets: unwinding nested calls logs the last runner once more per call.
module SrtfLog {
  import opened Workload
  import opened Protocol
  import opened Safety
  import opened Ledger
  import opened Srtf

  /** The log lines a process accounts for: one per finished burst and two per preemption. */
  function Lines(p: Proc): nat {
    |p.h.done| + 2 * (Preemptions(p.h.done) + p.h.burst.preemptions)
  }

  function AllLines(ps: seq<Proc>): nat {
    if ps == [] then 0 else AllLines(ps[..|ps| - 1]) + Lines(ps[|ps| - 1])
  }

  /** Lines written, plus those the suspended calls and the step under way still owe. */
  predicate Counted(s: State) {
    |s.log| + s.depth + Flag(s.spc.SSwapPut? || s.spc.SSwapDeq?) + Flag(s.spc.SPut? || s.spc.SPost? || s.spc.SLog?)
    == AllLines(s.procs)
  }

  lemma {:induction false} AllLinesUpdate(ps: seq<Proc>, k: nat, p: Proc)
    requires k < |ps|
    ensures AllLines(ps[k := p]) == AllLines(ps) - Lines(ps[k]) + Lines(p)
  {
    var n := |ps| - 1;
    if k == n {
      assert ps[k := p][..n] == ps[..n];
    } else {
      assert ps[k := p][..n] == ps[..n][k := p];
      AllLinesUpdate(ps[..n], k, p);
    }
  }

  lemma {:induction false} AllLinesSame(a: seq<Proc>, b: seq<Proc>)
    requires SameBursts(a, b)
    ensures AllLines(a) == AllLines(b)
  {
    if a != [] {
      var n := |a| - 1;
      assert SameBurst(a[n], b[n]);
      assert SameBursts(a[..n], b[..n]);
      AllLinesSame(a[..n], b[..n]);
    }
  }

  lemma LinesCharged(resume: bool, s: State)
    requires Pointers(s) && Charging(s.spc) && PcFits(Srtf(resume), s) && SchedulerStage(s)
    ensures var t := ChargeBurst(Srtf(resume), s);
            && s.spc.pid < |s.procs| && |t.procs| == |s.procs|
            && Lines(t.procs[s.spc.pid]) - Lines(s.procs[s.spc.pid])
               == |t.log| - |s.log| + Flag(t.spc.SPut?) + Flag(t.spc.SSwapPut?)
            && t.depth == s.depth && !t.spc.SSwapDeq? && !t.spc.SPost? && !t.spc.SLog?
  {
    hide InRange, HeadIsShorter, Preemptions;
    CloseTicks(s.procs[s.spc.pid].h.done, s.procs[s.spc.pid].h.burst);
  }

  lemma CountedCharge(resume: bool, s: State)
    requires Pointers(s) && Charging(s.spc) && PcFits(Srtf(resume), s) && SchedulerStage(s) && Counted(s)
    ensures Counted(ChargeBurst(Srtf(resume), s))
  {
    hide ChargeBurst, Lines, PcFits, SchedulerStage;
    var t, pid := ChargeBurst(Srtf(resume), s), s.spc.pid;
    LinesCharged(resume, s);
    ChargeChanges(Srtf(resume), s);
    assert t.procs == s.procs[pid := t.procs[pid]];
    AllLinesUpdate(s.procs, pid, t.procs[pid]);
  }

  lemma CountedHandOver(resume: bool, s: State)
    requires Counted(s) && !Charging(s.spc) && !Polling(s.spc) && PcFits(Srtf(resume), s)
    requires !s.spc.STermAdd? && !s.spc.STermWrite? && (Idle(s.spc) ==> s.depth == 0)
    requires s.spc.SDeq? || s.spc.SSwapDeq? ==> s.ready != []
    ensures Counted(HandOver(Srtf(resume), s))
  {
    hide SameBursts, AllLines, ShouldTerminate, Enqueue, At, Replace, Handled, Finish;
    BurstsHandOver(Srtf(resume), s);
    AllLinesSame(s.procs, HandOver(Srtf(resume), s).procs);
  }

  lemma CountedWakeup(resume: bool, s: State)
    requires Counted(s)
    ensures Counted(WakeupStep(Srtf(resume), s))
  {
    hide SameBursts, AllLines, ShouldTerminate, Enqueue, At, Replace;
    BurstsWakeup(Srtf(resume), s);
    AllLinesSame(s.procs, WakeupStep(Srtf(resume), s).procs);
  }

  lemma {:induction false} NothingLogged(ps: seq<Proc>)
    requires forall i | 0 <= i < |ps| :: ps[i].h == History(0, NO_CHARGE, [])
    ensures AllLines(ps) == 0
  {
    if ps != [] {
      NothingLogged(ps[..|ps| - 1]);
    }
  }

  lemma CountedPoll(s: State)
    requires Counted(s) && Polling(s.spc)
    ensures Counted(Poll(s))
  {
  }

  lemma {:induction false} RunCounted(resume: bool, w: seq<Line>, clock: int, schedule: seq<Thread>)
    requires Admissible(Srtf(resume), w) && CpuEndedWorkload(w)
    ensures Counted(Run(Srtf(resume), w, clock, schedule))
    decreases |schedule|
  {
    var pol := Srtf(resume);
    hide Poll, ChargeBurst, HandOver, WakeupStep, OnePlace, Counter, SchedulerStage, WakeupStage, QueuesOk,
         Resting, Done, MidBurst, Keys, Shorter, Nesting, PcFits;
    if schedule == [] {
      NothingLogged(Init(pol, w, clock).procs);
    } else {
      var n := |schedule| - 1;
      var s := Run(pol, w, clock, schedule[..n]);
      RunCounted(resume, w, clock, schedule[..n]);
      RunInv(pol, w, clock, schedule[..n]);
      RunSrtf(resume, w, clock, schedule[..n]);
      hide Counted;
      if schedule[n] == WakeupThread {
        CountedWakeup(resume, s);
      } else if Polling(s.spc) {
        CountedPoll(s);
      } else if Charging(s.spc) {
        CountedCharge(resume, s);
      } else {
        NoTermination(resume, s);
        CountedHandOver(resume, s);
      }
    }
  }

  function Bursts(w: seq<Line>): nat {
    if w == [] then 0 else Bursts(w[..|w| - 1]) + |w[|w| - 1].cpu|
  }

  function TotalPreemptions(ps: seq<Proc>): nat {
    if ps == [] then 0 else TotalPreemptions(ps[..|ps| - 1]) + Preemptions(ps[|ps| - 1].h.done)
  }

  lemma {:induction false} LinesOfFinished(ps: seq<Proc>, w: seq<Line>)
    requires |ps| == |w|
    requires forall i | 0 <= i < |ps| :: |ps[i].h.done| == |w[i].cpu| && ps[i].h.burst == NO_CHARGE
    ensures AllLines(ps) == Bursts(w) + 2 * TotalPreemptions(ps)
  {
    if ps != [] {
      LinesOfFinished(ps[..|ps| - 1], w[..|w| - 1]);
    }
  }

  /** A complete run logs every burst once, and two lines more for every preemption: the slice
      that was cut off and, on the way out of the nested call, the last runner again. */
  lemma LogLength(resume: bool, w: seq<Line>, clock: int, schedule: seq<Thread>)
    requires Admissible(Srtf(resume), w) && CpuEndedWorkload(w)
    requires Joined(Run(Srtf(resume), w, clock, schedule))
    ensures var s := Run(Srtf(resume), w, clock, schedule);
            |s.log| == Bursts(w) + 2 * TotalPreemptions(s.procs)
  {
    hide Run, OnePlace, Counter, ChargedAll, AllLines, Bursts, TotalPreemptions, Resting, Done, MidBurst, Keys, Nesting;
    var s := Run(Srtf(resume), w, clock, schedule);
    RunCounted(resume, w, clock, schedule);
    RunSrtf(resume, w, clock, schedule);
    RunBalanced(Srtf(resume), w, clock, schedule);
    RunLines(Srtf(resume), w, clock, schedule);
    CleanFinish(Srtf(resume), w, clock, schedule);
    forall i | 0 <= i < |s.procs| ensures |s.procs[i].h.done| == |w[i].cpu| && s.procs[i].h.burst == NO_CHARGE {
      assert Booked(s, i);
    }
    LinesOfFinished(s.procs, w);
  }
}
