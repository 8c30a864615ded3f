// Only SRTF preempts: under the other policies no burst is ever cut off.
module NoPreemption {
  import opened Workload
  import opened Protocol
  import opened Safety
  import opened Ledger

  predicate NoneCut(ps: seq<Proc>) {
    forall i | 0 <= i < |ps| ::
      ps[i].h.burst.preemptions == 0 && forall k | 0 <= k < |ps[i].h.done| :: ps[i].h.done[k].preemptions == 0
  }

  lemma NoneCutStep(pol: Policy, s: State, t: Thread)
    requires Pointers(s) && PcFits(pol, s) && !pol.Srtf? && NoneCut(s.procs)
    ensures NoneCut(Step(pol, t, s).procs)
  {
    hide ChargeBurst, HandOver, WakeupStep, InRange, PcFits, Pointers;
    if t == WakeupThread {
      BurstsWakeup(pol, s);
    } else if Charging(s.spc) {
      NoneCutCharge(pol, s);
    } else if !Polling(s.spc) {
      BurstsHandOver(pol, s);
    }
  }

  lemma NoneCutCharge(pol: Policy, s: State)
    requires Pointers(s) && PcFits(pol, s) && !pol.Srtf? && NoneCut(s.procs) && Charging(s.spc)
    ensures NoneCut(ChargeBurst(pol, s).procs)
  {
    hide HeadIsShorter, InRange;
  }

  lemma {:induction false} RunNoneCut(pol: Policy, w: seq<Line>, clock: int, schedule: seq<Thread>)
    requires Admissible(pol, w) && !pol.Srtf? && (pol.Rr? ==> pol.quantum >= 0)
    ensures NoneCut(Run(pol, w, clock, schedule).procs)
    decreases |schedule|
  {
    hide Step, OnePlace, Counter, Tokens, ProcsOk, QueuesOk, SchedulerStage, WakeupStage, PcFits, Pointers;
    if schedule != [] {
      var n := |schedule| - 1;
      RunNoneCut(pol, w, clock, schedule[..n]);
      RunInv(pol, w, clock, schedule[..n]);
      NoneCutStep(pol, Run(pol, w, clock, schedule[..n]), schedule[n]);
    }
  }

  lemma {:induction false} NoPreemptions(done: seq<Charge>)
    requires forall k | 0 <= k < |done| :: done[k].preemptions == 0
    ensures Preemptions(done) == 0
  {
    if done != [] {
      NoPreemptions(done[..|done| - 1]);
    }
  }
}
