// Exactly when SRTF's queue keys are the remaining times: when every line ends in a CPU burst.
module KeyAgreement {
  import opened Workload
  import opened QueueSpec
  import opened Protocol
  import opened Safety
  import opened Srtf
  import opened SrtfResults
  import opened Floor
  import opened Liveness

  /** The ready queue is sorted, and stored key, priority and remaining time are one number. */
  predicate Agrees(s: State) {
    && Sorted(s.ready)
    && forall i | 0 <= i < |s.ready| ::
         s.ready[i].key == At(s, s.ready[i].pid).priority == At(s, s.ready[i].pid).remaining
  }

  predicate PositiveBursts(w: seq<Line>) {
    forall i | 0 <= i < |w| :: AllPositive(w[i].cpu)
  }

  /** Terminated, or on its way there in the scheduler's hand. */
  predicate Ending(s: State, p: nat) {
    At(s, p).status == Terminated || s.spc == STermAdd(p) || s.spc == STermWrite(p)
  }

  predicate EndsInIo(l: Line) {
    |l.io| == |l.cpu| >= 1
  }

  /** At the head of the ready queue with no CPU burst left. */
  predicate StaleHead(s: State, p: nat) {
    s.ready != [] && s.ready[0].pid == p && At(s, p).cpuIndex >= |At(s, p).line.cpu|
  }

  lemma EndingCharge(pol: Policy, s: State, p: nat)
    requires Charging(s.spc) && Ending(ChargeBurst(pol, s), p)
    ensures Ending(s, p)
  {
    hide HeadIsShorter;
  }

  lemma EndingHandOver(pol: Policy, s: State, p: nat)
    requires Inv(pol, s) && !Charging(s.spc) && !Polling(s.spc) && p < |s.procs|
    requires Ending(HandOver(pol, s), p) && !Ending(s, p)
    ensures StaleHead(s, p)
  {
    hide OnePlace, Counter, Tokens, PcFits, WakeupStage, SchedulerStage, Enqueue, Alternating, ShouldTerminate;
    if (s.spc.SDeq? || s.spc.SSwapDeq?) && s.ready != [] {
      TerminateOnCpu(Handled(At(s, s.ready[0].pid)));
    }
  }

  lemma EndingWakeup(pol: Policy, s: State, p: nat)
    requires Inv(pol, s) && p < |s.procs| && EndsInIo(s.procs[p].line)
    requires Ending(WakeupStep(pol, s), p)
    ensures Ending(s, p)
  {
    hide OnePlace, Counter, Tokens, PcFits, SchedulerStage, Enqueue, ShouldTerminate;
    if s.wpc.WTermWrite? {
      TerminateOnIo(At(s, s.wpc.pid));
    }
  }

  /** A process that ends in I/O is found at the head of the ready queue, done, before it terminates. */
  lemma {:induction false} StaleBeforeEnding(pol: Policy, w: seq<Line>, clock: int, schedule: seq<Thread>, p: nat)
      returns (k: nat)
    requires Supported(pol, w) && p < |w| && EndsInIo(w[p])
    requires Ending(Run(pol, w, clock, schedule), p)
    ensures k <= |schedule| && StaleHead(Run(pol, w, clock, schedule[..k]), p)
    decreases |schedule|
  {
    hide Poll, ChargeBurst, HandOver, WakeupStep, Ending, StaleHead, Inv, Init;
    if schedule == [] {
      NobodyEndsAtFirst(pol, w, clock, p);
      assert false;
    }
    var n := |schedule| - 1;
    var s := Run(pol, w, clock, schedule[..n]);
    if Ending(s, p) {
      k := StaleBeforeEnding(pol, w, clock, schedule[..n], p);
      assert schedule[..n][..k] == schedule[..k];
    } else {
      k := n;
      RunInv(pol, w, clock, schedule[..n]);
      RunLines(pol, w, clock, schedule[..n]);
      if schedule[n] == WakeupThread {
        EndingWakeup(pol, s, p);
      } else if Polling(s.spc) {
        EndingPoll(s, p);
      } else if Charging(s.spc) {
        EndingCharge(pol, s, p);
      } else {
        EndingHandOver(pol, s, p);
      }
    }
  }

  lemma EndingPoll(s: State, p: nat)
    requires Polling(s.spc) && Ending(Poll(s), p)
    ensures Ending(s, p)
  {
  }

  lemma NobodyEndsAtFirst(pol: Policy, w: seq<Line>, clock: int, p: nat)
    requires Admissible(pol, w)
    ensures !Ending(Init(pol, w, clock), p)
  {
  }

  /** A stale key is never the remaining time. */
  lemma StaleDisagrees(resume: bool, s: State, p: nat)
    requires FloorInv(resume, s) && Inv(Srtf(resume), s) && StaleHead(s, p) && p < |s.procs|
    requires EndsInIo(s.procs[p].line) && AllPositive(s.procs[p].line.cpu)
    ensures !Agrees(s)
  {
    hide Sorted, OnePlace, Counter, Tokens, SchedulerStage, WakeupStage, AllPositive, AllSpent;
    if OnLoop(s.spc) != [p] {
      assert Rests(-AllSpent(s.procs), resume, s.procs[p]);
    }
  }

  /** Over bursts of at least one tick, key, priority and remaining time agree in every run, as
      written and corrected, if and only if every line ends in a CPU burst. */
  lemma KeysAgreeIffCpuEnded(resume: bool, w: seq<Line>, clock: int)
    requires Admissible(Srtf(resume), w) && PositiveBursts(w)
    ensures (forall schedule :: Agrees(Run(Srtf(resume), w, clock, schedule))) <==> CpuEndedWorkload(w)
  {
    var pol := Srtf(resume);
    hide Run, Agrees, StaleHead, Ending, FloorInv, Inv, AllPositive;
    if CpuEndedWorkload(w) {
      forall schedule ensures Agrees(Run(pol, w, clock, schedule)) {
        KeyAgreement(resume, w, clock, schedule);
        AgreesIs(Run(pol, w, clock, schedule));
      }
    } else {
      var p := NotCpuEnded(w);
      var all := Completes(pol, w, clock, []);
      assert Ending(Run(pol, w, clock, all), p) by {
        RunLines(pol, w, clock, all);
        TerminatedEnds(Run(pol, w, clock, all), p);
      }
      var k := StaleBeforeEnding(pol, w, clock, all, p);
      RunInv(pol, w, clock, all[..k]);
      RunFloor(resume, w, clock, all[..k]);
      RunLines(pol, w, clock, all[..k]);
      StaleDisagrees(resume, Run(pol, w, clock, all[..k]), p);
    }
  }

  lemma AgreesIs(s: State)
    requires Sorted(s.ready)
    requires forall i | 0 <= i < |s.ready| ::
               var p := At(s, s.ready[i].pid); s.ready[i].key == p.priority == p.remaining >= 1
    ensures Agrees(s)
  {
  }

  lemma TerminatedEnds(s: State, p: nat)
    requires CleanlyFinished(s) && p < |s.procs|
    ensures Ending(s, p)
  {
  }

  lemma NotCpuEnded(w: seq<Line>) returns (p: nat)
    requires Admissible(Srtf(true), w) && PositiveBursts(w) && !CpuEndedWorkload(w)
    ensures p < |w| && EndsInIo(w[p])
  {
    p :| p < |w| && !CpuEnded(w[p]);
    assert WellFormed(w[p]) && AllPositive(w[p].cpu);
  }
}
