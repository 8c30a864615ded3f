// Shortest job first as written: the key is set once, at arrival, to the first burst.
module SjfKeys {
  import opened Workload
  import opened QueueSpec
  import opened Protocol
  import opened Safety
  import opened Srtf

  predicate SameKeys(a: seq<Proc>, b: seq<Proc>) {
    |a| == |b| && forall i | 0 <= i < |a| :: b[i].priority == a[i].priority
  }

  /** Every process still has its first burst as its key. */
  predicate FirstBursts(w: seq<Line>, ps: seq<Proc>) {
    |ps| == |w| && forall i | 0 <= i < |w| :: |w[i].cpu| >= 1 && ps[i].priority == w[i].cpu[0]
  }

  lemma ChargeKeepsKeys(s: State)
    requires Charging(s.spc)
    ensures var t := ChargeBurst(Sjf, s);
            PcFits(Sjf, s) ==> SameKeys(s.procs, t.procs) && t.ready == s.ready
  {
    hide HeadIsShorter;
  }

  lemma HandOverKeepsKeys(s: State)
    requires !Polling(s.spc) && !Charging(s.spc) && PcFits(Sjf, s)
    ensures var t := HandOver(Sjf, s);
            && SameKeys(s.procs, t.procs)
            && (t.ready == s.ready || (s.ready != [] && t.ready == s.ready[1..]))
  {
    hide ShouldTerminate, Enqueue;
  }

  lemma SameKeysKeep(w: seq<Line>, s: State, t: State)
    requires Keys(s) && FirstBursts(w, s.procs) && SameKeys(s.procs, t.procs)
    requires t.ready == s.ready || (s.ready != [] && t.ready == s.ready[1..])
    ensures Keys(t) && FirstBursts(w, t.procs)
  {
  }

  lemma WakeupKeepsKeys(w: seq<Line>, s: State)
    requires Keys(s) && FirstBursts(w, s.procs)
    ensures Keys(WakeupStep(Sjf, s)) && FirstBursts(w, WakeupStep(Sjf, s).procs)
  {
    hide Keys, ShouldTerminate, Insert;
    var t := WakeupStep(Sjf, s);
    BurstsWakeup(Sjf, s);
    if s.wpc.WPut? {
      KeysInsert(s, t, s.wpc.pid);
    } else {
      KeysSame(s, t);
    }
  }

  lemma {:induction false} RunKeys(w: seq<Line>, clock: int, schedule: seq<Thread>)
    requires Admissible(Sjf, w)
    ensures Keys(Run(Sjf, w, clock, schedule)) && FirstBursts(w, Run(Sjf, w, clock, schedule).procs)
    decreases |schedule|
  {
    hide Keys, Poll, ChargeBurst, HandOver, WakeupStep, OnePlace, Counter, Tokens, SchedulerStage, WakeupStage,
         QueuesOk;
    if schedule == [] {
      InitKeys(w, clock);
    } else {
      var n := |schedule| - 1;
      var s := Run(Sjf, w, clock, schedule[..n]);
      RunKeys(w, clock, schedule[..n]);
      RunInv(Sjf, w, clock, schedule[..n]);
      if schedule[n] == WakeupThread {
        WakeupKeepsKeys(w, s);
      } else if Polling(s.spc) {
        PollKeepsKeys(w, s);
      } else if Charging(s.spc) {
        ChargeKeepsKeys(s);
        SameKeysKeep(w, s, ChargeBurst(Sjf, s));
      } else {
        HandOverKeepsKeys(s);
        SameKeysKeep(w, s, HandOver(Sjf, s));
      }
    }
  }

  lemma PollKeepsKeys(w: seq<Line>, s: State)
    requires Polling(s.spc) && Keys(s) && FirstBursts(w, s.procs)
    ensures Keys(Poll(s)) && FirstBursts(w, Poll(s).procs)
  {
    hide FirstBursts, Sorted;
  }

  lemma InitKeys(w: seq<Line>, clock: int)
    requires Admissible(Sjf, w)
    ensures Keys(Init(Sjf, w, clock)) && FirstBursts(w, Init(Sjf, w, clock).procs)
  {
    var s := Init(Sjf, w, clock);
    ArrivedKeys(Sjf, s.procs, |s.procs|);
    hide Arrived, Sorted;
    forall i | 0 <= i < |s.ready| ensures s.ready[i].key == At(s, s.ready[i].pid).priority {
      assert s.ready[i] in s.ready;
    }
  }

  /** In every run the process dispatched is one whose first burst, not its current one, is smallest
      among the ready processes. */
  lemma DispatchesByFirstBurst(w: seq<Line>, clock: int, schedule: seq<Thread>)
    requires Admissible(Sjf, w) && Run(Sjf, w, clock, schedule).spc.SDeq?
    ensures var s := Run(Sjf, w, clock, schedule);
            var t := SchedulerStep(Sjf, s);
            && s.ready != [] && SPid(t.spc) == [s.ready[0].pid] && s.ready[0].pid < |w|
            && forall i | 0 <= i < |s.ready| ::
                 s.ready[i].pid < |w| && w[s.ready[0].pid].cpu[0] <= w[s.ready[i].pid].cpu[0]
  {
    hide Run, OnePlace, Counter, PcFits, ShouldTerminate;
    RunKeys(w, clock, schedule);
    RunInv(Sjf, w, clock, schedule);
    var s := Run(Sjf, w, clock, schedule);
    assert OnCpu(At(s, s.ready[0].pid));
    forall i | 0 <= i < |s.ready|
      ensures s.ready[i].pid < |w| && w[s.ready[0].pid].cpu[0] <= w[s.ready[i].pid].cpu[0]
    {
      assert s.ready[0].key <= s.ready[i].key;
    }
  }
}
