// What round robin as written does with long bursts, and when its preemption branch can run.
module RoundRobinResults {
  import opened Workload
  import opened Protocol
  import opened Safety
  import opened FcfsOrder
  import opened OneShot
  import opened Timeline
  import opened RoundRobin

  lemma JoinedMatches(quantum: nat, s: State)
    requires Joined(s)
    ensures Joined(Match(quantum, s)) && Match(quantum, s).log == s.log
  {
  }

  lemma {:induction false} CutRound(w: seq<Line>, quantum: int, k: nat, n: nat)
    requires n <= |w|
    ensures Round(CutWorkload(w, quantum), k, n) == Round(w, k, n)
  {
    if n > 0 {
      CutRound(w, quantum, k, n - 1);
    }
  }

  lemma {:induction false} CutRounds(w: seq<Line>, quantum: int, k: nat)
    ensures Rounds(CutWorkload(w, quantum), k) == Rounds(w, k)
  {
    if k > 0 {
      CutRounds(w, quantum, k - 1);
      CutRound(w, quantum, k, |w|);
    }
  }

  lemma {:induction false} CutMostBursts(w: seq<Line>, quantum: int)
    ensures MostBursts(CutWorkload(w, quantum)) == MostBursts(w)
  {
    if w != [] {
      var n := |w| - 1;
      assert CutWorkload(w, quantum)[..n] == CutWorkload(w[..n], quantum);
      CutMostBursts(w[..n], quantum);
    }
  }

  /** Round robin logs the bursts in the FCFS order of the uncut workload, once each. */
  lemma RrLogIsFcfsLog(quantum: nat, w: seq<Line>, clock: int, schedule: seq<Thread>)
    requires Admissible(Rr(quantum), w) && Joined(Run(Rr(quantum), w, clock, schedule))
    ensures Slices(Run(Rr(quantum), w, clock, schedule).log) == ExpectedLog(w)
  {
    hide Run, Rounds, Match;
    RunSimulates(quantum, w, clock, schedule);
    JoinedMatches(quantum, Run(Rr(quantum), w, clock, schedule));
    LogIsScheduleIndependent(CutWorkload(w, quantum), clock, Matched(quantum, w, clock, schedule));
    CutMostBursts(w, quantum);
    CutRounds(w, quantum, MostBursts(w));
  }

  /** At every step of a round-robin run the logged slices follow one another without overlap, and
      each is at least as long as what the quantum leaves of its burst. */
  lemma RrLogIsATimeline(quantum: nat, w: seq<Line>, clock: int, schedule: seq<Thread>)
    requires Admissible(Rr(quantum), w)
    ensures var s := Run(Rr(quantum), w, clock, schedule);
            && Disjoint(s.log)
            && forall i | 0 <= i < |s.log| ::
                 var e := s.log[i];
                 && e.pid < |w| && 1 <= e.cpuIndex <= |w[e.pid].cpu|
                 && e.start + Cut(w[e.pid].cpu[e.cpuIndex - 1], quantum) <= e.end <= s.clock
  {
    hide Run, OnePlace, Counter, Tokens, Disjoint;
    var s := Run(Rr(quantum), w, clock, schedule);
    var m := Match(quantum, s);
    RunSimulates(quantum, w, clock, schedule);
    RunInv(Rr(quantum), w, clock, schedule);
    LogIsATimeline(Fcfs, CutWorkload(w, quantum), clock, Matched(quantum, w, clock, schedule));
    assert m.log == s.log && m.clock <= s.clock;
  }

  lemma {:induction false} CutSum(s: seq<int>, quantum: int)
    ensures Sum(CutAll(s, quantum)) <= Sum(s)
    ensures Sum(CutAll(s, quantum)) == Sum(s) <==> forall i | 0 <= i < |s| :: s[i] <= quantum
  {
    if s != [] {
      var n := |s| - 1;
      assert CutAll(s, quantum)[..n] == CutAll(s[..n], quantum);
      CutSum(s[..n], quantum);
      if forall i | 0 <= i < n :: s[..n][i] <= quantum {
        assert forall i | 0 <= i < n :: s[..n][i] == s[i];
      } else {
        var i :| 0 <= i < n && s[..n][i] > quantum;
        assert s[i] > quantum;
      }
    }
  }

  /** A complete run charges each burst up to the quantum and drops the rest, so a process pays its
      bursts in full exactly when none of them is longer than the quantum. */
  lemma TurnaroundUnderRr(quantum: nat, w: seq<Line>, clock: int, schedule: seq<Thread>, pid: nat)
    requires Admissible(Rr(quantum), w) && Joined(Run(Rr(quantum), w, clock, schedule)) && pid < |w|
    ensures var s := Run(Rr(quantum), w, clock, schedule);
            && |s.procs| == |w|
            && s.procs[pid].turnaround == Sum(CutAll(w[pid].cpu, quantum)) + Sum(w[pid].io)
            && (s.procs[pid].turnaround == Sum(w[pid].cpu) + Sum(w[pid].io)
                <==> forall k | 0 <= k < |w[pid].cpu| :: w[pid].cpu[k] <= quantum)
  {
    hide Run, Match;
    var s := Run(Rr(quantum), w, clock, schedule);
    RunSimulates(quantum, w, clock, schedule);
    JoinedMatches(quantum, s);
    RunLines(Rr(quantum), w, clock, schedule);
    TurnaroundIsTotalBurst(Fcfs, CutWorkload(w, quantum), clock, Matched(quantum, w, clock, schedule), pid);
    MatchTurnaround(quantum, s, pid);
    CutSum(w[pid].cpu, quantum);
  }

  lemma MatchTurnaround(quantum: nat, s: State, pid: nat)
    requires Joined(s) && pid < |s.procs|
    ensures |Match(quantum, s).procs| == |s.procs| && Match(quantum, s).procs[pid].turnaround == s.procs[pid].turnaround
  {
  }

  /** The scheduler runs alone for n steps. */
  function Alone(n: nat): (r: seq<Thread>)
    ensures |r| == n
  {
    seq(n, i => SchedulerThread)
  }

  lemma AloneStep(pol: Policy, s: State, n: nat)
    ensures Exec(pol, s, Alone(n + 1)) == SchedulerStep(pol, Exec(pol, s, Alone(n)))
    ensures Exec(pol, s, Alone(0)) == s
  {
    hide SchedulerStep;
    assert Alone(n + 1) == Alone(n) + [SchedulerThread];
    ExecSnoc(pol, s, Alone(n), SchedulerThread);
  }

  lemma PollTwice(pol: Policy, s: State)
    requires s.spc.SCheck? && s.terminated < |s.procs| && s.readyCount > 0
    ensures SchedulerStep(pol, SchedulerStep(pol, SchedulerStep(pol, s)))
         == s.(spc := SDeq, readyCount := s.readyCount - 1)
  {
    hide ChargeBurst, HandOver;
    assert SchedulerStep(pol, s) == s.(spc := SDone1);
    assert SchedulerStep(pol, s.(spc := SDone1)) == s.(spc := STry);
  }

  lemma FirstSlice(quantum: int, s: State)
    requires quantum < 0 && s.spc.SDeq? && s.ready != [] && s.ready[0].pid < |s.procs|
    requires var p := s.procs[s.ready[0].pid]; p.status == New && p.cpuIndex == 0 && p.ioIndex == 0 && |p.line.cpu| >= 1
    ensures var pol := Rr(quantum);
            SchedulerStep(pol, SchedulerStep(pol, SchedulerStep(pol, s))).spc.SSwapPut?
  {
    var pol, pid := Rr(quantum), s.ready[0].pid;
    var t := SchedulerStep(pol, s);
    assert t.spc == SStart(pid) && |t.procs| == |s.procs|;
    assert SchedulerStep(pol, t).spc.STick? && SchedulerStep(pol, t).spc.time == 0;
  }

  lemma NegativeQuantumPreempts(quantum: int, w: seq<Line>, clock: int)
    requires Admissible(Rr(quantum), w) && quantum < 0
    ensures Run(Rr(quantum), w, clock, Alone(6)).spc.SSwapPut?
  {
    var pol, s := Rr(quantum), Init(Rr(quantum), w, clock);
    hide SchedulerStep, Exec;
    forall n: nat | n < 6 ensures Exec(pol, s, Alone(n + 1)) == SchedulerStep(pol, Exec(pol, s, Alone(n))) {
      AloneStep(pol, s, n);
    }
    AloneStep(pol, s, 0);
    PollTwice(pol, s);
    FirstSlice(quantum, s.(spc := SDeq, readyCount := s.readyCount - 1));
    assert Alone(5 + 1) == Alone(6) && Alone(4 + 1) == Alone(5) && Alone(3 + 1) == Alone(4);
    assert Alone(2 + 1) == Alone(3) && Alone(1 + 1) == Alone(2) && Alone(0 + 1) == Alone(1);
  }

  /** The branch meant to preempt at the end of a quantum can run exactly when the quantum is
      negative: after a loop guarded by time < quantum, time is never above it. */
  lemma PreemptionBranchIsDead(quantum: int, w: seq<Line>, clock: int)
    requires Admissible(Rr(quantum), w)
    ensures (exists schedule :: Run(Rr(quantum), w, clock, schedule).spc.SSwapPut?) <==> quantum < 0
  {
    if quantum < 0 {
      NegativeQuantumPreempts(quantum, w, clock);
    } else {
      forall schedule ensures !Run(Rr(quantum), w, clock, schedule).spc.SSwapPut? {
        hide Run;
        RunInv(Rr(quantum), w, clock, schedule);
      }
    }
  }
}
