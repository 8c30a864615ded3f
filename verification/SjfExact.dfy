// Exactly when SJF keeps its rule: the process dispatched has the smallest burst among those ready.
module SjfExact {
  import opened Workload
  import opened Protocol
  import opened Safety
  import opened NoPreemption
  import opened QueueKeys
  import opened Pairwise
  import opened PairwiseSafety
  import opened PairwiseRuns

  /** The burst a process stands before. */
  function Burst(s: State, x: nat): int
    requires HasWork(s, x)
  {
    s.procs[x].line.cpu[s.procs[x].cpuIndex]
  }

  /** The rule of the manual, at the moment of a dispatch. */
  predicate PicksShortest(s: State) {
    s.spc.SDeq? && s.ready != [] && HasWork(s, s.ready[0].pid) ==>
      forall i | 0 <= i < |s.ready| && HasWork(s, s.ready[i].pid) ::
        Burst(s, s.ready[0].pid) <= Burst(s, s.ready[i].pid)
  }

  /** Process p, before its burst i, can be dispatched while q is ready before its burst j: p must not
      have the larger first burst. With the smaller one it may be any number of bursts ahead; between
      equal ones the two take turns, in the order of arrival. */
  predicate CanMeet(w: seq<Line>, p: nat, q: nat, i: nat, j: nat)
    requires p < |w| && q < |w| && |w[p].cpu| >= 1 && |w[q].cpu| >= 1
  {
    || (w[p].cpu[0] < w[q].cpu[0] && j <= i)
    || (w[p].cpu[0] == w[q].cpu[0] && (if p < q then j == i else j == i + 1))
  }

  /** Whenever the two can meet, the burst dispatched is no longer than the one left waiting. */
  predicate ShortInOrder(w: seq<Line>)
    requires forall p | 0 <= p < |w| :: |w[p].cpu| >= 1
  {
    forall p, q, i, j | 0 <= p < |w| && 0 <= q < |w| && p != q && 0 <= i < |w[p].cpu| && 0 <= j < |w[q].cpu| ::
      CanMeet(w, p, q, i, j) ==> w[p].cpu[i] <= w[q].cpu[j]
  }

  // ----- No run meets elsewhere -----

  lemma SjfRanks(l: Line)
    requires |l.cpu| >= 1
    ensures Constant(Rank(Sjf, l)) && Rank(Sjf, l)[0] == l.cpu[0]
  {
  }

  /** The head of the queue and another ready process stand where two processes can meet. */
  lemma MeetsAtDispatch(w: seq<Line>, clock: int, schedule: seq<Thread>, m: nat)
    requires Admissible(Sjf, w)
    requires var s := Run(Sjf, w, clock, schedule);
             0 < m < |s.ready| && HasWork(s, s.ready[0].pid) && HasWork(s, s.ready[m].pid)
    ensures var s := Run(Sjf, w, clock, schedule);
            var p, q := s.ready[0].pid, s.ready[m].pid;
            && p < |w| && q < |w| && p != q
            && CanMeet(w, p, q, s.procs[p].cpuIndex, s.procs[q].cpuIndex)
  {
    hide Run, Sound, NotAhead, Meets, NoneCut, Pristine;
    var s := Run(Sjf, w, clock, schedule);
    var p, q := s.ready[0].pid, s.ready[m].pid;
    RunSound(Sjf, w, clock, schedule);
    RunLines(Sjf, w, clock, schedule);
    RunNoneCut(Sjf, w, clock, schedule);
    assert Pristine(s.procs[p]) && NeverCut(s.procs) by { AllUncut(s.procs, p); }
    HeadAhead(s, m);
    DistinctHead(Sjf, s, m);
    RunPairs(Sjf, w, clock, schedule, p, q);
    ReadyKey(Sjf, s, p, 0);
    ReadyKey(Sjf, s, q, m);
    assert s.ready[0].key <= s.ready[m].key by { SoundQueues(Sjf, s); }
    SjfRanks(w[p]);
    SjfRanks(w[q]);
    MeetsConstant(Rank(Sjf, w[p]), Rank(Sjf, w[q]), p < q, s.procs[p].cpuIndex, s.procs[q].cpuIndex);
    hide Rank;
  }

  lemma AllUncut(ps: seq<Proc>, p: nat)
    requires NoneCut(ps) && p < |ps|
    ensures Pristine(ps[p]) && NeverCut(ps)
  {
    NoPreemptions(ps[p].h.done);
  }

  lemma HeadAhead(s: State, m: nat)
    requires 0 < m < |s.ready|
    ensures !NotAhead(RingOf(s), s.ready[0].pid, s.ready[m].pid)
  {
  }

  lemma DistinctHead(pol: Policy, s: State, m: nat)
    requires Sound(pol, s) && 0 < m < |s.ready|
    ensures s.ready[0].pid != s.ready[m].pid
  {
    hide KeyFacts, Counter, Tokens, PcFits, QueuesOk, ProcsOk, SchedulerStage, WakeupStage;
    ReadyDistinct(s);
  }

  // ----- Every meeting happens in some run -----

  lemma MeetingAllowed(w: seq<Line>, p: nat, q: nat, i: nat, j: nat)
    requires Admissible(Sjf, w) && p < |w| && q < |w| && p != q && i < |w[p].cpu| && j < |w[q].cpu|
    requires CanMeet(w, p, q, i, j)
    ensures MeetAt(Sjf, w, p, q, i, j, true) || (MeetAt(Sjf, w, p, q, i, j, false) && w[p].cpu[0] < w[q].cpu[0])
    ensures i == 0 && j == 0 ==> MeetAt(Sjf, w, p, q, i, j, true)
  {
    SjfRanks(w[p]);
    SjfRanks(w[q]);
    MeetsConstant(Rank(Sjf, w[p]), Rank(Sjf, w[q]), p < q, i, j);
    hide Rank, Meets;
  }

  lemma SjfNow(w: seq<Line>, s: State, x: nat, a: nat)
    requires Stands(w, s, x, a) && a < |w[x].cpu|
    ensures HasWork(s, x) && Now(Sjf, s, x) == w[x].cpu[0] && Burst(s, x) == w[x].cpu[a]
  {
  }

  /** p and q are both ready, p in front. */
  lemma BringTogether(w: seq<Line>, clock: int, p: nat, q: nat, i: nat, j: nat) returns (schedule: seq<Thread>)
    requires Admissible(Sjf, w) && p < |w| && q < |w| && p != q && i < |w[p].cpu| && j < |w[q].cpu|
    requires CanMeet(w, p, q, i, j)
    ensures var s := Run(Sjf, w, clock, schedule);
            Poised(Sjf, s, p, q) && Has(s.ready, q) && Stands(w, s, p, i) && Stands(w, s, q, j)
  {
    hide Run, Sound, Poised, Asleep, Has, MeetAt, Calm, NotAhead;
    MeetingAllowed(w, p, q, i, j);
    if i == 0 && j == 0 {
      StartPoises(Sjf, w, clock, p, q);
      StartReady(w, clock, q);
      schedule := [];
    } else if MeetAt(Sjf, w, p, q, i, j, true) {
      var before := Arrange(Sjf, w, clock, p, q, i, j);
      SjfNow(w, Run(Sjf, w, clock, before), p, i);
      SjfNow(w, Run(Sjf, w, clock, before), q, j);
      schedule := Wakes(Sjf, w, clock, before, p, q);
      Standing(w, Run(Sjf, w, clock, before), Run(Sjf, w, clock, schedule), p, i);
      Standing(w, Run(Sjf, w, clock, before), Run(Sjf, w, clock, schedule), q, j);
    } else {
      MeetAtTurned(Sjf, w, p, q, i, j, false);
      var before := Arrange(Sjf, w, clock, q, p, j, i);
      SjfNow(w, Run(Sjf, w, clock, before), p, i);
      SjfNow(w, Run(Sjf, w, clock, before), q, j);
      schedule := ComesBack(Sjf, w, clock, before, p, q);
      Standing(w, Run(Sjf, w, clock, before), Run(Sjf, w, clock, schedule), p, i);
      Standing(w, Run(Sjf, w, clock, before), Run(Sjf, w, clock, schedule), q, j);
    }
  }

  lemma StartReady(w: seq<Line>, clock: int, q: nat)
    requires Admissible(Sjf, w) && q < |w|
    ensures Has(Run(Sjf, w, clock, []).ready, q)
  {
    var s := Run(Sjf, w, clock, []);
    assert s == Init(Sjf, w, clock);
    ArrivedHas(Sjf, s.procs, q);
  }

  /** The sleeper comes back and, with a key that is no smaller, is queued behind. */
  lemma Wakes(pol: Policy, w: seq<Line>, clock: int, a: seq<Thread>, p: nat, q: nat) returns (b: seq<Thread>)
    requires Ranked(pol, w) && Asleep(pol, Run(pol, w, clock, a), q, p)
    requires var s := Run(pol, w, clock, a); HasWork(s, p) && HasWork(s, q) && Now(pol, s, q) >= Now(pol, s, p)
    ensures var s, t := Run(pol, w, clock, a), Run(pol, w, clock, b);
            Poised(pol, t, p, q) && SameStand(s, t, p) && SameStand(s, t, q) && Has(t.ready, q)
  {
    hide Run, Sound, SameBursts, NotAhead, RingOf, Rank, Has, Trails, NeverCut, Baseline;
    var s := Run(pol, w, clock, a);
    RunSound(pol, w, clock, a);
    AsleepPoises(pol, s, q, p);
    b := Drain(pol, w, clock, a, q, p);
    var t := Run(pol, w, clock, b);
    BurstStands(s, t, p);
    BurstStands(s, t, q);
    RunSound(pol, w, clock, b);
    AllReady(pol, t, p);
    AllReady(pol, t, q);
    WaitsIfReady(t, q);
  }

  lemma BreaksRule(w: seq<Line>, s: State, p: nat, q: nat, i: nat, j: nat)
    requires HeadIs(s, p) && Has(s.ready, q) && Stands(w, s, p, i) && Stands(w, s, q, j)
    requires i < |w[p].cpu| && j < |w[q].cpu| && w[q].cpu[j] < w[p].cpu[i]
    ensures !PicksShortest(s)
  {
    var m :| 0 <= m < |s.ready| && s.ready[m].pid == q;
    assert HasWork(s, s.ready[m].pid);
  }

  /** In every SJF run every dispatch picks a smallest current burst among the ready processes if and
      only if the workload is short in order, which can be read off its lines. */
  lemma SjfKeepsItsRuleIff(w: seq<Line>, clock: int)
    requires Admissible(Sjf, w)
    ensures (forall schedule :: PicksShortest(Run(Sjf, w, clock, schedule))) <==> ShortInOrder(w)
  {
    hide Run, PicksShortest, CanMeet, Poised, HeadIs, Has;
    if ShortInOrder(w) {
      forall schedule ensures PicksShortest(Run(Sjf, w, clock, schedule)) {
        RunKeepsRule(w, clock, schedule);
      }
    } else {
      var p, q, i, j :| 0 <= p < |w| && 0 <= q < |w| && p != q && 0 <= i < |w[p].cpu| && 0 <= j < |w[q].cpu|
        && CanMeet(w, p, q, i, j) && w[p].cpu[i] > w[q].cpu[j];
      var a := BringTogether(w, clock, p, q, i, j);
      var b := HuntHead(Sjf, w, clock, a, p, q);
      Standing(w, Run(Sjf, w, clock, a), Run(Sjf, w, clock, b), p, i);
      Standing(w, Run(Sjf, w, clock, a), Run(Sjf, w, clock, b), q, j);
      BreaksRule(w, Run(Sjf, w, clock, b), p, q, i, j);
    }
  }

  lemma RunKeepsRule(w: seq<Line>, clock: int, schedule: seq<Thread>)
    requires Admissible(Sjf, w) && ShortInOrder(w)
    ensures PicksShortest(Run(Sjf, w, clock, schedule))
  {
    hide Run, CanMeet;
    var s := Run(Sjf, w, clock, schedule);
    RunLines(Sjf, w, clock, schedule);
    if s.ready != [] && HasWork(s, s.ready[0].pid) {
      forall m | 0 <= m < |s.ready| && HasWork(s, s.ready[m].pid)
        ensures Burst(s, s.ready[0].pid) <= Burst(s, s.ready[m].pid)
      {
        if m > 0 {
          MeetsAtDispatch(w, clock, schedule, m);
        }
      }
    }
  }

  /** So the rule is kept if no burst of a process exceeds a burst of one with no smaller first burst. */
  lemma KeptByOrderedLines(w: seq<Line>, clock: int, schedule: seq<Thread>)
    requires Admissible(Sjf, w)
    requires forall p, q, i, j | 0 <= p < |w| && 0 <= q < |w| && p != q && 0 <= i < |w[p].cpu| && 0 <= j < |w[q].cpu| ::
               w[p].cpu[0] <= w[q].cpu[0] ==> w[p].cpu[i] <= w[q].cpu[j]
    ensures PicksShortest(Run(Sjf, w, clock, schedule))
  {
    RunKeepsRule(w, clock, schedule);
  }

  /** And it is broken by a later burst longer than the first burst of a process with a larger key. */
  lemma BrokenByLongerBurst(w: seq<Line>, clock: int, p: nat, q: nat, i: nat)
    requires Admissible(Sjf, w) && p < |w| && q < |w| && 1 <= i < |w[p].cpu|
    requires w[p].cpu[0] < w[q].cpu[0] < w[p].cpu[i]
    ensures exists schedule :: !PicksShortest(Run(Sjf, w, clock, schedule))
  {
    assert CanMeet(w, p, q, i, 0);
    assert !ShortInOrder(w);
    hide Run, PicksShortest, ShortInOrder;
    SjfKeepsItsRuleIff(w, clock);
  }
}
