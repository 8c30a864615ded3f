// First-come-first-served: the CPU log does not depend on the interleaving.
module FcfsOrder {
  import opened Workload
  import opened QueueSpec
  import opened Protocol
  import opened Safety

  /** A log line without its times: which burst of which process. */
  datatype Slice = Slice(round: nat, pid: nat)

  /** Earlier round first, lower pid first within a round. */
  predicate Before(a: Slice, b: Slice) {
    a.round < b.round || (a.round == b.round && a.pid < b.pid)
  }

  predicate Ascending(s: seq<Slice>) {
    forall i, j | 0 <= i < j < |s| :: Before(s[i], s[j])
  }

  /** What the order argument needs of a state: each process's CPU index, the processes in order
      of their next dispatch, and the lines logged or about to be logged. */
  datatype View = View(idx: seq<nat>, ring: seq<nat>, lines: seq<Slice>)

  function Indices(ps: seq<Proc>): (r: seq<nat>)
    ensures |r| == |ps|
  {
    seq(|ps|, i requires 0 <= i < |ps| => ps[i].cpuIndex)
  }

  function Ring(s: State): seq<nat> {
    HandBefore(s.spc) + Pids(s.ready) + WPid(s.wpc) + Pids(s.wait) + HandAfter(s.spc)
  }

  function Slices(log: seq<Entry>): (r: seq<Slice>)
    ensures |r| == |log|
  {
    seq(|log|, i requires 0 <= i < |log| => Slice(log[i].cpuIndex, log[i].pid))
  }

  /** The burst that is charged but not yet logged. */
  function Pending(s: State): seq<Slice> {
    if s.spc.SPut? || s.spc.SPost? || s.spc.SLog? then [Slice(At(s, s.spc.pid).cpuIndex, s.spc.pid)] else []
  }

  function ViewOf(s: State): View {
    View(Indices(s.procs), Ring(s), Slices(s.log) + Pending(s))
  }

  function Current(v: View, p: nat): Slice
    requires p < |v.idx|
  {
    Slice(v.idx[p], p)
  }

  function Next(v: View, p: nat): Slice
    requires p < |v.idx|
  {
    Slice(v.idx[p] + 1, p)
  }

  ghost predicate RingInRange(v: View) {
    forall i | 0 <= i < |v.ring| :: v.ring[i] < |v.idx|
  }

  /** The ring is a rotation of the live pids: ascending by last burst run, then by pid. */
  ghost predicate RingAscends(v: View)
    requires RingInRange(v)
  {
    forall i, j | 0 <= i < j < |v.ring| :: Before(Current(v, v.ring[i]), Current(v, v.ring[j]))
  }

  /** Nobody is a full round ahead of a process still in the ring. */
  ghost predicate WithinARound(v: View)
    requires RingInRange(v)
  {
    forall q, i | 0 <= q < |v.idx| && 0 <= i < |v.ring| :: Before(Current(v, q), Next(v, v.ring[i]))
  }

  /** Exactly the bursts already run are logged. */
  ghost predicate LinesExact(idx: seq<nat>, lines: seq<Slice>) {
    && (forall x | x in lines :: x.pid < |idx| && 1 <= x.round <= idx[x.pid])
    && (forall p, k | 0 <= p < |idx| && 1 <= k <= idx[p] :: Slice(k, p) in lines)
  }

  ghost predicate Ordered(v: View) {
    RingInRange(v) && RingAscends(v) && WithinARound(v) && Ascending(v.lines) && LinesExact(v.idx, v.lines)
  }

  // ----- The three ways a step can change the view -----

  ghost predicate Retires(a: View, b: View) {
    && b.idx == a.idx && b.lines == a.lines
    && exists k: nat :: k < |a.ring| && b.ring == a.ring[..k] + a.ring[k + 1..]
  }

  ghost predicate RunsHead(a: View, b: View) {
    && a.ring != [] && a.ring[0] < |a.idx|
    && b.idx == a.idx[a.ring[0] := a.idx[a.ring[0]] + 1]
    && b.ring == a.ring[1..] + [a.ring[0]]
    && b.lines == a.lines + [Next(a, a.ring[0])]
  }

  lemma RetireKeeps(a: View, b: View)
    requires Ordered(a) && Retires(a, b)
    ensures Ordered(b)
  {
    hide LinesExact, Ascending;
    var k: nat :| k < |a.ring| && b.ring == a.ring[..k] + a.ring[k + 1..];
    RingWithout(a, b, k);
    hide RingAscends;
    forall q, i | 0 <= q < |b.idx| && 0 <= i < |b.ring| ensures Before(Current(b, q), Next(b, b.ring[i])) {
      assert Before(Current(a, q), Next(a, a.ring[if i < k then i else i + 1]));
    }
  }

  lemma RingWithout(a: View, b: View, k: nat)
    requires RingInRange(a) && RingAscends(a) && b.idx == a.idx
    requires k < |a.ring| && b.ring == a.ring[..k] + a.ring[k + 1..]
    ensures RingInRange(b) && RingAscends(b)
    ensures forall i | 0 <= i < |b.ring| :: b.ring[i] == a.ring[if i < k then i else i + 1]
  {
    hide Before;
  }

  lemma RunKeepsRing(a: View, b: View)
    requires Ordered(a) && RunsHead(a, b)
    ensures RingInRange(b) && RingAscends(b) && WithinARound(b)
  {
    var p, n := a.ring[0], |a.ring| - 1;
    forall i | 0 <= i < n ensures b.ring[i] == a.ring[i + 1] && b.ring[i] != p {
      assert Before(Current(a, a.ring[0]), Current(a, a.ring[i + 1]));
    }
    assert b.ring[n] == p;
    forall i, j | 0 <= i < j < |b.ring| ensures Before(Current(b, b.ring[i]), Current(b, b.ring[j])) {
      if j == n {
        assert Before(Current(a, a.ring[i + 1]), Next(a, a.ring[0]));
      } else {
        assert Before(Current(a, a.ring[i + 1]), Current(a, a.ring[j + 1]));
      }
    }
    forall q, i | 0 <= q < |b.idx| && 0 <= i < |b.ring| ensures Before(Current(b, q), Next(b, b.ring[i])) {
      if i < n {
        assert Before(Current(a, q), Next(a, a.ring[i + 1]));
        assert Before(Current(a, p), Current(a, a.ring[i + 1]));
      } else {
        assert Before(Current(a, q), Next(a, a.ring[0]));
      }
    }
  }

  lemma RunKeepsLines(a: View, b: View)
    requires Ordered(a) && RunsHead(a, b)
    ensures Ascending(b.lines) && LinesExact(b.idx, b.lines)
  {
    var p, x := a.ring[0], Next(a, a.ring[0]);
    forall e | e in a.lines ensures Before(e, x) {
      assert Before(Current(a, e.pid), Next(a, a.ring[0]));
    }
    forall i | 0 <= i < |a.lines| ensures Before(a.lines[i], x) {
      assert a.lines[i] in a.lines;
    }
    assert b.lines[|a.lines|] == x;
    forall q, k | 0 <= q < |b.idx| && 1 <= k <= b.idx[q] ensures Slice(k, q) in b.lines {
      if !(q == p && k == b.idx[p]) {
        assert Slice(k, q) in a.lines;
      }
    }
  }

  lemma ChangeKeeps(a: View, b: View)
    requires Ordered(a) && (b == a || Retires(a, b) || RunsHead(a, b))
    ensures Ordered(b)
  {
    hide Retires, RunsHead, RingAscends, WithinARound, LinesExact, Ascending, RingInRange;
    if b != a {
      if Retires(a, b) {
        RetireKeeps(a, b);
      } else {
        RunKeepsRing(a, b);
        RunKeepsLines(a, b);
      }
    }
  }

  // ----- Every step changes the view in one of these ways, or not at all -----

  lemma SliceAppend(log: seq<Entry>, e: Entry)
    ensures Slices(log + [e]) == Slices(log) + [Slice(e.cpuIndex, e.pid)]
  {
  }

  lemma SameIndices(a: seq<Proc>, b: seq<Proc>, pid: nat)
    requires OnlyChanges(a, b, pid) && (pid < |a| ==> b[pid].cpuIndex == a[pid].cpuIndex)
    ensures Indices(b) == Indices(a)
  {
  }

  lemma ViewCharge(s: State)
    requires Inv(Fcfs, s) && Charging(s.spc)
    ensures var a, b := ViewOf(s), ViewOf(ChargeBurst(Fcfs, s)); b == a || RunsHead(a, b)
  {
    hide OnePlace, Tokens, Counter, QueuesOk, WakeupStage, ProcsOk, HeadIsShorter, InRange;
    if s.spc.SEnd? {
      ViewClose(s);
    } else {
      hide RunsHead, Pids;
      ChargeChanges(Fcfs, s);
      SameIndices(s.procs, ChargeBurst(Fcfs, s).procs, s.spc.pid);
    }
  }

  lemma ViewClose(s: State)
    requires Pointers(s) && SchedulerStage(s) && PcFits(Fcfs, s) && s.spc.SEnd?
    ensures RunsHead(ViewOf(s), ViewOf(ChargeBurst(Fcfs, s)))
  {
    hide InRange, Pids;
    var t, p := ChargeBurst(Fcfs, s), s.spc.pid;
    assert Indices(t.procs) == Indices(s.procs)[p := At(s, p).cpuIndex + 1];
    assert ViewOf(t).ring == ViewOf(s).ring[1..] + [p];
    assert ViewOf(t).lines == ViewOf(s).lines + [Next(ViewOf(s), p)];
  }

  lemma IndicesHandOver(s: State)
    requires Pointers(s) && !Charging(s.spc) && !Polling(s.spc)
    ensures Indices(HandOver(Fcfs, s).procs) == Indices(s.procs)
  {
    hide InRange, ShouldTerminate, Enqueue;
  }

  lemma RingDequeue(s: State)
    requires Pointers(s) && QueuesOk(s) && s.spc.SDeq? && s.ready != []
    ensures Ring(HandOver(Fcfs, s)) == Ring(s)
  {
    hide ShouldTerminate, Pids, InRange;
    DequeueMembers(s.ready);
  }

  lemma RingPut(s: State)
    requires s.spc.SPut?
    ensures Ring(HandOver(Fcfs, s)) == Ring(s)
  {
    hide Pids;
    AppendMembers(s.wait, Node(s.spc.pid, 0));
  }

  lemma RingHandOver(s: State)
    requires PcFits(Fcfs, s) && Pointers(s) && SchedulerStage(s) && QueuesOk(s) && !Charging(s.spc) && !Polling(s.spc)
    requires s.spc.SDeq? ==> s.ready != []
    ensures Ring(HandOver(Fcfs, s)) == if s.spc.STermWrite? then Ring(s)[1..] else Ring(s)
  {
    hide ShouldTerminate, Finish, Pids, InRange, SchedulerDequeue, Enqueue, At, Replace;
    match s.spc {
      case SDeq => RingDequeue(s);
      case SPut(_) => RingPut(s);
      case _ =>
    }
  }

  lemma LinesHandOver(s: State)
    requires PcFits(Fcfs, s) && !Charging(s.spc) && !Polling(s.spc)
    requires Indices(HandOver(Fcfs, s).procs) == Indices(s.procs)
    ensures ViewOf(HandOver(Fcfs, s)).lines == ViewOf(s).lines
  {
    hide ShouldTerminate, Replace, Finish, Handled, Enqueue, Ring;
    if s.spc.SLog? {
      SliceAppend(s.log, Entry(s.spc.pid, At(s, s.spc.pid).cpuIndex, s.start, s.end));
    }
  }

  lemma ViewHandOver(s: State)
    requires Inv(Fcfs, s) && !Charging(s.spc) && !Polling(s.spc)
    ensures var a, b := ViewOf(s), ViewOf(HandOver(Fcfs, s)); b == a || Retires(a, b)
  {
    hide HandOver, OnePlace, Counter, QueuesOk, WakeupStage, ProcsOk, InRange, Pids, Indices, SchedulerStage, PcFits;
    IndicesHandOver(s);
    RingHandOver(s);
    LinesHandOver(s);
    var a, b := ViewOf(s), ViewOf(HandOver(Fcfs, s));
    if s.spc.STermWrite? {
      assert b.ring == a.ring[..0] + a.ring[0 + 1..];
    }
  }

  lemma IndicesWakeup(s: State)
    requires Pointers(s)
    ensures Indices(WakeupStep(Fcfs, s).procs) == Indices(s.procs)
  {
    hide InRange, ShouldTerminate, Enqueue;
  }

  lemma RingWakeupDequeue(s: State)
    requires WakeupStage(s) && QueuesOk(s) && ProcsOk(s.procs) && Pointers(s) && s.wpc.WDeq? && s.wait != []
    ensures Ring(WakeupStep(Fcfs, s)) == Ring(s)
  {
    hide ShouldTerminate, Pids, Alternating, InRange;
    DequeueMembers(s.wait);
    TerminateOnIo(Handled(At(s, s.wait[0].pid)));
  }

  lemma RingWakeupPut(s: State)
    requires s.wpc.WPut?
    ensures Ring(WakeupStep(Fcfs, s)) == Ring(s)
  {
    hide Pids;
    var node := Node(s.wpc.pid, 0);
    AppendMembers(s.ready, node);
    assert WakeupStep(Fcfs, s).ready == s.ready + [node];
  }

  lemma RingWakeupRetire(s: State)
    requires s.wpc.WTermWrite?
    ensures var k := |HandBefore(s.spc)| + |s.ready|;
            Ring(WakeupStep(Fcfs, s)) == Ring(s)[..k] + Ring(s)[k + 1..]
  {
    hide Pids, HandBefore, HandAfter;
    var t := WakeupStep(Fcfs, s);
    var a, b := HandBefore(s.spc) + Pids(s.ready), Pids(s.wait) + HandAfter(s.spc);
    assert Ring(s) == a + [s.wpc.pid] + b && Ring(t) == a + b;
    assert Ring(s)[..|a|] == a && Ring(s)[|a| + 1..] == b;
  }

  lemma RingWakeup(s: State)
    requires WakeupStage(s) && QueuesOk(s) && ProcsOk(s.procs) && Pointers(s)
    requires s.wpc.WDeq? ==> s.wait != []
    ensures var k := |HandBefore(s.spc)| + |s.ready|;
            Ring(WakeupStep(Fcfs, s)) == if s.wpc.WTermWrite? then Ring(s)[..k] + Ring(s)[k + 1..] else Ring(s)
  {
    hide ShouldTerminate, Finish, Pids, FinishIo, Alternating, WakeupDequeue, ProcOk, InRange, Enqueue, HandBefore,
         HandAfter;
    match s.wpc {
      case WDeq => RingWakeupDequeue(s);
      case WPut(_) => RingWakeupPut(s);
      case WTermWrite(_) => RingWakeupRetire(s);
      case _ =>
    }
  }

  lemma LinesWakeup(s: State)
    requires Pointers(s) && Indices(WakeupStep(Fcfs, s).procs) == Indices(s.procs)
    ensures ViewOf(WakeupStep(Fcfs, s)).lines == ViewOf(s).lines
  {
    var t := WakeupStep(Fcfs, s);
    assert t.spc == s.spc && t.log == s.log by {
      hide ShouldTerminate, Replace, Finish, Handled, Enqueue, Ring, StartIo, FinishIo, Indices, InRange;
    }
    hide WakeupStep, Ring, InRange;
    if Pending(s) != [] {
      assert Indices(t.procs)[s.spc.pid] == Indices(s.procs)[s.spc.pid];
    }
  }

  lemma ViewWakeup(s: State)
    requires Inv(Fcfs, s)
    ensures var a, b := ViewOf(s), ViewOf(WakeupStep(Fcfs, s)); b == a || Retires(a, b)
  {
    hide WakeupStep, OnePlace, Counter, QueuesOk, WakeupStage, ProcsOk, InRange, Pids, Indices, SchedulerStage, PcFits;
    IndicesWakeup(s);
    RingWakeup(s);
    LinesWakeup(s);
    var a, b := ViewOf(s), ViewOf(WakeupStep(Fcfs, s));
    if s.wpc.WTermWrite? {
      var k := |HandBefore(s.spc)| + |s.ready|;
      assert k < |a.ring|;
    }
  }

  lemma StepOrdered(t: Thread, s: State)
    requires Inv(Fcfs, s) && Ordered(ViewOf(s))
    ensures Ordered(ViewOf(Step(Fcfs, t, s)))
  {
    hide Inv, ViewOf, Ordered, ChargeBurst, HandOver, WakeupStep, Retires, RunsHead;
    if t == WakeupThread {
      ViewWakeup(s);
    } else if Charging(s.spc) {
      ViewCharge(s);
    } else if Polling(s.spc) {
      assert ViewOf(Poll(s)) == ViewOf(s) by { ViewPoll(s); }
    } else {
      ViewHandOver(s);
    }
    ChangeKeeps(ViewOf(s), ViewOf(Step(Fcfs, t, s)));
  }

  lemma ViewPoll(s: State)
    requires Polling(s.spc)
    ensures ViewOf(Poll(s)) == ViewOf(s)
  {
    hide Indices, Pids, Slices;
  }

  lemma {:induction false} ArrivedInOrder(ps: seq<Proc>, k: nat)
    requires k <= |ps|
    ensures forall i | 0 <= i < k :: Pids(Arrived(Fcfs, ps, k))[i] == i
  {
    if k > 0 {
      ArrivedInOrder(ps, k - 1);
      AppendMembers(Arrived(Fcfs, ps, k - 1), Node(k - 1, 0));
    }
  }

  lemma InitOrdered(w: seq<Line>, clock: int)
    requires Admissible(Fcfs, w)
    ensures Ordered(ViewOf(Init(Fcfs, w, clock)))
  {
    var s := Init(Fcfs, w, clock);
    ArrivedInOrder(s.procs, |s.procs|);
    assert Ring(s) == Pids(s.ready);
  }

  lemma {:induction false} RunOrdered(w: seq<Line>, clock: int, schedule: seq<Thread>)
    requires Admissible(Fcfs, w)
    ensures Ordered(ViewOf(Run(Fcfs, w, clock, schedule)))
    decreases |schedule|
  {
    hide Inv, Ordered, ViewOf, Step;
    if schedule == [] {
      InitOrdered(w, clock);
    } else {
      var n := |schedule| - 1;
      RunOrdered(w, clock, schedule[..n]);
      RunInv(Fcfs, w, clock, schedule[..n]);
      StepOrdered(schedule[n], Run(Fcfs, w, clock, schedule[..n]));
    }
  }

  // ----- The log every complete run produces -----

  /** Round k over the first n processes: those with at least k CPU bursts, by pid. */
  function Round(w: seq<Line>, k: nat, n: nat): seq<Slice>
    requires n <= |w|
  {
    if n == 0 then []
    else Round(w, k, n - 1) + (if |w[n - 1].cpu| >= k then [Slice(k, n - 1)] else [])
  }

  function Rounds(w: seq<Line>, k: nat): seq<Slice> {
    if k == 0 then [] else Rounds(w, k - 1) + Round(w, k, |w|)
  }

  function MostBursts(w: seq<Line>): nat {
    if w == [] then 0
    else
      var m, b := MostBursts(w[..|w| - 1]), |w[|w| - 1].cpu|;
      if b > m then b else m
  }

  /** All CPU bursts of the workload, round by round and by pid within a round. */
  function ExpectedLog(w: seq<Line>): seq<Slice> {
    Rounds(w, MostBursts(w))
  }

  lemma {:induction false} RoundMembers(w: seq<Line>, k: nat, n: nat)
    requires n <= |w|
    ensures Ascending(Round(w, k, n))
    ensures forall x :: x in Round(w, k, n) <==> x.round == k && x.pid < n && |w[x.pid].cpu| >= k
  {
    if n > 0 {
      RoundMembers(w, k, n - 1);
      var r := Round(w, k, n - 1);
      forall i | 0 <= i < |r| ensures r[i].pid < n - 1 && r[i].round == k {
        assert r[i] in r;
      }
    }
  }

  lemma AscendingAppend(a: seq<Slice>, b: seq<Slice>)
    requires Ascending(a) && Ascending(b)
    requires forall x, y | x in a && y in b :: Before(x, y)
    ensures Ascending(a + b)
  {
    forall i, j | 0 <= i < j < |a + b| ensures Before((a + b)[i], (a + b)[j]) {
      if i < |a| <= j {
        assert a[i] in a && b[j - |a|] in b;
      }
    }
  }

  lemma {:induction false} RoundsMembers(w: seq<Line>, k: nat)
    ensures Ascending(Rounds(w, k))
    ensures forall x :: x in Rounds(w, k) <==> 1 <= x.round <= k && x.pid < |w| && |w[x.pid].cpu| >= x.round
  {
    if k > 0 {
      RoundsMembers(w, k - 1);
      RoundMembers(w, k, |w|);
      AscendingAppend(Rounds(w, k - 1), Round(w, k, |w|));
    }
  }

  lemma {:induction false} MostBurstsBounds(w: seq<Line>)
    ensures forall i | 0 <= i < |w| :: |w[i].cpu| <= MostBursts(w)
  {
    if w != [] {
      MostBurstsBounds(w[..|w| - 1]);
    }
  }

  lemma HasMember(b: seq<Slice>)
    requires b != []
    ensures exists x :: x in b
  {
    assert b[0] in b;
  }

  /** An ascending list is determined by its members. */
  lemma {:induction false} AscendingUnique(a: seq<Slice>, b: seq<Slice>)
    requires Ascending(a) && Ascending(b) && forall x :: x in a <==> x in b
    ensures a == b
  {
    if a == [] {
      if b != [] {
        HasMember(b);
        assert false;
      }
    } else {
      assert a[0] in b && b[0] in a;
      assert a[0] == b[0];
      forall x ensures x in a[1..] <==> x in b[1..] {
        if x in a[1..] {
          assert x in a && x != a[0];
        }
        if x in b[1..] {
          assert x in b && x != b[0];
        }
      }
      AscendingUnique(a[1..], b[1..]);
    }
  }

  /** Whatever the interleaving, a complete run logs exactly the bursts of the workload, ordered
      by CPU index and then by pid. */
  lemma LogIsScheduleIndependent(w: seq<Line>, clock: int, schedule: seq<Thread>)
    requires Admissible(Fcfs, w) && Joined(Run(Fcfs, w, clock, schedule))
    ensures Slices(Run(Fcfs, w, clock, schedule).log) == ExpectedLog(w)
  {
    hide Run, ExpectedLog, Rounds;
    var s := Run(Fcfs, w, clock, schedule);
    var log := Slices(s.log);
    RunOrdered(w, clock, schedule);
    RunLines(Fcfs, w, clock, schedule);
    CleanFinish(Fcfs, w, clock, schedule);
    assert ViewOf(s).lines == log;
    RoundsMembers(w, MostBursts(w));
    MostBurstsBounds(w);
    assert ExpectedLog(w) == Rounds(w, MostBursts(w)) by { ExpectedIs(w); }
    forall x ensures x in log <==> x in ExpectedLog(w) {
      if x in ExpectedLog(w) {
        assert Slice(x.round, x.pid) in log;
      }
    }
    AscendingUnique(log, ExpectedLog(w));
  }

  lemma ExpectedIs(w: seq<Line>)
    ensures ExpectedLog(w) == Rounds(w, MostBursts(w))
  {
  }
}
