// In every run of SJF and SRTF two processes meet only where the pairwise order lets them.
module PairwiseSafety {
  import opened Workload
  import opened QueueSpec
  import opened Protocol
  import opened Safety
  import opened Ledger
  import opened Srtf
  import opened QueueKeys
  import opened Pairwise

  function RingOf(s: State): Ring {
    Ring(HandBefore(s.spc), s.ready, WPid(s.wpc), s.wait, HandAfter(s.spc))
  }

  function SchedulerMove(pol: Policy, s: State): Move {
    if Charging(s.spc) then (if ChargeBurst(pol, s).spc.SPut? then Close else Stay)
    else
      match s.spc
      case SDeq => TakeReady
      case SSwapDeq(_) => TakeReady
      case STermWrite(_) => DropBefore
      case SSwapPut(pid) => Requeue(At(s, pid).priority)
      case SPut(pid) => PutWait(At(s, pid).priority)
      case _ => Stay
  }

  function WakeupMove(s: State): Move {
    match s.wpc
    case WDeq => TakeWait
    case WTermWrite(_) => DropWaking
    case WPut(pid) => PutReady(At(s, pid).priority)
    case _ => Stay
  }

  lemma ChargeMoves(pol: Policy, s: State)
    requires Charging(s.spc) && SchedulerStage(s)
    ensures Possible(RingOf(s), SchedulerMove(pol, s))
    ensures RingOf(ChargeBurst(pol, s)) == Apply(RingOf(s), SchedulerMove(pol, s))
  {
    hide HeadIsShorter, Refill, CloseBurst, Tick, Preempt, Replace;
  }

  lemma HandOverMoves(pol: Policy, s: State)
    requires !Charging(s.spc) && !Polling(s.spc) && pol.Keyed() && Inv(pol, s)
    ensures Possible(RingOf(s), SchedulerMove(pol, s))
    ensures RingOf(HandOver(pol, s)) == Apply(RingOf(s), SchedulerMove(pol, s))
  {
    if s.spc.SDeq? || s.spc.SSwapDeq? {
      hide OnePlace, Counter, WakeupStage, SchedulerStage, PcFits;
      assert s.ready != [] && s.ready[0].pid < |s.procs|;
      var p := At(s, s.ready[0].pid);
      assert OnCpu(p) && ProcOk(p);
      hide Inv;
      DequeueMoves(pol, s);
    } else {
      hide OnePlace, Counter, WakeupStage, SchedulerStage, ProcsOk, QueuesOk, Tokens, Pointers;
      assert PcFits(pol, s);
      hide Inv;
      OtherMoves(pol, s);
    }
  }

  lemma DequeueMoves(pol: Policy, s: State)
    requires (s.spc.SDeq? || s.spc.SSwapDeq?) && s.ready != [] && s.ready[0].pid < |s.procs|
    requires OnCpu(At(s, s.ready[0].pid)) && ProcOk(At(s, s.ready[0].pid))
    ensures Possible(RingOf(s), SchedulerMove(pol, s))
    ensures RingOf(HandOver(pol, s)) == Apply(RingOf(s), SchedulerMove(pol, s))
  {
    hide ShouldTerminate, Alternating;
  }

  lemma OtherMoves(pol: Policy, s: State)
    requires !Charging(s.spc) && !Polling(s.spc) && pol.Keyed() && PcFits(pol, s) && !s.spc.SDeq? && !s.spc.SSwapDeq?
    ensures Possible(RingOf(s), SchedulerMove(pol, s))
    ensures RingOf(HandOver(pol, s)) == Apply(RingOf(s), SchedulerMove(pol, s))
  {
    hide ShouldTerminate, Insert, SchedulerDequeue, SwapDequeue;
  }

  lemma WakeupMoves(pol: Policy, s: State)
    requires pol.Keyed() && Inv(pol, s)
    ensures Possible(RingOf(s), WakeupMove(s))
    ensures RingOf(WakeupStep(pol, s)) == Apply(RingOf(s), WakeupMove(s))
  {
    hide OnePlace, Counter, SchedulerStage, Insert, ShouldTerminate, Replace, InRange, HandBefore, HandAfter;
    if s.wpc.WDeq? {
      TerminateOnIo(Handled(At(s, s.wait[0].pid)));
    }
  }

  // ----- The invariant on two processes -----

  /** How often it was preempted. */
  function Scars(p: Proc): nat {
    Preemptions(p.h.done) + p.h.burst.preemptions
  }

  predicate Pristine(p: Proc) {
    Scars(p) == 0
  }

  predicate HasWork(s: State, x: nat) {
    x < |s.procs| && s.procs[x].cpuIndex < |s.procs[x].line.cpu|
  }

  /** The rank of the burst a process stands before. */
  function Now(pol: Policy, s: State, x: nat): int
    requires HasWork(s, x)
  {
    Rank(pol, s.procs[x].line)[s.procs[x].cpuIndex]
  }

  predicate MeetsIn(pol: Policy, s: State, x: nat, y: nat, second: bool)
    requires HasWork(s, x) && HasWork(s, y)
  {
    var p, q := s.procs[x], s.procs[y];
    Meets(Rank(pol, p.line), Rank(pol, q.line), x < y, p.cpuIndex, q.cpuIndex, second)
  }

  /** While x has never been preempted: whichever of the two was the last to finish a burst stands
      ahead of the other only if its key is strictly below. */
  predicate PairOk(pol: Policy, s: State, x: nat, y: nat) {
    HasWork(s, x) && HasWork(s, y) && Pristine(s.procs[x]) ==>
      || (MeetsIn(pol, s, x, y, true) && (Now(pol, s, y) < Now(pol, s, x) || NotAhead(RingOf(s), y, x)))
      || (MeetsIn(pol, s, x, y, false) && (Now(pol, s, x) < Now(pol, s, y) || NotAhead(RingOf(s), x, y)))
  }

  lemma RingDistinct(s: State, x: nat)
    requires OnePlace(s)
    ensures RingOf(s).Distinct()
    ensures HasWork(s, x) && ProcsOk(s.procs) ==> RingOf(s).Held()[x] == 1
  {
    forall p: nat ensures RingOf(s).Held()[p] <= 1 {
      assert Held(s)[p] <= 1;
    }
    assert RingOf(s).Held() == Held(s);
    if HasWork(s, x) && ProcsOk(s.procs) {
      assert ProcOk(s.procs[x]);
    }
  }

  /** A move in which neither finishes a burst. */
  lemma PairStays(pol: Policy, s: State, t: State, m: Move, x: nat, y: nat)
    requires Possible(RingOf(s), m) && RingOf(t) == Apply(RingOf(s), m) && RingOf(s).Distinct() && x != y
    requires Sorted(s.ready) && Sorted(s.wait) && PairOk(pol, s, x, y)
    requires HasWork(t, x) && HasWork(t, y) && Pristine(t.procs[x]) ==>
               (&& HasWork(s, x) && HasWork(s, y) && Pristine(s.procs[x])
                && s.procs[x].line == t.procs[x].line && s.procs[x].cpuIndex == t.procs[x].cpuIndex
                && s.procs[y].line == t.procs[y].line && s.procs[y].cpuIndex == t.procs[y].cpuIndex
                && BothStay(RingOf(s), m, y, x) && BothStay(RingOf(s), m, x, y)
                && (Now(pol, s, y) >= Now(pol, s, x) ==> PutsRight(RingOf(s), m, y, x))
                && (Now(pol, s, x) >= Now(pol, s, y) ==> PutsRight(RingOf(s), m, x, y)))
    ensures PairOk(pol, t, x, y)
  {
    hide RingOf, NotAhead, Possible, PutsRight, BothStay, Sorted, Apply, Pristine, Rank, Meets;
    if HasWork(t, x) && HasWork(t, y) && Pristine(t.procs[x]) {
      var r := RingOf(s);
      if Now(pol, s, y) >= Now(pol, s, x) && NotAhead(r, y, x) {
        assert Sorted(r.ready) && Sorted(r.wait) by { RingQueues(s); }
        StaysBehind(r, m, y, x);
      }
      if Now(pol, s, x) >= Now(pol, s, y) && NotAhead(r, x, y) {
        assert Sorted(r.ready) && Sorted(r.wait) by { RingQueues(s); }
        StaysBehind(r, m, x, y);
      }
    }
  }

  lemma RingQueues(s: State)
    ensures RingOf(s).ready == s.ready && RingOf(s).wait == s.wait
  {
  }

  /** Where a process in hand stands, whoever the other is. */
  lemma InHandLeads(r: Ring, z: nat, x: nat)
    requires r.Distinct() && r.before == [z] && z != x
    ensures !NotAhead(r, z, x)
    ensures Possible(r, Close) ==> NotAhead(Apply(r, Close), z, x)
  {
    OnlyPlace(r, z);
    OnlyPlace(r, x);
  }

  lemma PairCloses(pol: Policy, s: State, t: State, z: nat, x: nat, y: nat)
    requires RingOf(s).Distinct() && RingOf(s).before == [z] && (z == x || z == y) && x != y
    requires Possible(RingOf(s), Close) && RingOf(t) == Apply(RingOf(s), Close) && PairOk(pol, s, x, y)
    requires OnlyChanges(s.procs, t.procs, z) && z < |s.procs| && HasWork(s, z)
    requires t.procs[z].line == s.procs[z].line && t.procs[z].cpuIndex == s.procs[z].cpuIndex + 1
    requires x < |t.procs| && Pristine(t.procs[x]) ==> Pristine(s.procs[x])
    ensures PairOk(pol, t, x, y)
  {
    hide RingOf, NotAhead, Pristine, Rank, Apply, Possible;
    InHandLeads(RingOf(s), z, if z == x then y else x);
  }

  /** Putting one of the two into a queue: the key is its rank, and the other's is at most its own. */
  lemma PutsRightWait(pol: Policy, s: State, x: nat, y: nat)
    requires Inv(pol, s) && KeyFacts(pol, s) && s.spc.SPut? && HasWork(s, x) && HasWork(s, y)
    requires Now(pol, s, y) >= Now(pol, s, x)
    ensures PutsRight(RingOf(s), SchedulerMove(pol, s), y, x)
  {
    hide OnePlace, Counter, Tokens, WakeupStage, ProcsOk, Sorted, Rank, Keys;
    forall i | 0 <= i < |s.wait| && s.wait[i].pid == x && s.spc.pid == y
      ensures s.wait[i].key <= At(s, y).priority
    {
      assert RankOk(pol, s.procs[x]) && RankOk(pol, s.procs[y]);
      assert s.procs[x].status == Sleep;
    }
  }

  lemma PutsRightReady(pol: Policy, s: State, x: nat, y: nat)
    requires Inv(pol, s) && KeyFacts(pol, s) && s.wpc.WPut? && HasWork(s, x) && HasWork(s, y)
    requires Now(pol, s, y) >= Now(pol, s, x)
    ensures PutsRight(RingOf(s), WakeupMove(s), y, x)
  {
    hide Counter, Tokens, ProcsOk, QueuesOk, SchedulerStage, Sorted, Rank, WaitKeys, OnePlace;
    forall i | 0 <= i < |s.ready| && s.ready[i].pid == x && s.wpc.pid == y
      ensures s.ready[i].key <= At(s, y).priority
    {
      NotOnLoop(s, x, i);
      assert OnLoop(s.spc) != [y] by { NotOnLoopWaking(s, y); }
      assert RankOk(pol, s.procs[x]) && RankOk(pol, s.procs[y]);
    }
  }

  lemma NotOnLoop(s: State, x: nat, i: nat)
    requires OnePlace(s) && i < |s.ready| && s.ready[i].pid == x
    ensures OnLoop(s.spc) != [x]
  {
    hide OnePlace;
    if OnLoop(s.spc) == [x] {
      OnlyInHand(s, x);
    }
  }

  lemma NotOnLoopWaking(s: State, y: nat)
    requires OnePlace(s) && WPid(s.wpc) == [y]
    ensures OnLoop(s.spc) != [y]
  {
    hide OnePlace;
    OnlyInWakeupHand(s, y);
  }

  /** A preempted process is requeued below its rank, so before whoever has at least that rank. */
  lemma PutsRightRequeue(pol: Policy, s: State, x: nat, y: nat)
    requires Inv(pol, s) && KeyFacts(pol, s) && s.spc.SSwapPut? && HasWork(s, x) && HasWork(s, y)
    requires Pristine(s.procs[x])
    ensures PutsRight(RingOf(s), SchedulerMove(pol, s), y, x)
    ensures Now(pol, s, x) >= Now(pol, s, y) ==> PutsRight(RingOf(s), SchedulerMove(pol, s), x, y)
  {
    hide OnePlace, Counter, Tokens, WakeupStage, ProcsOk, QueuesOk, Sorted, Rank, WaitKeys;
    if s.spc.pid == y && Now(pol, s, x) >= Now(pol, s, y) {
      forall i | 0 <= i < |s.ready| && s.ready[i].pid == x
        ensures s.ready[i].key > At(s, y).priority
      {
        assert RankOk(pol, s.procs[x]) && RankOk(pol, s.procs[y]);
      }
    }
  }

  // ----- Steps -----

  lemma PristineCharge(pol: Policy, s: State)
    requires Charging(s.spc) && Pointers(s) && SchedulerStage(s) && PcFits(pol, s)
    ensures var t, z := ChargeBurst(pol, s), s.spc.pid;
            && z < |s.procs| && |t.procs| == |s.procs| && HasWork(s, z)
            && t.procs[z].line == s.procs[z].line
            && t.procs[z].cpuIndex == s.procs[z].cpuIndex + (if t.spc.SPut? then 1 else 0)
            && Scars(t.procs[z]) >= Scars(s.procs[z]) && (Pristine(t.procs[z]) ==> Pristine(s.procs[z]))
  {
    hide InRange, HeadIsShorter, Preemptions;
    var p := s.procs[s.spc.pid];
    PreemptionsSnoc(p.h.done, p.h.burst);
  }

  lemma PreemptionsSnoc(done: seq<Charge>, c: Charge)
    ensures Preemptions(done + [c]) == Preemptions(done) + c.preemptions
  {
    assert (done + [c])[..|done|] == done;
  }

  lemma PairCharge(pol: Policy, s: State, x: nat, y: nat)
    requires Inv(pol, s) && Charging(s.spc) && PairOk(pol, s, x, y) && KeyFacts(pol, s) && x != y
    ensures PairOk(pol, ChargeBurst(pol, s), x, y)
  {
    hide OnePlace, Counter, Tokens, PcFits, QueuesOk, ProcsOk, ChargeBurst, OnlyChanges, SchedulerStage, Pointers,
         WakeupStage, Pristine, PairOk, Possible, Apply, Uncut, Ranks, NotAhead, Rank, SchedulerMove, BothStay,
         PutsRight, RingOf;
    var t, z, m := ChargeBurst(pol, s), s.spc.pid, SchedulerMove(pol, s);
    ChargeMoves(pol, s);
    ChargeChanges(pol, s);
    PristineCharge(pol, s);
    PairSame(s, t, z, x);
    PairSame(s, t, z, y);
    ChargeMove(pol, s);
    if t.spc.SPut? && (z == x || z == y) {
      assert RingOf(s).Distinct() by { RingDistinct(s, x); }
      PairCloses(pol, s, t, z, x, y);
    } else {
      ChargeStays(pol, s, x, y);
      PairStays(pol, s, t, m, x, y);
    }
  }

  lemma ChargeMove(pol: Policy, s: State)
    requires Charging(s.spc)
    ensures SchedulerMove(pol, s) == (if ChargeBurst(pol, s).spc.SPut? then Close else Stay)
    ensures RingOf(s).before == [s.spc.pid]
  {
    hide ChargeBurst;
  }

  lemma ChargeStays(pol: Policy, s: State, x: nat, y: nat)
    requires OnePlace(s) && ProcsOk(s.procs) && Charging(s.spc)
    requires ChargeBurst(pol, s).spc.SPut? ==> s.spc.pid != x && s.spc.pid != y
    ensures RingOf(s).Distinct()
    ensures var r, m := RingOf(s), SchedulerMove(pol, s);
            && PutsRight(r, m, y, x) && PutsRight(r, m, x, y)
            && (HasWork(s, x) && HasWork(s, y) ==> BothStay(r, m, y, x) && BothStay(r, m, x, y))
  {
    hide ChargeBurst, OnePlace, ProcsOk;
    RingDistinct(s, x);
    RingDistinct(s, y);
  }

  /** What the pairwise order reads of a process that finishes no burst. */
  lemma PairSame(s: State, t: State, z: nat, x: nat)
    requires OnlyChanges(s.procs, t.procs, z) && z < |s.procs|
    requires t.procs[z].line == s.procs[z].line && (Pristine(t.procs[z]) ==> Pristine(s.procs[z]))
    ensures x < |s.procs| ==> (t.procs[x].line == s.procs[x].line && (Pristine(t.procs[x]) ==> Pristine(s.procs[x])))
    ensures x < |s.procs| && x != z ==> t.procs[x] == s.procs[x]
  {
    hide Pristine;
  }

  lemma PristineSame(a: seq<Proc>, b: seq<Proc>, x: nat)
    requires SameBursts(a, b)
    ensures |a| == |b|
    ensures x < |a| ==> (b[x].line == a[x].line && b[x].cpuIndex == a[x].cpuIndex
                         && Scars(b[x]) == Scars(a[x]) && (Pristine(b[x]) <==> Pristine(a[x])))
  {
    if x < |a| {
      assert SameBurst(a[x], b[x]);
    }
  }

  /** Whoever is dropped has no work left. */
  lemma DroppedIsDone(pol: Policy, s: State, x: nat)
    requires Inv(pol, s) && HasWork(s, x)
    ensures s.spc.STermWrite? ==> s.spc.pid != x
    ensures s.wpc.WTermWrite? ==> s.wpc.pid != x
  {
    hide OnePlace, Counter, Tokens, PcFits, QueuesOk, ShouldTerminate;
    if s.spc.STermWrite? {
      TerminateOnCpu(s.procs[s.spc.pid]);
    }
    if s.wpc.WTermWrite? {
      TerminateOnIo(s.procs[s.wpc.pid]);
    }
  }

  lemma PairHandOver(pol: Policy, s: State, x: nat, y: nat)
    requires Inv(pol, s) && !Charging(s.spc) && !Polling(s.spc) && pol.Keyed()
    requires PairOk(pol, s, x, y) && KeyFacts(pol, s) && x != y
    ensures PairOk(pol, HandOver(pol, s), x, y)
  {
    hide OnePlace, Counter, Tokens, PcFits, QueuesOk, ProcsOk, HandOver, SchedulerStage, Pointers, WakeupStage,
         Pristine, PairOk, Possible, Apply, Uncut, Ranks, NotAhead, Rank, SameBursts, SchedulerMove, BothStay,
         PutsRight, RingOf;
    var t, m := HandOver(pol, s), SchedulerMove(pol, s);
    HandOverMoves(pol, s);
    BurstsHandOver(pol, s);
    PristineSame(s.procs, t.procs, x);
    PristineSame(s.procs, t.procs, y);
    assert RingOf(s).Distinct() by { RingDistinct(s, x); }
    if HasWork(s, x) && HasWork(s, y) && Pristine(s.procs[x]) {
      HandOverStays(pol, s, x, y);
      HandOverPutsRight(pol, s, x, y);
    }
    PairStays(pol, s, t, m, x, y);
  }

  lemma HandOverStays(pol: Policy, s: State, x: nat, y: nat)
    requires Inv(pol, s) && !Charging(s.spc) && HasWork(s, x) && HasWork(s, y)
    ensures BothStay(RingOf(s), SchedulerMove(pol, s), y, x) && BothStay(RingOf(s), SchedulerMove(pol, s), x, y)
  {
    DroppedIsDone(pol, s, x);
    DroppedIsDone(pol, s, y);
    assert OnePlace(s) && ProcsOk(s.procs);
    hide Inv, OnePlace, ProcsOk, RingOf, SchedulerMove;
    RingDistinct(s, x);
    RingDistinct(s, y);
    SchedulerDrops(pol, s, x);
    SchedulerDrops(pol, s, y);
  }

  lemma SchedulerDrops(pol: Policy, s: State, x: nat)
    requires !Charging(s.spc) && (s.spc.STermWrite? ==> s.spc.pid != x)
    ensures var m := SchedulerMove(pol, s);
            !m.Close? && !m.DropWaking? && (m.DropBefore? ==> RingOf(s).before != [x])
  {
  }

  lemma WakeupDrops(s: State, x: nat)
    requires s.wpc.WTermWrite? ==> s.wpc.pid != x
    ensures var m := WakeupMove(s);
            !m.Close? && !m.DropBefore? && (m.DropWaking? ==> RingOf(s).waking != [x])
  {
  }

  lemma HandOverPutsRight(pol: Policy, s: State, x: nat, y: nat)
    requires Inv(pol, s) && !Charging(s.spc) && !Polling(s.spc) && KeyFacts(pol, s)
    requires HasWork(s, x) && HasWork(s, y) && Pristine(s.procs[x])
    ensures Now(pol, s, y) >= Now(pol, s, x) ==> PutsRight(RingOf(s), SchedulerMove(pol, s), y, x)
    ensures Now(pol, s, x) >= Now(pol, s, y) ==> PutsRight(RingOf(s), SchedulerMove(pol, s), x, y)
  {
    hide Inv, KeyFacts, Rank, Pristine;
    if s.spc.SPut? {
      if Now(pol, s, y) >= Now(pol, s, x) {
        PutsRightWait(pol, s, x, y);
      }
      if Now(pol, s, x) >= Now(pol, s, y) {
        PutsRightWait(pol, s, y, x);
      }
    } else if s.spc.SSwapPut? {
      PutsRightRequeue(pol, s, x, y);
    }
  }

  lemma PairWakeup(pol: Policy, s: State, x: nat, y: nat)
    requires Inv(pol, s) && pol.Keyed() && PairOk(pol, s, x, y) && KeyFacts(pol, s) && x != y
    ensures PairOk(pol, WakeupStep(pol, s), x, y)
  {
    hide OnePlace, Counter, Tokens, PcFits, QueuesOk, ProcsOk, WakeupStep, SchedulerStage, Pointers, WakeupStage,
         Pristine, PairOk, Possible, Apply, Uncut, Ranks, NotAhead, Rank, SameBursts, WakeupMove, BothStay,
         PutsRight, RingOf;
    var t, m := WakeupStep(pol, s), WakeupMove(s);
    WakeupMoves(pol, s);
    BurstsWakeup(pol, s);
    PristineSame(s.procs, t.procs, x);
    PristineSame(s.procs, t.procs, y);
    assert RingOf(s).Distinct() by { RingDistinct(s, x); }
    if HasWork(s, x) && HasWork(s, y) && Pristine(s.procs[x]) {
      WakeupStays(pol, s, x, y);
      WakeupPutsRight(pol, s, x, y);
      WakeupPutsRight(pol, s, y, x);
    }
    PairStays(pol, s, t, m, x, y);
  }

  lemma WakeupStays(pol: Policy, s: State, x: nat, y: nat)
    requires Inv(pol, s) && HasWork(s, x) && HasWork(s, y)
    ensures BothStay(RingOf(s), WakeupMove(s), y, x) && BothStay(RingOf(s), WakeupMove(s), x, y)
  {
    DroppedIsDone(pol, s, x);
    DroppedIsDone(pol, s, y);
    assert OnePlace(s) && ProcsOk(s.procs);
    hide Inv, OnePlace, ProcsOk, RingOf, WakeupMove;
    RingDistinct(s, x);
    RingDistinct(s, y);
    WakeupDrops(s, x);
    WakeupDrops(s, y);
  }

  lemma WakeupPutsRight(pol: Policy, s: State, x: nat, y: nat)
    requires Inv(pol, s) && KeyFacts(pol, s) && HasWork(s, x) && HasWork(s, y)
    ensures Now(pol, s, y) >= Now(pol, s, x) ==> PutsRight(RingOf(s), WakeupMove(s), y, x)
  {
    hide Inv, KeyFacts, Rank;
    if s.wpc.WPut? && Now(pol, s, y) >= Now(pol, s, x) {
      PutsRightReady(pol, s, x, y);
    }
  }

  lemma PairPoll(pol: Policy, s: State, x: nat, y: nat)
    requires Polling(s.spc) && PairOk(pol, s, x, y)
    ensures PairOk(pol, Poll(s), x, y)
  {
    hide Meets, NotAhead, Pristine, Rank;
    assert RingOf(Poll(s)) == RingOf(s);
  }

  // ----- The start -----

  lemma {:induction false} ArrivedOrder(pol: Policy, ps: seq<Proc>, k: nat, x: nat, y: nat)
    requires k <= |ps| && pol.Keyed() && x < |ps| && y < |ps|
    requires ps[x].priority < ps[y].priority || (ps[x].priority == ps[y].priority && x < y)
    ensures Trails(Arrived(pol, ps, k), y, x)
  {
    hide Trails, Sorted, Insert, InRange;
    if k == 0 {
      NobodyAhead(x, y);
    } else {
      InsertsNext(pol, ps, k - 1);
      hide Arrived;
      ArrivedOrder(pol, ps, k - 1, x, y);
      ArrivedNodes(pol, ps, k - 1);
      NextInOrder(ps, Arrived(pol, ps, k - 1), k - 1, x, y);
    }
  }

  lemma NobodyAhead(x: nat, y: nat)
    ensures Trails([], y, x)
  {
  }

  lemma NextInOrder(ps: seq<Proc>, q: seq<Node>, k: nat, x: nat, y: nat)
    requires k < |ps| && x < |ps| && y < |ps| && Sorted(q) && Trails(q, y, x)
    requires ps[x].priority < ps[y].priority || (ps[x].priority == ps[y].priority && x < y)
    requires forall i | 0 <= i < |q| :: q[i].pid < k && q[i].key == ps[q[i].pid].priority
    ensures Trails(Insert(q, Node(k, ps[k].priority)), y, x)
  {
    hide Insert, Trails, Sorted;
    TrailsInsert(q, Node(k, ps[k].priority), y, x);
  }

  lemma ArrivedNodes(pol: Policy, ps: seq<Proc>, k: nat)
    requires k <= |ps| && pol.Keyed()
    ensures var q := Arrived(pol, ps, k);
            Sorted(q) && forall i | 0 <= i < |q| :: q[i].pid < k && q[i].key == ps[q[i].pid].priority
  {
    hide Arrived, Sorted;
    var q := Arrived(pol, ps, k);
    ArrivedKeys(pol, ps, k);
    ArrivedBelow(pol, ps, k);
    forall i | 0 <= i < |q| ensures q[i].pid < k && q[i].key == ps[q[i].pid].priority {
      assert q[i] in q;
    }
  }

  lemma {:induction false} ArrivedBelow(pol: Policy, ps: seq<Proc>, k: nat)
    requires k <= |ps|
    ensures forall z | z in Arrived(pol, ps, k) :: z.pid < k
  {
    hide Enqueue;
    if k > 0 {
      ArrivedBelow(pol, ps, k - 1);
      EnqueuePids(pol, Arrived(pol, ps, k - 1), k - 1, ps[k - 1].priority);
    }
  }

  lemma PairInit(pol: Policy, w: seq<Line>, clock: int, x: nat, y: nat)
    requires Admissible(pol, w) && pol.Keyed() && x != y
    ensures PairOk(pol, Init(pol, w, clock), x, y)
  {
    var s := Init(pol, w, clock);
    if HasWork(s, x) && HasWork(s, y) {
      hide Trails, Arrived;
      var a, b := s.procs[x].priority, s.procs[y].priority;
      assert a == w[x].cpu[0] == Now(pol, s, x) && b == w[y].cpu[0] == Now(pol, s, y);
      NoneWaiting(s, x, y);
      if a < b || (a == b && x < y) {
        ArrivedOrder(pol, s.procs, |s.procs|, x, y);
      } else {
        ArrivedOrder(pol, s.procs, |s.procs|, y, x);
      }
    }
  }

  lemma NoneWaiting(s: State, x: nat, y: nat)
    requires s.wait == [] && s.spc == SCheck && s.wpc == WCheck
    ensures Trails(s.ready, y, x) ==> NotAhead(RingOf(s), y, x)
    ensures Trails(s.ready, x, y) ==> NotAhead(RingOf(s), x, y)
  {
  }

  /** In every run of SJF and of either SRTF the pairwise order holds of every two processes. */
  lemma {:induction false} RunPairs(pol: Policy, w: seq<Line>, clock: int, schedule: seq<Thread>, x: nat, y: nat)
    requires Ranked(pol, w) && x != y
    ensures PairOk(pol, Run(pol, w, clock, schedule), x, y)
    decreases |schedule|
  {
    hide Poll, ChargeBurst, HandOver, WakeupStep, PairOk, Inv, KeyFacts, Init;
    if schedule == [] {
      PairInit(pol, w, clock, x, y);
    } else {
      var n := |schedule| - 1;
      var s := Run(pol, w, clock, schedule[..n]);
      RunPairs(pol, w, clock, schedule[..n], x, y);
      RunInv(pol, w, clock, schedule[..n]);
      RunKeyFacts(pol, w, clock, schedule[..n]);
      if schedule[n] == WakeupThread {
        PairWakeup(pol, s, x, y);
      } else if Polling(s.spc) {
        PairPoll(pol, s, x, y);
      } else if Charging(s.spc) {
        PairCharge(pol, s, x, y);
      } else {
        PairHandOver(pol, s, x, y);
      }
    }
  }
}
