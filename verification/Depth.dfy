// How deep SRTF's recursion gets. A nested call goes to a process that came back after the
// dispatch of the one before it; only one process can be on its way past the sorted wait queue.
module Depth {
  import opened Workload
  import opened QueueSpec
  import opened Protocol
  import opened Safety
  import opened Srtf
  import opened SrtfResults
  import opened QueueKeys
  import opened PairwiseRuns

  predicate Swapping(pc: SPc) {
    pc.SSwapEnd? || pc.SSwapPut? || pc.SSwapDeq?
  }

  /** What a ready process must stand below to interrupt the running one. */
  function Level(s: State): int {
    if LoopPc(s.spc) then Baseline(s) else if Swapping(s.spc) then At(s, s.spc.pid).remaining else 0
  }

  predicate Returning(pc: WPc) {
    pc.WAdd? || pc.WPut?
  }

  /** Nobody asleep or on the way back has a smaller key. */
  predicate NobodyBelow(s: State, key: int) {
    && (forall i | 0 <= i < |s.wait| :: s.wait[i].key >= key)
    && (Returning(s.wpc) ==> At(s, s.wpc.pid).priority >= key)
  }

  /** Whoever is on the way back has left nobody smaller behind. */
  predicate InTurn(s: State) {
    Returning(s.wpc) ==> forall i | 0 <= i < |s.wait| :: s.wait[i].key >= At(s, s.wpc.pid).priority
  }

  /** A ready process below the running one has come back since its dispatch. Inside a nested call
      nobody smaller follows it, and inside two there is none. */
  predicate Shallow(s: State) {
    && s.depth <= 2
    && (LoopPc(s.spc) || Swapping(s.spc) ==>
          && (s.depth >= 1 ==> InTurn(s))
          && (s.depth >= 2 ==> NobodyBelow(s, Level(s)) && !Swapping(s.spc))
          && forall i | 0 <= i < |s.ready| && s.ready[i].key < Level(s) ::
               s.depth <= 1 && InTurn(s) && (s.depth == 1 ==> NobodyBelow(s, s.ready[i].key)))
  }

  // ----- The charging steps -----

  lemma LevelCharge(resume: bool, s: State)
    requires Pointers(s) && PcFits(Srtf(resume), s) && SchedulerStage(s) && Charging(s.spc)
    requires s.ready != [] ==> s.ready[0].key == At(s, s.ready[0].pid).remaining
    ensures var t := ChargeBurst(Srtf(resume), s);
            && t.depth == s.depth && (LoopPc(s.spc) || Swapping(s.spc))
            && (LoopPc(t.spc) || Swapping(t.spc) ==> Level(t) <= Level(s))
            && (Swapping(t.spc) && !Swapping(s.spc) ==> s.ready != [] && s.ready[0].key < Level(s))
  {
    hide InRange;
  }

  lemma ShallowApart(s: State, t: State, z: nat)
    requires Shallow(s) && (LoopPc(s.spc) || Swapping(s.spc)) && OnlyChanges(s.procs, t.procs, z)
    requires t.ready == s.ready && t.wait == s.wait && t.wpc == s.wpc && t.depth == s.depth
    requires Returning(s.wpc) ==> s.wpc.pid != z
    requires LoopPc(t.spc) || Swapping(t.spc) ==> Level(t) <= Level(s)
    requires Swapping(t.spc) && !Swapping(s.spc) ==> s.ready != [] && s.ready[0].key < Level(s)
    ensures Shallow(t)
  {
    hide Level;
  }

  lemma ShallowCharge(resume: bool, s: State)
    requires Sound(Srtf(resume), s) && Shallow(s) && Charging(s.spc)
    ensures Shallow(ChargeBurst(Srtf(resume), s))
  {
    hide Shallow, ChargeBurst, Counter, Tokens, WakeupStage, QueuesOk, ProcsOk, KeyFacts, SrtfInv, PcFits,
         SchedulerStage, OnlyChanges, Level, OnePlace;
    if s.ready != [] {
      HeadIsLeast(resume, s);
    }
    LevelCharge(resume, s);
    ChargeChanges(Srtf(resume), s);
    HandsDiffer(s);
    ShallowApart(s, ChargeBurst(Srtf(resume), s), s.spc.pid);
  }

  lemma HandsDiffer(s: State)
    requires OnePlace(s) && Charging(s.spc)
    ensures Returning(s.wpc) ==> s.wpc.pid != s.spc.pid
  {
    hide OnePlace;
    OnlyInHand(s, s.spc.pid);
  }

  // ----- The other scheduler steps -----

  /** A process just dispatched stands below everybody else in the queue. */
  lemma ShallowDispatch(resume: bool, s: State)
    requires (s.spc.SDeq? || s.spc.SSwapDeq?) && s.ready != [] && Shallow(s)
    requires s.ready[0].pid < |s.procs| && s.ready[0].key == At(s, s.ready[0].pid).remaining
    requires forall i | 0 <= i < |s.ready| :: s.ready[i].key >= s.ready[0].key
    requires s.spc.SDeq? ==> s.depth == 0
    requires s.spc.SSwapDeq? ==> s.ready[0].key < At(s, s.spc.pid).remaining
    ensures Shallow(HandOver(Srtf(resume), s))
  {
    hide ShouldTerminate;
    var t := HandOver(Srtf(resume), s);
    assert t.wait == s.wait && t.wpc == s.wpc && t.ready == s.ready[1..];
    assert LoopPc(t.spc) ==> Level(t) == s.ready[0].key;
  }

  lemma ShallowPut(resume: bool, s: State)
    requires s.spc.SSwapPut? && Shallow(s) && At(s, s.spc.pid).priority == At(s, s.spc.pid).remaining
    ensures Shallow(HandOver(Srtf(resume), s))
  {
    hide Insert;
    InsertMembers(s.ready, Node(s.spc.pid, At(s, s.spc.pid).priority));
    var t := HandOver(Srtf(resume), s);
    forall i | 0 <= i < |t.ready| && t.ready[i].key < Level(t)
      ensures t.depth <= 1 && InTurn(t) && (t.depth == 1 ==> NobodyBelow(t, t.ready[i].key))
    {
      assert t.ready[i] in t.ready;
    }
  }

  lemma ShallowMove(resume: bool, s: State)
    requires !Charging(s.spc) && !Polling(s.spc) && PcFits(Srtf(resume), s) && Shallow(s)
    requires !s.spc.SDeq? && !s.spc.SSwapDeq? && !s.spc.SSwapPut?
    ensures Shallow(HandOver(Srtf(resume), s))
  {
    hide ShouldTerminate, Enqueue, At, Replace;
  }

  lemma ShallowHandOver(resume: bool, s: State)
    requires Sound(Srtf(resume), s) && Shallow(s) && !Charging(s.spc) && !Polling(s.spc)
    ensures Shallow(HandOver(Srtf(resume), s))
  {
    hide Shallow, HandOver, Counter, Tokens, WakeupStage, SchedulerStage, ProcsOk, KeyFacts, OnePlace, Done, Keys,
         Nesting;
    if s.spc.SDeq? || s.spc.SSwapDeq? {
      if s.ready != [] {
        HeadIsLeast(resume, s);
        ShallowDispatch(resume, s);
      } else {
        NothingToDispatch(resume, s);
      }
    } else if s.spc.SSwapPut? {
      assert AtRest(s.procs[s.spc.pid]);
      ShallowPut(resume, s);
    } else {
      ShallowMove(resume, s);
    }
  }

  lemma NothingToDispatch(resume: bool, s: State)
    requires s.ready == [] && (s.spc.SDeq? || s.spc.SSwapDeq?) && Shallow(s)
    ensures Shallow(HandOver(Srtf(resume), s))
  {
  }

  // ----- The wakeup thread -----

  lemma LevelSame(s: State, t: State)
    requires SameBursts(s.procs, t.procs) && t.spc == s.spc
    ensures Level(t) == Level(s)
  {
    if (LoopPc(s.spc) || Swapping(s.spc)) && s.spc.pid < |s.procs| {
      assert SameBurst(s.procs[s.spc.pid], t.procs[s.spc.pid]);
    }
  }

  /** Whoever is on the way back keeps his key; whoever is taken next had the smallest. */
  lemma ReturnsInTurn(resume: bool, s: State)
    requires WaitKeys(s) && Pointers(s)
    ensures var t := WakeupStep(Srtf(resume), s);
            && (s.wpc.WDeq? || s.wpc.WPut? || (InTurn(s) ==> InTurn(t)))
            && (s.wpc.WDeq? || s.wpc.WPut? ==> InTurn(t))
            && (forall key :: NobodyBelow(s, key) ==> NobodyBelow(t, key))
            && (s.wpc.WPut? && InTurn(s) ==> NobodyBelow(t, At(s, s.wpc.pid).priority))
            && (forall key :: s.wpc.WPut? && NobodyBelow(s, key) ==> At(s, s.wpc.pid).priority >= key)
  {
    hide InRange, ShouldTerminate, Enqueue;
  }

  lemma ShallowWakeup(resume: bool, s: State)
    requires WaitKeys(s) && Pointers(s) && Shallow(s)
    ensures Shallow(WakeupStep(Srtf(resume), s))
  {
    hide WakeupStep, WaitKeys, Pointers, SameBursts, Level, InTurn, NobodyBelow, Insert;
    var t := WakeupStep(Srtf(resume), s);
    BurstsWakeup(Srtf(resume), s);
    WakeupQuiet(Srtf(resume), s);
    LevelSame(s, t);
    ReturnsInTurn(resume, s);
    if s.wpc.WPut? {
      InsertMembers(s.ready, Node(s.wpc.pid, At(s, s.wpc.pid).priority));
    }
    forall i | (LoopPc(s.spc) || Swapping(s.spc)) && 0 <= i < |t.ready| && t.ready[i].key < Level(t)
      ensures t.depth <= 1 && InTurn(t) && (t.depth == 1 ==> NobodyBelow(t, t.ready[i].key))
    {
      assert t.ready[i] in t.ready;
    }
  }

  lemma ShallowPoll(s: State)
    requires Shallow(s) && Polling(s.spc)
    ensures Shallow(Poll(s))
  {
  }

  lemma {:induction false} RunShallow(resume: bool, w: seq<Line>, clock: int, schedule: seq<Thread>)
    requires Ranked(Srtf(resume), w)
    ensures Shallow(Run(Srtf(resume), w, clock, schedule))
    decreases |schedule|
  {
    var pol := Srtf(resume);
    hide Poll, ChargeBurst, HandOver, WakeupStep, Shallow, OnePlace, Counter, Tokens, ProcsOk, QueuesOk, SchedulerStage,
         WakeupStage, SrtfInv;
    if schedule == [] {
      ShallowAtFirst(Init(pol, w, clock));
    } else {
      var n := |schedule| - 1;
      var s := Run(pol, w, clock, schedule[..n]);
      RunShallow(resume, w, clock, schedule[..n]);
      RunSound(pol, w, clock, schedule[..n]);
      if schedule[n] == WakeupThread {
        ShallowWakeup(resume, s);
      } else if Polling(s.spc) {
        ShallowPoll(s);
      } else if Charging(s.spc) {
        ShallowCharge(resume, s);
      } else {
        ShallowHandOver(resume, s);
      }
    }
  }

  lemma ShallowAtFirst(s: State)
    requires s.spc.SCheck? && s.depth == 0
    ensures Shallow(s)
  {
  }

  /** In no run are more than two calls suspended, and then the process first dispatched had five
      ticks to run. */
  lemma AtMostTwoSuspended(resume: bool, w: seq<Line>, clock: int, schedule: seq<Thread>)
    requires Ranked(Srtf(resume), w)
    ensures var s := Run(Srtf(resume), w, clock, schedule);
            s.depth <= 2 && (s.depth > 0 ==> 2 * s.depth + 1 <= s.entry)
  {
    hide Run;
    RunShallow(resume, w, clock, schedule);
    NestingIsBounded(resume, w, clock, schedule);
  }
}
