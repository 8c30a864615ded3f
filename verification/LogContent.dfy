// What the log says, line by line: how often each process and CPU index stands in it, and for SRTF
// that the lines, apart from those that repeat the line before them, are a time line.
module LogContent {
  import opened Workload
  import opened Protocol
  import opened Safety
  import opened Ledger
  import opened Srtf
  import opened Timeline
  import opened Liveness
  import opened NoPreemption

  // ----- Lines that repeat the line before them -----

  /** The log without the lines that repeat the line before them. */
  function Squeezed(log: seq<Entry>): seq<Entry> {
    if log == [] then []
    else
      var n := |log| - 1;
      if n > 0 && log[n] == log[n - 1] then Squeezed(log[..n]) else Squeezed(log[..n]) + [log[n]]
  }

  lemma SqueezedSnoc(log: seq<Entry>, e: Entry)
    ensures Squeezed(log + [e])
         == if log != [] && log[|log| - 1] == e then Squeezed(log) else Squeezed(log) + [e]
  {
    assert (log + [e])[..|log|] == log;
  }

  lemma {:induction false} SqueezedLast(log: seq<Entry>)
    requires log != []
    ensures var r := Squeezed(log); r != [] && r[|r| - 1] == log[|log| - 1]
  {
    var n := |log| - 1;
    if n > 0 && log[n] == log[n - 1] {
      SqueezedLast(log[..n]);
    }
  }

  /** Repeating lines is all that a log can have beyond its squeezed form. */
  lemma {:induction false} SqueezedKeepsLines(log: seq<Entry>, e: Entry)
    ensures e in Squeezed(log) <==> e in log
    ensures forall i | 0 < i < |Squeezed(log)| :: Squeezed(log)[i] != Squeezed(log)[i - 1]
  {
    if log != [] {
      var n := |log| - 1;
      SqueezedKeepsLines(log[..n], e);
      if n > 0 {
        SqueezedLast(log[..n]);
      }
      assert log == log[..n] + [log[n]];
    }
  }

  // ----- Counting lines -----

  function Count(log: seq<Entry>, pid: nat, k: nat): nat {
    if log == [] then 0
    else
      var n := |log| - 1;
      Count(log[..n], pid, k) + Flag(log[n].pid == pid && log[n].cpuIndex == k)
  }

  lemma CountSnoc(log: seq<Entry>, e: Entry, pid: nat, k: nat)
    ensures Count(log + [e], pid, k) == Count(log, pid, k) + Flag(e.pid == pid && e.cpuIndex == k)
  {
    assert (log + [e])[..|log|] == log;
  }

  /** One line for every finished burst, under the index then advanced, and one for every time a
      burst was cut off, under the index not yet advanced. */
  function Due(p: Proc, k: nat): nat {
    Flag(1 <= k <= p.cpuIndex) +
    (if k < |p.h.done| then p.h.done[k].preemptions else if k == |p.h.done| then p.h.burst.preemptions else 0)
  }

  /** The log with the line of a burst that has ended, while the handler has yet to write it. */
  function Full(s: State): seq<Entry> {
    if Pending(s.spc) then s.log + [Entry(s.spc.pid, At(s, s.spc.pid).cpuIndex, s.start, s.end)] else s.log
  }

  /** SRTF repeats lines on the way out of nested calls; the other policies write no line twice. */
  function Kept(pol: Policy, s: State): seq<Entry> {
    if pol.Srtf? then Squeezed(Full(s)) else Full(s)
  }

  ghost predicate LogOk(pol: Policy, s: State) {
    forall pid: nat, k: nat :: Count(Kept(pol, s), pid, k) == Due(At(s, pid), k)
  }

  // ----- A step that ends a slice -----

  /** The slice is over: the burst is finished or cut off. */
  predicate Closes(s: State, t: State) {
    s.spc.SSwapEnd? || t.spc.SPut?
  }

  function Slice(s: State, t: State): Entry
    requires Charging(s.spc)
  {
    Entry(s.spc.pid, At(t, s.spc.pid).cpuIndex, s.start, s.clock)
  }

  lemma FullCharge(pol: Policy, s: State)
    requires Pointers(s) && PcFits(pol, s) && SchedulerStage(s) && Charging(s.spc)
    ensures var t := ChargeBurst(pol, s);
            && Full(s) == s.log
            && Full(t) == if Closes(s, t) then s.log + [Slice(s, t)] else s.log
  {
    hide InRange, HeadIsShorter;
  }

  lemma DueCharge(pol: Policy, s: State, k: nat)
    requires Pointers(s) && PcFits(pol, s) && SchedulerStage(s) && Charging(s.spc)
    requires |At(s, s.spc.pid).h.done| == At(s, s.spc.pid).cpuIndex
    ensures var t := ChargeBurst(pol, s);
            (Due(At(t, s.spc.pid), k)
             == Due(At(s, s.spc.pid), k) + Flag(Closes(s, t) && k == At(t, s.spc.pid).cpuIndex))
  {
    if s.spc.STick? || s.spc.SEnd? {
      DueAtEndOfBurst(pol, s, k);
    } else {
      DueMeanwhile(pol, s, k);
    }
  }

  lemma DueAtEndOfBurst(pol: Policy, s: State, k: nat)
    requires Pointers(s) && PcFits(pol, s) && SchedulerStage(s) && (s.spc.STick? || s.spc.SEnd?)
    requires |At(s, s.spc.pid).h.done| == At(s, s.spc.pid).cpuIndex
    ensures var t := ChargeBurst(pol, s);
            (Due(At(t, s.spc.pid), k)
             == Due(At(s, s.spc.pid), k) + Flag(t.spc.SPut? && k == At(t, s.spc.pid).cpuIndex))
  {
    hide InRange;
  }

  lemma DueMeanwhile(pol: Policy, s: State, k: nat)
    requires Pointers(s) && PcFits(pol, s) && SchedulerStage(s)
    requires Charging(s.spc) && !s.spc.STick? && !s.spc.SEnd?
    requires |At(s, s.spc.pid).h.done| == At(s, s.spc.pid).cpuIndex
    ensures var t := ChargeBurst(pol, s);
            && !t.spc.SPut?
            && Due(At(t, s.spc.pid), k)
               == Due(At(s, s.spc.pid), k) + Flag(s.spc.SSwapEnd? && k == At(t, s.spc.pid).cpuIndex)
  {
    hide InRange, HeadIsShorter;
  }

  /** One line more for whoever's slice is over. */
  lemma LogGrows(pol: Policy, s: State, t: State, z: nat)
    requires LogOk(pol, s) && OnlyChanges(s.procs, t.procs, z) && Charging(s.spc) && s.spc.pid == z
    requires Kept(pol, t) == if Closes(s, t) then Kept(pol, s) + [Slice(s, t)] else Kept(pol, s)
    requires forall k: nat ::
               Due(At(t, z), k) == Due(At(s, z), k) + Flag(Closes(s, t) && k == At(t, z).cpuIndex)
    ensures LogOk(pol, t)
  {
    hide Kept, Due, Count, Closes;
    forall pid: nat, k: nat ensures Count(Kept(pol, t), pid, k) == Due(At(t, pid), k) {
      assert Count(Kept(pol, s), pid, k) == Due(At(s, pid), k);
      assert Due(At(t, z), k) == Due(At(s, z), k) + Flag(Closes(s, t) && k == At(t, z).cpuIndex);
      CountSnoc(Kept(pol, s), Slice(s, t), pid, k);
    }
  }

  lemma LogCharge(pol: Policy, s: State)
    requires Pointers(s) && PcFits(pol, s) && SchedulerStage(s) && Charging(s.spc) && LogOk(pol, s)
    requires |At(s, s.spc.pid).h.done| == At(s, s.spc.pid).cpuIndex
    requires var t := ChargeBurst(pol, s);
             Kept(pol, t) == if Closes(s, t) then Kept(pol, s) + [Slice(s, t)] else Kept(pol, s)
    ensures LogOk(pol, ChargeBurst(pol, s))
  {
    hide ChargeBurst, LogOk, Due, Kept, Closes, PcFits, SchedulerStage, Pointers, OnlyChanges;
    var t, z := ChargeBurst(pol, s), s.spc.pid;
    ChargeChanges(pol, s);
    forall k: nat ensures Due(At(t, z), k) == Due(At(s, z), k) + Flag(Closes(s, t) && k == At(t, z).cpuIndex) {
      DueCharge(pol, s, k);
    }
    LogGrows(pol, s, t, z);
  }

  // ----- All other steps -----

  lemma SameAt(s: State, t: State, pid: nat)
    requires SameBursts(s.procs, t.procs)
    ensures At(t, pid).cpuIndex == At(s, pid).cpuIndex && At(t, pid).h.done == At(s, pid).h.done
    ensures At(t, pid).h.burst == At(s, pid).h.burst
  {
    if pid < |s.procs| {
      assert SameBurst(s.procs[pid], t.procs[pid]);
    }
  }

  lemma LogSame(pol: Policy, s: State, t: State)
    requires LogOk(pol, s) && SameBursts(s.procs, t.procs) && Kept(pol, t) == Kept(pol, s)
    ensures LogOk(pol, t)
  {
    hide Kept, SameBursts, At;
    forall pid: nat, k: nat ensures Count(Kept(pol, t), pid, k) == Due(At(t, pid), k) {
      SameAt(s, t, pid);
      assert Count(Kept(pol, s), pid, k) == Due(At(s, pid), k);
    }
  }

  /** Where the line to be written goes: into the log, and while calls are suspended there is another. */
  lemma LinePlaces(pol: Policy, s: State)
    requires !Charging(s.spc) && !Polling(s.spc) && PcFits(pol, s)
    ensures var t := HandOver(pol, s);
            && t.clock == s.clock && t.start == s.start && t.end == s.end && OnLoop(t.spc) == []
            && (s.spc.SLog? ==> t.log == Full(s) && (!Pending(t.spc) || (pol.Srtf? && t.spc == s.spc)))
            && (!s.spc.SLog? ==> t.log == s.log && Pending(t.spc) == Pending(s.spc)
                                 && (Pending(s.spc) ==> t.spc.pid == s.spc.pid))
  {
    hide ShouldTerminate, Enqueue, At, Replace, Handled, Finish;
  }

  lemma KeptHandOver(pol: Policy, s: State)
    requires !Charging(s.spc) && !Polling(s.spc) && PcFits(pol, s)
    ensures Kept(pol, HandOver(pol, s)) == Kept(pol, s)
  {
    hide HandOver, PcFits, SameBursts, Squeezed, At;
    var t := HandOver(pol, s);
    LinePlaces(pol, s);
    BurstsHandOver(pol, s);
    if Pending(s.spc) {
      SameAt(s, t, s.spc.pid);
      SqueezedSnoc(Full(s), Entry(s.spc.pid, At(s, s.spc.pid).cpuIndex, s.start, s.end));
    }
  }

  lemma KeptWakeup(pol: Policy, s: State)
    requires NonNegativeLines(s.procs)
    ensures Kept(pol, WakeupStep(pol, s)) == Kept(pol, s)
  {
    hide WakeupStep, SameBursts, Squeezed, At, NonNegativeLines;
    WakeupClock(pol, s);
    BurstsWakeup(pol, s);
    if Pending(s.spc) {
      SameAt(s, WakeupStep(pol, s), s.spc.pid);
    }
  }

  lemma KeptPoll(pol: Policy, s: State)
    requires Polling(s.spc)
    ensures var t := Poll(s);
            && Kept(pol, t) == Kept(pol, s) && SameBursts(s.procs, t.procs)
            && t.clock == s.clock && OnLoop(s.spc) == [] && OnLoop(t.spc) == []
  {
  }

  // ----- SRTF: the slices follow each other in time -----

  /** The time no slice written so far ends after: in the tick loop that of its start. */
  function Mark(s: State): int {
    if OnLoop(s.spc) != [] then s.start else s.clock
  }

  predicate InTime(s: State) {
    && (s.spc.STick? || s.spc.STest? ==> s.start + s.spc.time <= s.clock)
    && (s.spc.SSwapEnd? ==> s.start < s.clock)
  }

  /** The lines are in order without overlap, and under no index that is yet to come. */
  predicate Placed(s: State) {
    var kept := Squeezed(Full(s));
    && Disjoint(kept)
    && forall i | 0 <= i < |kept| ::
         kept[i].start <= kept[i].end <= Mark(s) && kept[i].cpuIndex <= At(s, kept[i].pid).cpuIndex
  }

  lemma TimeCharge(resume: bool, s: State)
    requires Pointers(s) && PcFits(Srtf(resume), s) && SchedulerStage(s) && Charging(s.spc) && InTime(s)
    ensures var t, z := ChargeBurst(Srtf(resume), s), s.spc.pid;
            && InTime(t) && Mark(t) >= Mark(s)
            && At(t, z).cpuIndex == At(s, z).cpuIndex + Flag(t.spc.SPut?)
            && (Closes(s, t) ==>
                  Mark(s) == s.start <= s.clock == Mark(t) && (s.spc.SSwapEnd? ==> s.start < s.clock))
  {
    hide InRange, HeadIsShorter;
  }

  /** No slice repeats the last line: a finished burst has a new index, a cut one a later end. */
  lemma SliceIsNew(resume: bool, s: State)
    requires Pointers(s) && PcFits(Srtf(resume), s) && SchedulerStage(s) && Charging(s.spc) && InTime(s) && Placed(s)
    ensures var t := ChargeBurst(Srtf(resume), s);
            Squeezed(Full(t)) == if Closes(s, t) then Squeezed(Full(s)) + [Slice(s, t)] else Squeezed(Full(s))
  {
    hide ChargeBurst, PcFits, SchedulerStage, Pointers, InTime, Squeezed, Mark, Disjoint;
    FullCharge(Srtf(resume), s);
    TimeCharge(resume, s);
    var t := ChargeBurst(Srtf(resume), s);
    SqueezedSnoc(s.log, Slice(s, t));
    if s.log != [] {
      SqueezedLast(s.log);
    }
  }

  lemma PlacedCharge(resume: bool, s: State)
    requires Pointers(s) && PcFits(Srtf(resume), s) && SchedulerStage(s) && Charging(s.spc) && InTime(s) && Placed(s)
    ensures Placed(ChargeBurst(Srtf(resume), s))
  {
    hide ChargeBurst, PcFits, SchedulerStage, Pointers, InTime, Squeezed, Full, Mark, Placed, OnlyChanges;
    var t := ChargeBurst(Srtf(resume), s);
    SliceIsNew(resume, s);
    TimeCharge(resume, s);
    ChargeChanges(Srtf(resume), s);
    PlacedGrows(s, t, s.spc.pid);
  }

  lemma PlacedGrows(s: State, t: State, z: nat)
    requires Placed(s) && OnlyChanges(s.procs, t.procs, z) && At(t, z).cpuIndex >= At(s, z).cpuIndex
    requires Charging(s.spc) && s.spc.pid == z && Mark(t) >= Mark(s)
    requires Closes(s, t) ==> Mark(s) == s.start <= s.clock == Mark(t)
    requires Squeezed(Full(t)) == if Closes(s, t) then Squeezed(Full(s)) + [Slice(s, t)] else Squeezed(Full(s))
    ensures Placed(t)
  {
    hide Squeezed, Full, Mark, Closes;
  }

  lemma PlacedSame(s: State, t: State)
    requires Placed(s) && SameBursts(s.procs, t.procs) && Squeezed(Full(t)) == Squeezed(Full(s)) && Mark(t) >= Mark(s)
    ensures Placed(t)
  {
    hide Squeezed, Full, Mark, SameBursts, At, Disjoint;
    var kept := Squeezed(Full(s));
    forall i | 0 <= i < |kept|
      ensures kept[i].start <= kept[i].end <= Mark(t) && kept[i].cpuIndex <= At(t, kept[i].pid).cpuIndex
    {
      SameAt(s, t, kept[i].pid);
    }
  }

  lemma MarkLater(s: State, t: State)
    requires t.clock >= s.clock && InTime(s)
    requires (t.spc == s.spc && t.start == s.start) || (OnLoop(s.spc) == [] && OnLoop(t.spc) == [])
    ensures Mark(t) >= Mark(s) && InTime(t)
  {
  }

  lemma PlacedInit(resume: bool, w: seq<Line>, clock: int)
    requires Admissible(Srtf(resume), w)
    ensures var s := Init(Srtf(resume), w, clock); Placed(s) && InTime(s)
  {
  }

  /** At every step of an SRTF run of any workload. */
  lemma {:induction false} RunPlaced(resume: bool, w: seq<Line>, clock: int, schedule: seq<Thread>)
    requires Admissible(Srtf(resume), w)
    ensures var s := Run(Srtf(resume), w, clock, schedule); Placed(s) && InTime(s)
    decreases |schedule|
  {
    var pol := Srtf(resume);
    hide Poll, ChargeBurst, HandOver, WakeupStep, Placed, InTime, Mark, Init, OnePlace, Counter, Tokens, ProcsOk,
         QueuesOk, SchedulerStage, WakeupStage, SameBursts, NonNegativeLines, Full, Squeezed, Pointers;
    if schedule == [] {
      PlacedInit(resume, w, clock);
    } else {
      var n := |schedule| - 1;
      var s := Run(pol, w, clock, schedule[..n]);
      RunPlaced(resume, w, clock, schedule[..n]);
      RunInv(pol, w, clock, schedule[..n]);
      if schedule[n] == WakeupThread {
        LinesOfRun(pol, w, clock, schedule[..n]);
        WakeupClock(pol, s);
        BurstsWakeup(pol, s);
        KeptWakeup(pol, s);
        MarkLater(s, WakeupStep(pol, s));
        PlacedSame(s, WakeupStep(pol, s));
      } else if Polling(s.spc) {
        KeptPoll(pol, s);
        MarkLater(s, Poll(s));
        PlacedSame(s, Poll(s));
      } else if Charging(s.spc) {
        TimeCharge(resume, s);
        PlacedCharge(resume, s);
      } else {
        LinePlaces(pol, s);
        BurstsHandOver(pol, s);
        KeptHandOver(pol, s);
        MarkLater(s, HandOver(pol, s));
        PlacedSame(s, HandOver(pol, s));
      }
    }
  }

  /** At every step of every SRTF run the slices logged, without repeats, are in order without overlap
      and lie before the clock. */
  lemma SrtfLogIsATimeline(resume: bool, w: seq<Line>, clock: int, schedule: seq<Thread>)
    requires Admissible(Srtf(resume), w)
    ensures var s := Run(Srtf(resume), w, clock, schedule);
            var kept := Squeezed(s.log);
            Disjoint(kept) && forall i | 0 <= i < |kept| :: kept[i].start <= kept[i].end <= s.clock
  {
    hide Run, Squeezed, OnePlace, Counter, Tokens, PcFits, ProcsOk, QueuesOk, SchedulerStage, WakeupStage, Mark, InTime,
         Pointers;
    var s := Run(Srtf(resume), w, clock, schedule);
    RunPlaced(resume, w, clock, schedule);
    RunInv(Srtf(resume), w, clock, schedule);
    MarkIsPast(Srtf(resume), s);
    var kept, full := Squeezed(s.log), Squeezed(Full(s));
    assert |kept| <= |full| && forall i | 0 <= i < |kept| :: kept[i] == full[i] by {
      if Pending(s.spc) {
        SqueezedSnoc(s.log, Entry(s.spc.pid, At(s, s.spc.pid).cpuIndex, s.start, s.end));
      }
    }
    hide Full, Squeezed;
  }

  lemma MarkIsPast(pol: Policy, s: State)
    requires PcFits(pol, s) && InTime(s)
    ensures Mark(s) <= s.clock
  {
  }

  // ----- Every run -----

  lemma KeptCharge(pol: Policy, w: seq<Line>, clock: int, schedule: seq<Thread>)
    requires Supported(pol, w) && Charging(Run(pol, w, clock, schedule).spc)
    ensures var s := Run(pol, w, clock, schedule);
            var t := ChargeBurst(pol, s);
            Kept(pol, t) == if Closes(s, t) then Kept(pol, s) + [Slice(s, t)] else Kept(pol, s)
  {
    hide Run, ChargeBurst, Placed, InTime, Squeezed, OnePlace, Counter, Tokens, ProcsOk, QueuesOk, SchedulerStage,
         WakeupStage, Pointers, Full, Closes;
    RunInv(pol, w, clock, schedule);
    FullCharge(pol, Run(pol, w, clock, schedule));
    if pol.Srtf? {
      RunPlaced(pol.resume, w, clock, schedule);
      SliceIsNew(pol.resume, Run(pol, w, clock, schedule));
    }
  }

  lemma LogInit(pol: Policy, w: seq<Line>, clock: int)
    requires Admissible(pol, w)
    ensures LogOk(pol, Init(pol, w, clock))
  {
  }

  lemma {:induction false} RunLogged(pol: Policy, w: seq<Line>, clock: int, schedule: seq<Thread>)
    requires Supported(pol, w)
    ensures LogOk(pol, Run(pol, w, clock, schedule))
    decreases |schedule|
  {
    hide Poll, ChargeBurst, HandOver, WakeupStep, LogOk, Init, OnePlace, Counter, Tokens, ProcsOk, QueuesOk,
         WakeupStage, ChargedAll, Charged, SameBursts, Kept, Closes, NonNegativeLines;
    if schedule == [] {
      LogInit(pol, w, clock);
    } else {
      var n := |schedule| - 1;
      var s := Run(pol, w, clock, schedule[..n]);
      RunLogged(pol, w, clock, schedule[..n]);
      RunInv(pol, w, clock, schedule[..n]);
      if schedule[n] == WakeupThread {
        LinesOfRun(pol, w, clock, schedule[..n]);
        BurstsWakeup(pol, s);
        KeptWakeup(pol, s);
        LogSame(pol, s, WakeupStep(pol, s));
      } else if Polling(s.spc) {
        KeptPoll(pol, s);
        LogSame(pol, s, Poll(s));
      } else if Charging(s.spc) {
        RunBalanced(pol, w, clock, schedule[..n]);
        assert Booked(s, s.spc.pid);
        KeptCharge(pol, w, clock, schedule[..n]);
        LogCharge(pol, s);
      } else {
        BurstsHandOver(pol, s);
        KeptHandOver(pol, s);
        LogSame(pol, s, HandOver(pol, s));
      }
    }
  }

  /** In the end nothing is left to write. */
  lemma DueAtEnd(pol: Policy, w: seq<Line>, clock: int, schedule: seq<Thread>, pid: nat, k: nat)
    requires Supported(pol, w) && Joined(Run(pol, w, clock, schedule))
    ensures var s := Run(pol, w, clock, schedule);
            && |s.procs| == |w| && Full(s) == s.log
            && (pid < |w| ==> |s.procs[pid].h.done| == |w[pid].cpu|)
            && Due(At(s, pid), k)
               == if pid < |w|
                  then Flag(1 <= k <= |w[pid].cpu|)
                       + if k < |w[pid].cpu| then s.procs[pid].h.done[k].preemptions else 0
                  else 0
  {
    hide Run, OnePlace, Counter, ChargedAll, Charged;
    var s := Run(pol, w, clock, schedule);
    RunLines(pol, w, clock, schedule);
    CleanFinish(pol, w, clock, schedule);
    RunBalanced(pol, w, clock, schedule);
    assert pid < |w| ==> Booked(s, pid);
  }

  /** A complete FCFS, SJF or round-robin run logs every pair of a process and a CPU index from one to
      its number of bursts exactly once, and nothing else. */
  lemma LogsEveryBurstOnce(pol: Policy, w: seq<Line>, clock: int, schedule: seq<Thread>, pid: nat, k: nat)
    requires Supported(pol, w) && !pol.Srtf? && Joined(Run(pol, w, clock, schedule))
    ensures Count(Run(pol, w, clock, schedule).log, pid, k) == Flag(pid < |w| && 1 <= k <= |w[pid].cpu|)
  {
    hide Run, Due, Full;
    var s := Run(pol, w, clock, schedule);
    RunLogged(pol, w, clock, schedule);
    DueAtEnd(pol, w, clock, schedule, pid, k);
    RunNoneCut(pol, w, clock, schedule);
    assert Count(Kept(pol, s), pid, k) == Due(At(s, pid), k);
  }

  /** A complete SRTF run logs, apart from lines that repeat the line before them, every burst once
      under its index and every slice cut off from the burst after index k once under k, and
      nothing else. */
  lemma LogsEveryBurstAndCut(resume: bool, w: seq<Line>, clock: int, schedule: seq<Thread>, pid: nat, k: nat)
    requires Admissible(Srtf(resume), w) && Joined(Run(Srtf(resume), w, clock, schedule))
    ensures var s := Run(Srtf(resume), w, clock, schedule);
            && |s.procs| == |w| && (pid < |w| ==> |s.procs[pid].h.done| == |w[pid].cpu|)
            && Count(Squeezed(s.log), pid, k)
               == if pid < |w|
                  then Flag(1 <= k <= |w[pid].cpu|)
                       + if k < |w[pid].cpu| then s.procs[pid].h.done[k].preemptions else 0
                  else 0
  {
    hide Run, Due, Full, Squeezed;
    var s := Run(Srtf(resume), w, clock, schedule);
    RunLogged(Srtf(resume), w, clock, schedule);
    DueAtEnd(Srtf(resume), w, clock, schedule, pid, k);
    assert Count(Kept(Srtf(resume), s), pid, k) == Due(At(s, pid), k);
  }
}
