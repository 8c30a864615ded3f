// What SRTF charges for a burst, on every workload: as written a preempted burst starts over, and
// whatever was charged before is lost.
module Billing {
  import opened Workload
  import opened Protocol
  import opened Safety
  import opened Ledger
  import opened Srtf
  import opened Floor

  /** What a finished burst of length b was charged. */
  predicate ChargeOk(resume: bool, b: int, c: Charge) {
    if resume || c.preemptions == 0 then c.ticks == b
    else c.ticks == 2 * b - c.lastRemaining && c.lastRemaining <= b - c.preemptions
  }

  predicate Charges(resume: bool, p: Proc) {
    |p.h.done| <= |p.line.cpu| && forall k | 0 <= k < |p.h.done| :: ChargeOk(resume, p.line.cpu[k], p.h.done[k])
  }

  /** The ticks charged so far are what is missing from the burst. */
  predicate Paid(p: Proc) {
    p.cpuIndex < |p.line.cpu| && p.h.burst.ticks == p.line.cpu[p.cpuIndex] - p.remaining
  }

  predicate PaidAtRest(p: Proc) {
    p.cpuIndex < |p.line.cpu| ==> Paid(p) && Owes(p, p.remaining)
  }

  predicate PaidOnLoop(s: State) {
    && (s.spc.STick? || s.spc.STest? ==>
          var p := At(s, s.spc.pid); Paid(p) && Owes(p, p.remaining + s.spc.time))
    && (s.spc.SSwapEnd? ==>
          var p := At(s, s.spc.pid);
          Paid(p) && p.remaining <= p.line.cpu[p.cpuIndex] - p.h.burst.preemptions - 1)
  }

  predicate Bills(resume: bool, s: State) {
    && PaidOnLoop(s)
    && (forall q | 0 <= q < |s.procs| && OnLoop(s.spc) != [q] :: PaidAtRest(s.procs[q]))
    && (forall q | 0 <= q < |s.procs| :: Charges(resume, s.procs[q]))
  }

  lemma PaidCharge(resume: bool, s: State, floor: int)
    requires Pointers(s) && Charging(s.spc) && PcFits(Srtf(resume), s) && SchedulerStage(s)
    requires PaidOnLoop(s) && OnCourse(floor, resume, s) && NonNegative(At(s, s.spc.pid).line.cpu)
    requires s.spc.SStart? ==> PaidAtRest(At(s, s.spc.pid))
    ensures var t := ChargeBurst(Srtf(resume), s);
            PaidOnLoop(t) && (OnLoop(t.spc) != [s.spc.pid] ==> PaidAtRest(At(t, s.spc.pid)))
  {
    hide InRange, HeadIsShorter, AllPositive;
  }

  lemma ChargesCharge(resume: bool, s: State, floor: int)
    requires Pointers(s) && Charging(s.spc) && PcFits(Srtf(resume), s) && SchedulerStage(s)
    requires PaidOnLoop(s) && OnCourse(floor, resume, s) && NonNegative(At(s, s.spc.pid).line.cpu)
    requires Charges(resume, At(s, s.spc.pid)) && |At(s, s.spc.pid).h.done| == At(s, s.spc.pid).cpuIndex
    ensures Charges(resume, At(ChargeBurst(Srtf(resume), s), s.spc.pid))
  {
    hide InRange, HeadIsShorter, AllPositive;
  }

  lemma BillsApart(resume: bool, s: State, t: State, pid: nat)
    requires Bills(resume, s) && OnlyChanges(s.procs, t.procs, pid) && pid < |s.procs|
    requires OnLoop(s.spc) == [] || OnLoop(s.spc) == [pid]
    requires OnLoop(t.spc) == [] || OnLoop(t.spc) == [pid]
    requires PaidOnLoop(t) && (OnLoop(t.spc) != [pid] ==> PaidAtRest(At(t, pid))) && Charges(resume, At(t, pid))
    ensures Bills(resume, t)
  {
    hide PaidAtRest, Charges, PaidOnLoop, OnLoop;
  }

  lemma BillsCharge(resume: bool, s: State)
    requires Inv(Srtf(resume), s) && FloorInv(resume, s) && Bills(resume, s) && Charging(s.spc)
    requires |At(s, s.spc.pid).h.done| == At(s, s.spc.pid).cpuIndex
    ensures Bills(resume, ChargeBurst(Srtf(resume), s))
  {
    hide OnePlace, Counter, Tokens, PcFits, SchedulerStage, WakeupStage, QueuesOk, ProcsOk, ChargeBurst, Rests,
         OnCourse, Keys, OnlyChanges, AllSpent, NonNegative, AllPositive, PaidAtRest, Charges, PaidOnLoop;
    var floor := -AllSpent(s.procs);
    ChargeChanges(Srtf(resume), s);
    LoopCharge(resume, s);
    PaidCharge(resume, s, floor);
    ChargesCharge(resume, s, floor);
    BillsApart(resume, s, ChargeBurst(Srtf(resume), s), s.spc.pid);
  }

  lemma BillsSame(resume: bool, s: State, t: State)
    requires Bills(resume, s) && SameBursts(s.procs, t.procs)
    requires t.spc == s.spc || (OnLoop(s.spc) == [] && OnLoop(t.spc) == [])
    ensures Bills(resume, t)
  {
    hide ChargeOk, Owes;
    forall q | 0 <= q < |t.procs|
      ensures PaidAtRest(s.procs[q]) ==> PaidAtRest(t.procs[q])
      ensures Charges(resume, t.procs[q])
    {
      assert SameBurst(s.procs[q], t.procs[q]) && Charges(resume, s.procs[q]);
      PaidSame(s.procs[q], t.procs[q]);
    }
    if OnLoop(s.spc) != [] && s.spc.pid < |s.procs| {
      PaidSame(s.procs[s.spc.pid], t.procs[s.spc.pid]);
    }
  }

  lemma PaidSame(p: Proc, q: Proc)
    requires SameBurst(p, q)
    ensures Paid(q) == Paid(p) && forall rem :: Owes(q, rem) == Owes(p, rem)
  {
  }

  /** In every SRTF run of every workload the ticks charged are what is missing from the burst. */
  lemma {:induction false} RunBills(resume: bool, w: seq<Line>, clock: int, schedule: seq<Thread>)
    requires Admissible(Srtf(resume), w)
    ensures Bills(resume, Run(Srtf(resume), w, clock, schedule))
    decreases |schedule|
  {
    var pol := Srtf(resume);
    hide Poll, ChargeBurst, HandOver, WakeupStep, Bills, FloorInv, OnePlace, Counter, Tokens, SchedulerStage,
         WakeupStage, QueuesOk, ProcsOk, SameBursts;
    if schedule == [] {
      BillsInit(resume, w, clock);
    } else {
      var n := |schedule| - 1;
      var s := Run(pol, w, clock, schedule[..n]);
      RunBills(resume, w, clock, schedule[..n]);
      RunInv(pol, w, clock, schedule[..n]);
      if schedule[n] == WakeupThread {
        BurstsWakeup(pol, s);
        WakeupQuiet(pol, s);
        BillsSame(resume, s, WakeupStep(pol, s));
      } else if Polling(s.spc) {
        PollQuiet(s);
        BillsSame(resume, s, Poll(s));
      } else if Charging(s.spc) {
        RunBalanced(pol, w, clock, schedule[..n]);
        RunFloor(resume, w, clock, schedule[..n]);
        assert Booked(s, s.spc.pid);
        BillsCharge(resume, s);
      } else {
        BurstsHandOver(pol, s);
        LoopHandOver(resume, s);
        BillsSame(resume, s, HandOver(pol, s));
      }
    }
  }

  lemma PollQuiet(s: State)
    requires Polling(s.spc)
    ensures SameBursts(s.procs, Poll(s).procs) && OnLoop(s.spc) == [] && OnLoop(Poll(s).spc) == []
  {
  }

  lemma BillsInit(resume: bool, w: seq<Line>, clock: int)
    requires Admissible(Srtf(resume), w)
    ensures Bills(resume, Init(Srtf(resume), w, clock))
  {
    hide Arrived;
  }
}
