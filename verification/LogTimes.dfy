// Where the times in the log come from: both are readings of the clock, the first at the dispatch
// of the process, the second at the end of that same slice.
module LogTimes {
  import opened Workload
  import opened Protocol
  import opened Safety
  import opened Liveness

  /** The state after the first n steps of a schedule. */
  function After(pol: Policy, w: seq<Line>, clock: int, schedule: seq<Thread>, n: nat): State
    requires Admissible(pol, w) && n <= |schedule|
  {
    Run(pol, w, clock, schedule[..n])
  }

  predicate WorksOn(pc: SPc, pid: nat) {
    Charging(pc) && !pc.SStart? && pc.pid == pid
  }

  /** Dispatched at step a, and at work on the same slice ever since, up to step n. */
  ghost predicate Underway(pol: Policy, w: seq<Line>, clock: int, schedule: seq<Thread>, pid: nat, a: nat, n: nat)
    requires Admissible(pol, w)
  {
    && a < n <= |schedule| && After(pol, w, clock, schedule, a).spc == SStart(pid)
    && forall j | a < j <= n :: WorksOn(After(pol, w, clock, schedule, j).spc, pid)
  }

  /** These are the readings of the clock at the dispatch of a slice and at its end, before step n. */
  ghost predicate Reading(pol: Policy, w: seq<Line>, clock: int, schedule: seq<Thread>, n: nat, pid: nat, start: int,
                          end: int)
    requires Admissible(pol, w)
  {
    exists a: nat, b: nat | b < n <= |schedule| ::
      && Underway(pol, w, clock, schedule, pid, a, b)
      && After(pol, w, clock, schedule, a).clock == start && After(pol, w, clock, schedule, b).clock == end
      && !Charging(After(pol, w, clock, schedule, b + 1).spc)
  }

  ghost predicate Opened(pol: Policy, w: seq<Line>, clock: int, schedule: seq<Thread>, n: nat)
    requires Admissible(pol, w) && n <= |schedule|
  {
    var s := After(pol, w, clock, schedule, n);
    Charging(s.spc) && !s.spc.SStart? ==>
      exists a: nat | a < n ::
        Underway(pol, w, clock, schedule, s.spc.pid, a, n) && After(pol, w, clock, schedule, a).clock == s.start
  }

  ghost predicate Closed(pol: Policy, w: seq<Line>, clock: int, schedule: seq<Thread>, n: nat)
    requires Admissible(pol, w) && n <= |schedule|
  {
    var s := After(pol, w, clock, schedule, n);
    && (Pending(s.spc) ==> Reading(pol, w, clock, schedule, n, s.spc.pid, s.start, s.end))
    && forall i | 0 <= i < |s.log| ::
         Reading(pol, w, clock, schedule, n, s.log[i].pid, s.log[i].start, s.log[i].end)
  }

  lemma ReadingStays(pol: Policy, w: seq<Line>, clock: int, schedule: seq<Thread>, n: nat, m: nat, pid: nat, start: int,
                     end: int)
    requires Admissible(pol, w) && n <= m <= |schedule| && Reading(pol, w, clock, schedule, n, pid, start, end)
    ensures Reading(pol, w, clock, schedule, m, pid, start, end)
  {
    hide After, Underway;
  }

  lemma AfterNext(pol: Policy, w: seq<Line>, clock: int, schedule: seq<Thread>, n: nat)
    requires Admissible(pol, w) && n < |schedule|
    ensures After(pol, w, clock, schedule, n + 1) == Step(pol, schedule[n], After(pol, w, clock, schedule, n))
  {
    hide Run, Step;
    assert schedule[..n + 1] == schedule[..n] + [schedule[n]];
    RunSnoc(pol, w, clock, schedule[..n], schedule[n]);
  }

  // ----- What a step does to the times -----

  /** A charging step goes on with the slice, opens it or ends it. */
  lemma ChargeTimes(pol: Policy, s: State)
    requires Pointers(s) && SchedulerStage(s) && PcFits(pol, s) && Charging(s.spc)
    ensures var t, pid := ChargeBurst(pol, s), s.spc.pid;
            && (Charging(t.spc) || Pending(t.spc) || t.spc.SSwapPut?) && t.spc.pid == pid && !t.spc.SStart?
            && t.start == (if s.spc.SStart? then s.clock else s.start)
            && (s.spc.SStart? ==> Charging(t.spc))
            && (Pending(t.spc) ==> t.end == s.clock)
            && t.log == (if s.spc.SSwapEnd? then s.log + [Entry(pid, At(s, pid).cpuIndex, s.start, s.clock)]
                         else s.log)
            && (s.spc.SSwapEnd? ==> !Charging(t.spc) && !Pending(t.spc))
  {
    ChargeShape(pol, s);
    hide InRange, HeadIsShorter, SchedulerStage, At, Replace, Refill, Tick, CloseBurst, Preempt;
  }

  lemma OtherTimes(pol: Policy, s: State)
    requires !Charging(s.spc) && PcFits(pol, s)
    ensures var t := SchedulerStep(pol, s);
            && t.start == s.start && t.end == s.end && (Charging(t.spc) ==> t.spc.SStart?)
            && (Pending(t.spc) ==> Pending(s.spc) && t.spc.pid == s.spc.pid)
            && t.log == if s.spc.SLog?
                        then s.log + [Entry(s.spc.pid, At(s, s.spc.pid).cpuIndex, s.start, s.end)] else s.log
  {
    if Polling(s.spc) {
      hide HandOver, ChargeBurst, At;
    } else {
      HandOverTimes(pol, s);
      hide HandOver, ChargeBurst, Poll, At;
    }
  }

  lemma HandOverTimes(pol: Policy, s: State)
    requires !Charging(s.spc) && !Polling(s.spc) && PcFits(pol, s)
    ensures var t := HandOver(pol, s);
            && t.start == s.start && t.end == s.end && (Charging(t.spc) ==> t.spc.SStart?)
            && (Pending(t.spc) ==> Pending(s.spc) && t.spc.pid == s.spc.pid)
            && t.log == if s.spc.SLog?
                        then s.log + [Entry(s.spc.pid, At(s, s.spc.pid).cpuIndex, s.start, s.end)] else s.log
  {
    hide ShouldTerminate, Enqueue, At, Replace, Handled, Finish;
  }

  lemma WakeupTimes(pol: Policy, s: State)
    ensures var t := WakeupStep(pol, s);
            t.spc == s.spc && t.start == s.start && t.end == s.end && t.log == s.log
  {
    hide ShouldTerminate, Enqueue, At, Replace;
  }

  // ----- Every step of every run -----

  lemma OpenedNext(pol: Policy, w: seq<Line>, clock: int, schedule: seq<Thread>, n: nat)
    requires Admissible(pol, w) && n < |schedule| && Opened(pol, w, clock, schedule, n)
    requires var s, t := After(pol, w, clock, schedule, n), After(pol, w, clock, schedule, n + 1);
             Charging(t.spc) && !t.spc.SStart? ==>
               && Charging(s.spc) && t.spc.pid == s.spc.pid
               && t.start == if s.spc.SStart? then s.clock else s.start
    ensures Opened(pol, w, clock, schedule, n + 1)
  {
    hide After;
    var s, t := After(pol, w, clock, schedule, n), After(pol, w, clock, schedule, n + 1);
    if Charging(t.spc) && !t.spc.SStart? {
      if s.spc.SStart? {
        assert Underway(pol, w, clock, schedule, t.spc.pid, n, n + 1);
      } else {
        var a: nat :| a < n && Underway(pol, w, clock, schedule, s.spc.pid, a, n)
                      && After(pol, w, clock, schedule, a).clock == s.start;
        assert Underway(pol, w, clock, schedule, t.spc.pid, a, n + 1);
      }
    }
  }

  /** The step that ends a slice reads the clock. */
  lemma ReadingEnds(pol: Policy, w: seq<Line>, clock: int, schedule: seq<Thread>, n: nat)
    requires Admissible(pol, w) && n < |schedule| && Opened(pol, w, clock, schedule, n)
    requires var s := After(pol, w, clock, schedule, n); Charging(s.spc) && !s.spc.SStart?
    requires !Charging(After(pol, w, clock, schedule, n + 1).spc)
    ensures var s := After(pol, w, clock, schedule, n);
            Reading(pol, w, clock, schedule, n + 1, s.spc.pid, s.start, s.clock)
  {
    hide After, Underway;
  }

  lemma ClosedNext(pol: Policy, w: seq<Line>, clock: int, schedule: seq<Thread>, n: nat)
    requires Admissible(pol, w) && n < |schedule| && Closed(pol, w, clock, schedule, n)
    requires var s, t := After(pol, w, clock, schedule, n), After(pol, w, clock, schedule, n + 1);
             && (Pending(t.spc) ==>
                   || Reading(pol, w, clock, schedule, n + 1, t.spc.pid, t.start, t.end)
                   || (Pending(s.spc) && t.spc.pid == s.spc.pid && t.start == s.start && t.end == s.end))
             && s.log <= t.log
             && forall i | |s.log| <= i < |t.log| ::
                  Reading(pol, w, clock, schedule, n + 1, t.log[i].pid, t.log[i].start, t.log[i].end)
    ensures Closed(pol, w, clock, schedule, n + 1)
  {
    hide After, Reading;
    var s, t := After(pol, w, clock, schedule, n), After(pol, w, clock, schedule, n + 1);
    if Pending(s.spc) {
      ReadingStays(pol, w, clock, schedule, n, n + 1, s.spc.pid, s.start, s.end);
    }
    forall i | 0 <= i < |t.log|
      ensures Reading(pol, w, clock, schedule, n + 1, t.log[i].pid, t.log[i].start, t.log[i].end)
    {
      if i < |s.log| {
        assert t.log[i] == s.log[i];
        ReadingStays(pol, w, clock, schedule, n, n + 1, s.log[i].pid, s.log[i].start, s.log[i].end);
      }
    }
  }

  /** ChargeTimes for a step of a run. */
  lemma ChargeStep(pol: Policy, w: seq<Line>, clock: int, schedule: seq<Thread>, n: nat)
    requires Supported(pol, w) && n < |schedule| && schedule[n] == SchedulerThread
    requires Charging(After(pol, w, clock, schedule, n).spc)
    ensures var s, t := After(pol, w, clock, schedule, n), After(pol, w, clock, schedule, n + 1);
            && (Charging(t.spc) || Pending(t.spc) || t.spc.SSwapPut?) && t.spc.pid == s.spc.pid && !t.spc.SStart?
            && t.start == (if s.spc.SStart? then s.clock else s.start)
            && (s.spc.SStart? ==> Charging(t.spc))
            && (Pending(t.spc) ==> t.end == s.clock)
            && t.log == (if s.spc.SSwapEnd? then s.log + [Entry(s.spc.pid, At(s, s.spc.pid).cpuIndex, s.start, s.clock)]
                         else s.log)
            && (s.spc.SSwapEnd? ==> !Charging(t.spc) && !Pending(t.spc))
  {
    AfterNext(pol, w, clock, schedule, n);
    RunInv(pol, w, clock, schedule[..n]);
    hide ChargeBurst, OnePlace, Counter, Tokens, ProcsOk, QueuesOk, SchedulerStage, WakeupStage, PcFits, Pointers, Run,
         At;
    ChargeTimes(pol, After(pol, w, clock, schedule, n));
  }

  lemma ChargeReads(pol: Policy, w: seq<Line>, clock: int, schedule: seq<Thread>, n: nat)
    requires Supported(pol, w) && n < |schedule| && schedule[n] == SchedulerThread
    requires Opened(pol, w, clock, schedule, n) && Closed(pol, w, clock, schedule, n)
    requires Charging(After(pol, w, clock, schedule, n).spc)
    ensures Opened(pol, w, clock, schedule, n + 1) && Closed(pol, w, clock, schedule, n + 1)
  {
    hide Opened, Closed, Reading, After, At;
    var t := After(pol, w, clock, schedule, n + 1);
    ChargeStep(pol, w, clock, schedule, n);
    OpenedNext(pol, w, clock, schedule, n);
    if !Charging(t.spc) {
      ReadingEnds(pol, w, clock, schedule, n);
    }
    ClosedNext(pol, w, clock, schedule, n);
  }

  lemma OtherReads(pol: Policy, w: seq<Line>, clock: int, schedule: seq<Thread>, n: nat)
    requires Supported(pol, w) && n < |schedule|
    requires Opened(pol, w, clock, schedule, n) && Closed(pol, w, clock, schedule, n)
    requires schedule[n] == WakeupThread || !Charging(After(pol, w, clock, schedule, n).spc)
    ensures Opened(pol, w, clock, schedule, n + 1) && Closed(pol, w, clock, schedule, n + 1)
  {
    hide Opened, Reading, OnePlace, Counter, Tokens, ProcsOk, QueuesOk, SchedulerStage, WakeupStage, Pointers, Run,
         SchedulerStep, WakeupStep;
    var s := After(pol, w, clock, schedule, n);
    AfterNext(pol, w, clock, schedule, n);
    if schedule[n] == WakeupThread {
      WakeupTimes(pol, s);
    } else {
      RunInv(pol, w, clock, schedule[..n]);
      OtherTimes(pol, s);
    }
    hide After, PcFits;
    if s.spc.SLog? {
      ReadingStays(pol, w, clock, schedule, n, n + 1, s.spc.pid, s.start, s.end);
    }
    OpenedNext(pol, w, clock, schedule, n);
    ClosedNext(pol, w, clock, schedule, n);
  }

  lemma {:induction false} RunReads(pol: Policy, w: seq<Line>, clock: int, schedule: seq<Thread>, n: nat)
    requires Supported(pol, w) && n <= |schedule|
    ensures Opened(pol, w, clock, schedule, n) && Closed(pol, w, clock, schedule, n)
  {
    if n == 0 {
      hide Reading;
    } else {
      hide Opened, Closed, After;
      RunReads(pol, w, clock, schedule, n - 1);
      if schedule[n - 1] == SchedulerThread && Charging(After(pol, w, clock, schedule, n - 1).spc) {
        ChargeReads(pol, w, clock, schedule, n - 1);
      } else {
        OtherReads(pol, w, clock, schedule, n - 1);
      }
    }
  }

  /** In every run of every policy the two times of a log line are what the clock showed when its process
      was dispatched and when that same slice ended. */
  lemma LogTimesAreReadings(pol: Policy, w: seq<Line>, clock: int, schedule: seq<Thread>, i: nat)
    requires Supported(pol, w) && i < |Run(pol, w, clock, schedule).log|
    ensures var e := Run(pol, w, clock, schedule).log[i];
            Reading(pol, w, clock, schedule, |schedule|, e.pid, e.start, e.end)
  {
    hide Run, Reading;
    RunReads(pol, w, clock, schedule, |schedule|);
    assert schedule[..|schedule|] == schedule;
  }
}
