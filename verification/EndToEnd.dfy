// From the text of a burst file to a run without faults.
module EndToEnd {
  import opened Workload
  import opened Protocol
  import opened Safety
  import opened LinkedQueue
  import opened BurstParser

  predicate ParsedFrom(lines: seq<string>, w: seq<Line>) {
    |lines| == |w| && forall i | 0 <= i < |w| :: Parse(lines[i]) == Some(w[i])
  }

  /** What the parser delivers is what keeps every burst read of every run in bounds: of the file
      itself only the signs of the bursts matter, and that a first burst is there to make a key of. */
  lemma ParsedWorkloadRunsSafely(pol: Policy, lines: seq<string>, w: seq<Line>, clock: int, schedule: seq<Thread>)
    requires ParsedFrom(lines, w) && |w| >= 1 && (pol.Rr? ==> pol.quantum >= 0)
    requires forall i | 0 <= i < |w| :: NonNegative(w[i].cpu) && NonNegative(w[i].io)
    requires pol != Fcfs ==> forall i | 0 <= i < |w| :: |w[i].cpu| >= 1
    ensures Admissible(pol, w)
    ensures var s := Run(pol, w, clock, schedule);
            && s.spc != SFault && s.wpc != WFault
            && (s.spc.SStart? || s.spc.SAdd? || s.spc.SEnd? ==>
                  At(s, s.spc.pid).cpuIndex < |At(s, s.spc.pid).line.cpu|)
            && (s.wpc.WAdd? ==> At(s, s.wpc.pid).ioIndex < |At(s, s.wpc.pid).line.io|)
  {
    hide Run, Parse, OnePlace, Counter, Tokens, PcFits;
    forall i | 0 <= i < |w| ensures WellFormed(w[i]) {
      ParsedAlternates(lines[i]);
    }
    RunInv(pol, w, clock, schedule);
  }
}
