// Two small workloads on which the program departs from its manual.
module Examples {
  import opened Workload
  import opened Protocol
  import opened Srtf
  import opened KeyAgreement
  import opened Pairwise
  import opened PairwiseRuns
  import opened SjfExact

  const SJF_JOBS := [Line(0, [1, 9], [1]), Line(1, [2], [])]

  /** Under SJF as written a process whose current burst is nine is dispatched before one whose is two. */
  lemma SjfRunsTheLongerBurst()
    ensures exists schedule ::
              var s := Run(Sjf, SJF_JOBS, 1, schedule);
              HeadIs(s, 0) && Stands(SJF_JOBS, s, 0, 1) && Has(s.ready, 1) && Stands(SJF_JOBS, s, 1, 0)
  {
    hide Run, Poised, HeadIs, Has, Stands;
    var a := BringTogether(SJF_JOBS, 1, 0, 1, 1, 0);
    var b := HuntHead(Sjf, SJF_JOBS, 1, a, 0, 1);
    Standing(SJF_JOBS, Run(Sjf, SJF_JOBS, 1, a), Run(Sjf, SJF_JOBS, 1, b), 0, 1);
    Standing(SJF_JOBS, Run(Sjf, SJF_JOBS, 1, a), Run(Sjf, SJF_JOBS, 1, b), 1, 0);
  }

  const STALE_JOBS := [Line(0, [1], [1])]

  /** A line that ends in I/O leaves a ready node whose key is not the remaining time. */
  lemma StaleKeyAfterLastIo()
    ensures exists schedule :: !Agrees(Run(Srtf(false), STALE_JOBS, 0, schedule))
  {
    assert !CpuEnded(STALE_JOBS[0]);
    hide Run, Agrees;
    KeysAgreeIffCpuEnded(false, STALE_JOBS, 0);
  }
}
