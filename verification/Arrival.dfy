// When the arrival phase admits each process.
module Arrival {
  import opened Workload

  function Max(a: int, b: int): int { if a > b then a else b }

  /** Process j is admitted no earlier than its arrival time, and at most one process per tick. */
  function Admitted(w: seq<Line>, j: nat): (t: int)
    requires j < |w|
  {
    if j == 0 then Max(0, w[0].arrival) else Max(Admitted(w, j - 1) + 1, w[j].arrival)
  }

  /** The admission time is the larger of j and every earlier arrival plus the queue behind it. */
  lemma {:induction false} AdmittedBounds(w: seq<Line>, j: nat)
    requires j < |w|
    ensures Admitted(w, j) >= j
    ensures forall k | 0 <= k <= j :: Admitted(w, j) >= w[k].arrival + j - k
    ensures Admitted(w, j) == j || exists k :: 0 <= k <= j && Admitted(w, j) == w[k].arrival + j - k
  {
    if j > 0 {
      AdmittedBounds(w, j - 1);
      if Admitted(w, j) != w[j].arrival && Admitted(w, j - 1) != j - 1 {
        var k :| 0 <= k <= j - 1 && Admitted(w, j - 1) == w[k].arrival + (j - 1) - k;
        assert Admitted(w, j) == w[k].arrival + j - k;
      }
    }
  }

  predicate OnSchedule(w: seq<Line>) {
    forall j | 0 <= j < |w| :: Admitted(w, j) == w[j].arrival
  }

  predicate StrictlyIncreasing(w: seq<Line>) {
    forall j | 0 <= j < |w| - 1 :: w[j].arrival < w[j + 1].arrival
  }

  /** Everyone is admitted at the arrival time asked for exactly when arrivals start at zero or
      later and strictly increase. */
  lemma OnScheduleIffSpaced(w: seq<Line>)
    requires |w| >= 1
    ensures OnSchedule(w) <==> w[0].arrival >= 0 && StrictlyIncreasing(w)
  {
    if OnSchedule(w) {
      assert Admitted(w, 0) == w[0].arrival;
      forall j | 0 <= j < |w| - 1 ensures w[j].arrival < w[j + 1].arrival {
        assert Admitted(w, j + 1) == w[j + 1].arrival && Admitted(w, j) == w[j].arrival;
      }
    }
    if w[0].arrival >= 0 && StrictlyIncreasing(w) {
      forall j | 0 <= j < |w| ensures Admitted(w, j) == w[j].arrival {
        SpacedIsOnSchedule(w, j);
      }
    }
  }

  lemma {:induction false} SpacedIsOnSchedule(w: seq<Line>, j: nat)
    requires j < |w| && w[0].arrival >= 0 && StrictlyIncreasing(w)
    ensures Admitted(w, j) == w[j].arrival
  {
    if j > 0 {
      SpacedIsOnSchedule(w, j - 1);
      assert w[j - 1].arrival < w[j - 1 + 1].arrival;
    }
  }
}
