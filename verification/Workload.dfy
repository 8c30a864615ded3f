// The parsed workload: one line per process, as the burst-line parser delivers it.
module Workload {

  /** One process: its arrival time and its alternating CPU and I/O bursts. */
  datatype Line = Line(arrival: int, cpu: seq<int>, io: seq<int>)

  /** What the parser guarantees about the two burst lists of every line. */
  predicate Alternating(l: Line) {
    |l.io| <= |l.cpu| <= |l.io| + 1
  }

  predicate NonNegative(s: seq<int>) {
    forall i | 0 <= i < |s| :: s[i] >= 0
  }

  /** A line every scheduler can run: alternating, with bursts of no negative length. */
  predicate WellFormed(l: Line) {
    Alternating(l) && NonNegative(l.cpu) && NonNegative(l.io)
  }

  predicate AllWellFormed(w: seq<Line>) {
    forall i | 0 <= i < |w| :: WellFormed(w[i])
  }

  function Sum(s: seq<int>): int {
    if s == [] then 0 else Sum(s[..|s| - 1]) + s[|s| - 1]
  }

  lemma SumPrefix(s: seq<int>, k: nat)
    requires k < |s|
    ensures Sum(s[..k + 1]) == Sum(s[..k]) + s[k]
  {
    assert s[..k + 1][..k] == s[..k];
  }

  lemma {:induction false} SumNonNegative(s: seq<int>)
    requires NonNegative(s)
    ensures Sum(s) >= 0
  {
    if s != [] {
      SumNonNegative(s[..|s| - 1]);
    }
  }
}
