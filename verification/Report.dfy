// The final report: average and maximum turnaround over the task list.
module Report {
  import opened Workload
  import opened QueueSpec
  import opened Protocol
  import opened Safety
  import opened OneShot
  import opened SrtfResults
  import opened RoundRobin
  import opened RoundRobinResults
  import opened LinkedQueue

  /** Integer division as C does it, truncating toward zero. */
  function Quotient(a: int, b: int): int
    requires b > 0
  {
    if a >= 0 then a / b else -((-a) / b)
  }

  /** q is a divided by b without the fraction. */
  predicate Truncated(q: int, a: int, b: int) {
    if a >= 0 then q * b <= a < (q + 1) * b else (q - 1) * b < a <= q * b
  }

  lemma QuotientBounds(a: int, b: int)
    requires b > 0
    ensures Truncated(Quotient(a, b), a, b)
  {
  }

  /** The larger of zero and the largest entry. */
  function Largest(ts: seq<int>): int {
    if ts == [] then 0
    else
      var n := |ts| - 1;
      if ts[n] > Largest(ts[..n]) then ts[n] else Largest(ts[..n])
  }

  /** It bounds every entry from above and is one of them, if it is not zero. */
  lemma {:induction false} LargestBounds(ts: seq<int>)
    ensures Largest(ts) >= 0 && forall i | 0 <= i < |ts| :: ts[i] <= Largest(ts)
    ensures Largest(ts) == 0 || Largest(ts) in ts
  {
    if ts != [] {
      var n := |ts| - 1;
      LargestBounds(ts[..n]);
      forall i | 0 <= i < |ts| ensures ts[i] <= Largest(ts) {
        if i < n {
          assert ts[..n][i] <= Largest(ts[..n]);
        }
      }
    }
  }

  datatype Figures = Figures(average: int, maximum: int)

  /** What is printed for these turnaround times. */
  function Summary(ts: seq<int>, total: int): Figures
    requires total > 0
  {
    Figures(Quotient(Sum(ts), total), Largest(ts))
  }

  predicate Below(ids: seq<nat>, n: nat) {
    forall i | 0 <= i < |ids| :: ids[i] < n
  }

  /** The values at these positions, in this order. */
  function Picked(ts: seq<int>, ids: seq<nat>): (r: seq<int>)
    requires Below(ids, |ts|)
    ensures |r| == |ids|
  {
    seq(|ids|, i requires 0 <= i < |ids| => ts[ids[i]])
  }

  function Turnarounds(ps: seq<Proc>): (r: seq<int>)
    ensures |r| == |ps|
  {
    seq(|ps|, i requires 0 <= i < |ps| => ps[i].turnaround)
  }

  /** The turnaround times in the order of a task list. */
  function Listed(ps: seq<Proc>, q: seq<Node>): (r: seq<int>)
    requires InRange(q, |ps|)
    ensures |r| == |q|
  {
    seq(|q|, i requires 0 <= i < |q| => ps[q[i].pid].turnaround)
  }

  /** The walk over the task list: it stops before the last node, which is added afterwards. */
  method WriteResult(taskList: Queue, ps: seq<Proc>, total: int) returns (average: int, maximum: int)
    requires taskList.Valid() && taskList.len > 0 && total > 0
    requires InRange(taskList.Contents(), |ps|)
    ensures Figures(average, maximum) == Summary(Listed(ps, taskList.Contents()), total)
    ensures Truncated(average, Sum(Listed(ps, taskList.Contents())), total)
    ensures IsLargest(maximum, ps, taskList.Contents())
  {
    ghost var q := taskList.Contents();
    hide Listed, Largest, Sum, Nodes, InRange, Quotient, Truncated, IsLargest;
    ghost var ts := Listed(ps, q);
    Nothing(ts);
    average, maximum := 0, 0;
    var tnode := taskList.front;
    ghost var i := 0;
    while tnode.next != null
      invariant 0 <= i < |q| && tnode == taskList.spine[i]
      invariant average == Sum(ts[..i]) && maximum == Largest(ts[..i])
      decreases |q| - i
    {
      Visits(taskList.spine, ps, i);
      Extend(ts, i);
      average := average + ps[tnode.data].turnaround;
      maximum := if ps[tnode.data].turnaround > maximum then ps[tnode.data].turnaround else maximum;
      tnode := tnode.next;
      i := i + 1;
    }
    Visits(taskList.spine, ps, i);
    Extend(ts, i);
    Whole(ts, i + 1);
    average := average + ps[tnode.data].turnaround;
    maximum := if ps[tnode.data].turnaround > maximum then ps[tnode.data].turnaround else maximum;
    QuotientBounds(average, total);
    LargestListed(ps, q);
    average := Quotient(average, total);
  }

  /** The largest turnaround time on the list, or zero if none is positive. */
  predicate IsLargest(m: int, ps: seq<Proc>, q: seq<Node>)
    requires InRange(q, |ps|)
  {
    && (forall i | 0 <= i < |q| :: ps[q[i].pid].turnaround <= m)
    && (m == 0 || exists i | 0 <= i < |q| :: ps[q[i].pid].turnaround == m)
  }

  lemma LargestListed(ps: seq<Proc>, q: seq<Node>)
    requires InRange(q, |ps|)
    ensures IsLargest(Largest(Listed(ps, q)), ps, q)
  {
    hide Largest;
    var ts := Listed(ps, q);
    LargestBounds(ts);
    assert forall i | 0 <= i < |q| :: ts[i] == ps[q[i].pid].turnaround;
  }

  lemma Whole(ts: seq<int>, n: nat)
    requires n == |ts|
    ensures ts[..n] == ts
  {
  }

  lemma Visits(spine: seq<Cell>, ps: seq<Proc>, i: nat)
    requires InRange(Nodes(spine), |ps|) && i < |spine|
    ensures spine[i].data < |ps|
    ensures Listed(ps, Nodes(spine))[i] == ps[spine[i].data].turnaround
  {
    assert Nodes(spine)[i].pid == spine[i].data;
  }

  lemma Nothing(ts: seq<int>)
    ensures Sum(ts[..0]) == 0 && Largest(ts[..0]) == 0
  {
  }

  lemma Extend(ts: seq<int>, i: nat)
    requires i < |ts|
    ensures Sum(ts[..i + 1]) == Sum(ts[..i]) + ts[i]
    ensures Largest(ts[..i + 1]) == if ts[i] > Largest(ts[..i]) then ts[i] else Largest(ts[..i])
  {
    assert ts[..i + 1][..i] == ts[..i];
  }

  // ----- The order of the task list does not matter -----

  lemma {:induction false} SumWithout(s: seq<int>, k: nat)
    requires k < |s|
    ensures Sum(s) == Sum(s[..k] + s[k + 1..]) + s[k]
  {
    var n := |s| - 1;
    if k == n {
      assert s[..k] + s[k + 1..] == s[..n];
    } else {
      SumWithout(s[..n], k);
      assert (s[..k] + s[k + 1..])[..n - 1] == s[..n][..k] + s[..n][k + 1..];
    }
  }

  /** A permutation has the last entry somewhere, and without it is a permutation of the rest. */
  lemma FindLast(a: seq<int>, b: seq<int>) returns (k: nat)
    requires multiset(a) == multiset(b) && a != []
    ensures k < |b| && b[k] == a[|a| - 1]
    ensures multiset(a[..|a| - 1]) == multiset(b[..k] + b[k + 1..])
  {
    var n := |a| - 1;
    SplitLast(a);
    assert a[n] in multiset(b);
    k :| 0 <= k < |b| && b[k] == a[n];
    SplitAt(b, k);
    Cancel(multiset(a[..n]), multiset(b[..k] + b[k + 1..]), a[n]);
  }

  lemma Cancel(m: multiset<int>, n: multiset<int>, x: int)
    requires m + multiset{x} == n + multiset{x}
    ensures m == n
  {
    forall y ensures m[y] == n[y] {
      assert (m + multiset{x})[y] == (n + multiset{x})[y];
    }
  }

  lemma SplitLast(a: seq<int>)
    requires a != []
    ensures multiset(a) == multiset(a[..|a| - 1]) + multiset{a[|a| - 1]}
  {
    assert a == a[..|a| - 1] + [a[|a| - 1]];
  }

  lemma SplitAt(b: seq<int>, k: nat)
    requires k < |b|
    ensures multiset(b) == multiset(b[..k] + b[k + 1..]) + multiset{b[k]}
  {
    assert b == b[..k] + [b[k]] + b[k + 1..];
  }

  lemma {:induction false} SumPermutes(a: seq<int>, b: seq<int>)
    requires multiset(a) == multiset(b)
    ensures Sum(a) == Sum(b)
  {
    assert |multiset(a)| == |a| && |multiset(b)| == |b|;
    if a != [] {
      var k := FindLast(a, b);
      SumWithout(b, k);
      SumPermutes(a[..|a| - 1], b[..k] + b[k + 1..]);
    }
  }

  lemma LargestPermutes(a: seq<int>, b: seq<int>)
    requires multiset(a) == multiset(b)
    ensures Largest(a) == Largest(b)
  {
    LargestBounds(a);
    LargestBounds(b);
    assert forall x :: x in a <==> x in multiset(a);
    assert forall x :: x in b <==> x in multiset(b);
  }

  /** The same turnaround times in any order print the same report. */
  lemma SummaryPermutes(a: seq<int>, b: seq<int>, total: int)
    requires multiset(a) == multiset(b) && total > 0
    ensures Summary(a, total) == Summary(b, total)
  {
    SumPermutes(a, b);
    LargestPermutes(a, b);
  }

  /** Every number below n exactly once. */
  ghost predicate Permutation(ids: seq<nat>, n: nat) {
    forall p: nat :: multiset(ids)[p] == Flag(p < n)
  }

  lemma PermutationInRange(ids: seq<nat>, n: nat)
    requires Permutation(ids, n)
    ensures Below(ids, n)
  {
    forall i | 0 <= i < |ids| ensures ids[i] < n {
      assert ids[i] in multiset(ids);
    }
  }

  /** Taking out the largest of the numbers leaves a permutation of the others. */
  lemma WithoutLast(ids: seq<nat>, k: nat, n: nat)
    requires Permutation(ids, n + 1) && k < |ids| && ids[k] == n
    ensures Permutation(ids[..k] + ids[k + 1..], n)
  {
    var a, b := ids[..k], ids[k + 1..];
    assert ids == a + [n] + b;
    forall p: nat ensures multiset(a + b)[p] == Flag(p < n) {
      assert multiset(ids)[p] == Flag(p < n + 1);
      assert multiset(ids)[p] == multiset(a + b)[p] + multiset{n}[p];
    }
  }

  lemma {:induction false} PickedPermutes(ts: seq<int>, ids: seq<nat>)
    requires Permutation(ids, |ts|) && Below(ids, |ts|)
    ensures multiset(Picked(ts, ids)) == multiset(ts)
  {
    if ts == [] {
      assert ids == [];
    } else {
      var n := |ts| - 1;
      assert multiset(ids)[n] == 1;
      var k :| 0 <= k < |ids| && ids[k] == n;
      hide Permutation, Picked;
      WithoutLast(ids, k, n);
      PermutationInRange(ids[..k] + ids[k + 1..], n);
      PickedPermutes(ts[..n], ids[..k] + ids[k + 1..]);
      SplitPick(ts, ids, k);
      assert ts == ts[..n] + [ts[n]];
    }
  }

  lemma SplitPick(ts: seq<int>, ids: seq<nat>, k: nat)
    requires ts != [] && Below(ids, |ts|) && k < |ids| && ids[k] == |ts| - 1
    requires Below(ids[..k] + ids[k + 1..], |ts| - 1)
    ensures multiset(Picked(ts, ids))
         == multiset(Picked(ts[..|ts| - 1], ids[..k] + ids[k + 1..])) + multiset{ts[|ts| - 1]}
  {
    var a, b, front := ids[..k], ids[k + 1..], ts[..|ts| - 1];
    assert forall i | 0 <= i < |a| :: a[i] == (a + b)[i];
    assert forall i | 0 <= i < |b| :: b[i] == (a + b)[|a| + i];
    assert Picked(ts, ids) == Picked(front, a) + [ts[|ts| - 1]] + Picked(front, b);
    assert Picked(front, a + b) == Picked(front, a) + Picked(front, b);
  }

  // ----- What complete runs print -----

  /** The task list keeps the order of the arrival phase and is never changed. */
  function TaskList(pol: Policy, w: seq<Line>): (q: seq<Node>)
    requires Admissible(pol, w)
    ensures InRange(q, |w|)
  {
    Arrived(pol, NewProcs(pol, w), |w|)
  }

  function Printed(pol: Policy, w: seq<Line>, ps: seq<Proc>): Figures
    requires Admissible(pol, w) && |ps| == |w|
  {
    Summary(Listed(ps, TaskList(pol, w)), |w|)
  }

  /** What each process asks for: the sum of all its bursts. */
  function Totals(w: seq<Line>): (r: seq<int>)
    ensures |r| == |w|
  {
    seq(|w|, i requires 0 <= i < |w| => Sum(w[i].cpu) + Sum(w[i].io))
  }

  /** The printed report is that of the turnaround times in process order. */
  lemma PrintedIsSummary(pol: Policy, w: seq<Line>, ps: seq<Proc>)
    requires Admissible(pol, w) && |ps| == |w|
    ensures Printed(pol, w, ps) == Summary(Turnarounds(ps), |w|)
  {
    hide Summary, Arrived, Permutation;
    var q := TaskList(pol, w);
    ArrivedPids(pol, NewProcs(pol, w), |w|);
    assert Permutation(Pids(q), |w|) by { PermutationOf(q, |w|); }
    PermutationInRange(Pids(q), |w|);
    PickedPermutes(Turnarounds(ps), Pids(q));
    assert Listed(ps, q) == Picked(Turnarounds(ps), Pids(q));
    SummaryPermutes(Listed(ps, q), Turnarounds(ps), |w|);
  }

  lemma PermutationOf(q: seq<Node>, n: nat)
    requires forall p: nat :: multiset(Pids(q))[p] == Flag(p < n)
    ensures Permutation(Pids(q), n)
  {
  }

  /** Every complete FCFS or SJF run prints the figures of the bursts, whatever the interleaving and
      although the two task lists are ordered differently. */
  lemma OneShotPrintsTheBursts(pol: Policy, w: seq<Line>, clock: int, schedule: seq<Thread>)
    requires Admissible(pol, w) && !pol.Ticking() && Joined(Run(pol, w, clock, schedule))
    ensures var ps := Run(pol, w, clock, schedule).procs;
            |ps| == |w| && Printed(pol, w, ps) == Summary(Totals(w), |w|)
  {
    hide Run, Printed, Summary;
    var ps := Run(pol, w, clock, schedule).procs;
    RunLines(pol, w, clock, schedule);
    forall i | 0 <= i < |w| ensures Turnarounds(ps)[i] == Totals(w)[i] {
      TurnaroundIsTotalBurst(pol, w, clock, schedule, i);
    }
    assert Turnarounds(ps) == Totals(w);
    PrintedIsSummary(pol, w, ps);
  }

  /** So does every complete run of the corrected SRTF, and as written SRTF never prints less. */
  lemma SrtfPrintsAtLeastTheBursts(resume: bool, w: seq<Line>, clock: int, schedule: seq<Thread>)
    requires Admissible(Srtf(resume), w) && Joined(Run(Srtf(resume), w, clock, schedule))
    ensures var ps := Run(Srtf(resume), w, clock, schedule).procs;
            var ideal := Summary(Totals(w), |w|);
            && |ps| == |w|
            && (resume ==> Printed(Srtf(resume), w, ps) == ideal)
            && Printed(Srtf(resume), w, ps).average >= ideal.average
            && Printed(Srtf(resume), w, ps).maximum >= ideal.maximum
  {
    hide Run, Printed, Summary, Admissible;
    var pol, ps := Srtf(resume), Run(Srtf(resume), w, clock, schedule).procs;
    RunLines(pol, w, clock, schedule);
    SrtfTurnarounds(resume, w, clock, schedule);
    PrintedIsSummary(pol, w, ps);
    SummaryGrows(Totals(w), Turnarounds(ps), |w|);
    if resume {
      SummaryGrows(Turnarounds(ps), Totals(w), |w|);
      assert Turnarounds(ps) == Totals(w);
    }
  }

  lemma SrtfTurnarounds(resume: bool, w: seq<Line>, clock: int, schedule: seq<Thread>)
    requires Admissible(Srtf(resume), w) && Joined(Run(Srtf(resume), w, clock, schedule))
    ensures var ps := Run(Srtf(resume), w, clock, schedule).procs;
            |w| >= 1 && |ps| == |w| && forall i | 0 <= i < |w| ::
              Turnarounds(ps)[i] >= Totals(w)[i] && (resume ==> Turnarounds(ps)[i] == Totals(w)[i])
  {
    hide Run;
    var ps := Run(Srtf(resume), w, clock, schedule).procs;
    RunLines(Srtf(resume), w, clock, schedule);
    forall i | 0 <= i < |w|
      ensures Turnarounds(ps)[i] >= Totals(w)[i] && (resume ==> Turnarounds(ps)[i] == Totals(w)[i])
    {
      TurnaroundUnderSrtf(resume, w, clock, schedule, i);
    }
  }

  /** Round robin prints the figures of the workload cut at the quantum. */
  lemma RrPrintsTheCutBursts(quantum: nat, w: seq<Line>, clock: int, schedule: seq<Thread>)
    requires Admissible(Rr(quantum), w) && Joined(Run(Rr(quantum), w, clock, schedule))
    ensures var ps := Run(Rr(quantum), w, clock, schedule).procs;
            |ps| == |w| && Printed(Rr(quantum), w, ps) == Summary(Totals(CutWorkload(w, quantum)), |w|)
  {
    hide Run, Printed, Summary;
    var ps := Run(Rr(quantum), w, clock, schedule).procs;
    RunLines(Rr(quantum), w, clock, schedule);
    forall i | 0 <= i < |w| ensures Turnarounds(ps)[i] == Totals(CutWorkload(w, quantum))[i] {
      TurnaroundUnderRr(quantum, w, clock, schedule, i);
    }
    assert Turnarounds(ps) == Totals(CutWorkload(w, quantum));
    PrintedIsSummary(Rr(quantum), w, ps);
  }

  /** The two complete runs of one workload under FCFS and SJF print the same two numbers. */
  lemma FcfsAndSjfPrintTheSame(w: seq<Line>, clock1: int, schedule1: seq<Thread>, clock2: int, schedule2: seq<Thread>)
    requires Admissible(Sjf, w) && Joined(Run(Fcfs, w, clock1, schedule1)) && Joined(Run(Sjf, w, clock2, schedule2))
    ensures |Run(Fcfs, w, clock1, schedule1).procs| == |w| == |Run(Sjf, w, clock2, schedule2).procs|
    ensures Printed(Fcfs, w, Run(Fcfs, w, clock1, schedule1).procs)
         == Printed(Sjf, w, Run(Sjf, w, clock2, schedule2).procs)
  {
    hide Run, Printed, Summary;
    OneShotPrintsTheBursts(Fcfs, w, clock1, schedule1);
    OneShotPrintsTheBursts(Sjf, w, clock2, schedule2);
  }

  // ----- Average and maximum -----

  lemma {:induction false} SumGrows(a: seq<int>, b: seq<int>)
    requires |a| == |b| && forall i | 0 <= i < |a| :: a[i] <= b[i]
    ensures Sum(a) <= Sum(b)
  {
    if a != [] {
      SumGrows(a[..|a| - 1], b[..|b| - 1]);
    }
  }

  lemma NonPositive(x: int, n: int)
    requires x <= 0 && n > 0
    ensures x * n <= 0
  {
  }

  lemma PositiveFactor(x: int, n: int)
    requires n > 0 && x * n > 0
    ensures x > 0
  {
    if x <= 0 {
      NonPositive(x, n);
    }
  }

  lemma QuotientGrows(a: int, b: int, n: int)
    requires n > 0 && a <= b
    ensures Quotient(a, n) <= Quotient(b, n)
  {
    QuotientBounds(a, n);
    QuotientBounds(b, n);
    hide Quotient;
    var p, q := Quotient(a, n), Quotient(b, n);
    if a >= 0 {
      Between(p, q + 1, n);
    } else if b < 0 {
      Between(p - 1, q, n);
    } else {
      Between(p - 1, 0, n);
      Between(0, q + 1, n);
    }
  }

  lemma Between(x: int, y: int, n: int)
    requires n > 0 && x * n < y * n
    ensures x < y
  {
    assert (y - x) * n == y * n - x * n;
    PositiveFactor(y - x, n);
  }

  /** Larger turnaround times never lower either number. */
  lemma SummaryGrows(a: seq<int>, b: seq<int>, total: int)
    requires total > 0 && |a| == |b| && forall i | 0 <= i < |a| :: a[i] <= b[i]
    ensures Summary(a, total).average <= Summary(b, total).average
    ensures Summary(a, total).maximum <= Summary(b, total).maximum
  {
    SumGrows(a, b);
    QuotientGrows(Sum(a), Sum(b), total);
    LargestBounds(a);
    LargestBounds(b);
    if Largest(a) > 0 {
      var i :| 0 <= i < |a| && a[i] == Largest(a);
      assert a[i] <= b[i];
    }
  }

  /** The printed average never exceeds the printed maximum. */
  lemma AverageAtMostMaximum(ts: seq<int>)
    requires ts != []
    ensures Summary(ts, |ts|).average <= Summary(ts, |ts|).maximum
  {
    var m := Largest(ts);
    LargestBounds(ts);
    var flat := seq(|ts|, i => m);
    SumGrows(ts, flat);
    SumFlat(m, |ts|);
    QuotientGrows(Sum(ts), m * |ts|, |ts|);
    ExactQuotient(m, |ts|);
  }

  lemma ExactQuotient(m: nat, n: int)
    requires n > 0
    ensures Quotient(m * n, n) == m
  {
  }

  lemma {:induction false} SumFlat(m: int, n: nat)
    ensures Sum(seq(n, i => m)) == m * n
  {
    if n > 0 {
      assert seq(n, i => m)[..n - 1] == seq(n - 1, i => m);
      SumFlat(m, n - 1);
    }
  }
}
